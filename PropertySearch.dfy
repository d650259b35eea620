/**
 * The property-search query builder (`getAllProperties`): from the optional search filters and a
 * result limit it builds the parameter list and the SQL text handed to the database.
 *
 * `GetAllProperties` follows the source step by step: it pushes values onto the parameter list and
 * picks WHERE or AND by counting the parameters already pushed. `SearchParams` and `SearchQuery`
 * are an independent reference definition in which the filters are collected first, numbered by
 * position, and joined with WHERE/AND afterwards; the builder is proved to agree with it, and the
 * lemmas below state the properties of the reference (and therefore of the builder).
 */
module PropertySearch {
  import opened Wrappers
  import opened SqlQuery

  /** The limit used when the caller passes none. */
  const DEFAULT_LIMIT := 10

  /** The caller's `options` record. An absent field is None. */
  datatype SearchOptions = SearchOptions(
    city: Option<string>,
    ownerId: Option<int>,
    minimumPricePerNight: Option<int>,
    maximumPricePerNight: Option<int>,
    minimumRating: Option<int>)

  // The builder tests each field for JavaScript truthiness: absent, "" and 0 are all falsy.

  predicate TruthyText(x: Option<string>) {
    x.Some? && x.value != ""
  }

  predicate TruthyNumber(x: Option<int>) {
    x.Some? && x.value != 0
  }

  predicate HasCity(o: SearchOptions) {
    TruthyText(o.city)
  }

  predicate HasOwner(o: SearchOptions) {
    TruthyNumber(o.ownerId)
  }

  /** The price filter applies when either bound is truthy. */
  predicate HasPrice(o: SearchOptions) {
    TruthyNumber(o.minimumPricePerNight) || TruthyNumber(o.maximumPricePerNight)
  }

  predicate HasRating(o: SearchOptions) {
    TruthyNumber(o.minimumRating)
  }

  predicate HasWhereFilter(o: SearchOptions) {
    HasCity(o) || HasOwner(o) || HasPrice(o)
  }

  /** The LIKE pattern for a city fragment: a wildcard on either side. */
  function CityPattern(city: string): (r: string)
    ensures |r| == |city| + 2 && r[0] == '%' && r[|r| - 1] == '%' && r[1..|r| - 1] == city
  {
    "%" + city + "%"
  }

  /** The value pushed for one price bound; a bound that was not given is pushed as Absent. */
  function Bound(x: Option<int>): (r: Param)
    ensures r.Absent? <==> x.None?
    ensures r.Number? ==> x == Some(r.n)
    ensures !r.Text?
  {
    match x
    case None => Absent
    case Some(n) => Number(n)
  }

  /** The limit, defaulting to DEFAULT_LIMIT when the argument is not passed. */
  function LimitValue(limit: Option<int>): (r: int)
    ensures limit.None? ==> r == DEFAULT_LIMIT
    ensures limit.Some? ==> r == limit.value
  {
    match limit
    case None => DEFAULT_LIMIT
    case Some(n) => n
  }

  // ---------------------------------------------------------------------------------------------
  // The builder, as the source writes it
  // ---------------------------------------------------------------------------------------------

  /** Builds the query and its parameter list for `options` and `limit`. */
  method GetAllProperties(options: SearchOptions, limit: Option<int>)
    returns (queryString: seq<Clause>, queryParams: seq<Param>)
    ensures queryParams == SearchParams(options, limit)
    ensures queryString == SearchQuery(options, limit)
  {
    queryParams := [];
    queryString := [Select];
    queryParams, queryString := AddCityFilter(options, [], queryParams, queryString);
    assert [] + CityFilter(options) == CityFilter(options);
    queryParams, queryString := AddOwnerFilter(options, CityFilter(options), queryParams, queryString);
    queryParams, queryString := AddPriceFilter(options, CityFilter(options) + OwnerFilter(options),
                                               queryParams, queryString);
    queryParams, queryString := AddAggregationAndLimit(options, limit, queryParams, queryString);
  }

  /** The city step: push the LIKE pattern and compare `city` with it. */
  method AddCityFilter(options: SearchOptions, ghost applied: seq<Filter>,
                       queryParams: seq<Param>, queryString: seq<Clause>)
    returns (params: seq<Param>, query: seq<Clause>)
    requires Tracks(applied, queryParams, queryString)
    ensures Tracks(applied + CityFilter(options), params, query)
  {
    params, query := queryParams, queryString;
    if HasCity(options) {
      TracksStep(applied, ByCity(CityPattern(options.city.value)), params, query);
      params := params + [Text(CityPattern(options.city.value))];
      JoinOneOrTwo(CityLike(|params|), CityLike(|params|));
      if |params| - 1 != 0 {
        query := query + [And(CityLike(|params|))];
      } else {
        query := query + [Where(CityLike(|params|))];
      }
    } else {
      assert applied + [] == applied;
    }
  }

  /** The owner step: push the owner id and compare `owner_id` with it. */
  method AddOwnerFilter(options: SearchOptions, ghost applied: seq<Filter>,
                        queryParams: seq<Param>, queryString: seq<Clause>)
    returns (params: seq<Param>, query: seq<Clause>)
    requires Tracks(applied, queryParams, queryString)
    ensures Tracks(applied + OwnerFilter(options), params, query)
  {
    params, query := queryParams, queryString;
    if HasOwner(options) {
      TracksStep(applied, ByOwner(options.ownerId.value), params, query);
      params := params + [Number(options.ownerId.value)];
      JoinOneOrTwo(OwnerIs(|params|), OwnerIs(|params|));
      if |params| - 1 != 0 {
        query := query + [And(OwnerIs(|params|))];
      } else {
        query := query + [Where(OwnerIs(|params|))];
      }
    } else {
      assert applied + [] == applied;
    }
  }

  /** The price step: push both bounds, minimum first, and bound `cost_per_night` by the maximum
      (the last value pushed) and then by the minimum (the one before it). */
  method AddPriceFilter(options: SearchOptions, ghost applied: seq<Filter>,
                        queryParams: seq<Param>, queryString: seq<Clause>)
    returns (params: seq<Param>, query: seq<Clause>)
    requires Tracks(applied, queryParams, queryString)
    ensures Tracks(applied + PriceFilter(options), params, query)
  {
    params, query := queryParams, queryString;
    if HasPrice(options) {
      var low, high := Bound(options.minimumPricePerNight), Bound(options.maximumPricePerNight);
      TracksStep(applied, ByPrice(low, high), params, query);
      params := params + [low];
      params := params + [high];
      JoinOneOrTwo(CostAtMost(|params|), CostAtLeast(|params| - 1));
      if |params| - 2 != 0 {
        query := query + [And(CostAtMost(|params|)), And(CostAtLeast(|params| - 1))];
      } else {
        query := query + [Where(CostAtMost(|params|)), And(CostAtLeast(|params| - 1))];
      }
    } else {
      assert applied + [] == applied;
    }
  }

  /** The closing steps: GROUP BY, HAVING when a minimum rating is given, then the limit, pushed
      last, in ORDER BY ... LIMIT. */
  method AddAggregationAndLimit(options: SearchOptions, limit: Option<int>,
                                queryParams: seq<Param>, queryString: seq<Clause>)
    returns (params: seq<Param>, query: seq<Clause>)
    requires Tracks(ActiveFilters(options), queryParams, queryString)
    ensures params == SearchParams(options, limit)
    ensures query == SearchQuery(options, limit)
  {
    params, query := queryParams, queryString;
    if HasRating(options) {
      params := params + [Number(options.minimumRating.value)];
      query := query + [GroupById, Having(|params|)];
    }
    params := params + [Number(LimitValue(limit))];
    if HasRating(options) {
      query := query + [OrderLimit(|params|)];
    } else {
      query := query + [GroupById, OrderLimit(|params|)];
    }
  }

  /** The builder's accumulators after the filters `fs`: their values, and SELECT followed by
      their comparisons joined with WHERE and AND. */
  ghost predicate Tracks(fs: seq<Filter>, params: seq<Param>, query: seq<Clause>) {
    params == Args(fs) && query == [Select] + Conjunction(Predicates(fs))
  }

  /** One filter step of the builder keeps its accumulators in line with the reference. */
  lemma {:induction false} TracksStep(fs: seq<Filter>, f: Filter, params: seq<Param>, query: seq<Clause>)
    requires Tracks(fs, params, query)
    ensures Tracks(fs + [f], params + FilterArgs(f), query + Joined(|params|, FilterPredicates(f, |params|)))
  {
    ApplyFilter(fs, f);
    var joined := Joined(|params|, FilterPredicates(f, |params|));
    assert [Select] + Conjunction(Predicates(fs + [f])) == query + joined by {
      assert [Select] + (Conjunction(Predicates(fs)) + joined)
          == ([Select] + Conjunction(Predicates(fs))) + joined;
    }
  }

  /** The clauses for the comparisons `ps` of a filter whose values follow `before` earlier ones:
      the builder writes WHERE before the first of them only when nothing was pushed before. */
  function Joined(before: nat, ps: seq<Predicate>): seq<Clause> {
    if before == 0 then Conjunction(ps) else AndEach(ps)
  }

  /** WHERE/AND joins of the one or two comparisons a single filter emits. */
  lemma {:induction false} JoinOneOrTwo(x: Predicate, y: Predicate)
    ensures Conjunction([x]) == [Where(x)] && AndEach([x]) == [And(x)]
    ensures Conjunction([x, y]) == [Where(x), And(y)] && AndEach([x, y]) == [And(x), And(y)]
  {
  }

  // ---------------------------------------------------------------------------------------------
  // Reference definition: collect the filters, number their values by position, join with WHERE/AND
  // ---------------------------------------------------------------------------------------------

  /** A filter of the WHERE clause, with the values it binds. */
  datatype Filter = ByCity(pattern: string) | ByOwner(id: int) | ByPrice(low: Param, high: Param)

  function CityFilter(o: SearchOptions): seq<Filter> {
    if HasCity(o) then [ByCity(CityPattern(o.city.value))] else []
  }

  function OwnerFilter(o: SearchOptions): seq<Filter> {
    if HasOwner(o) then [ByOwner(o.ownerId.value)] else []
  }

  function PriceFilter(o: SearchOptions): seq<Filter> {
    if HasPrice(o) then [ByPrice(Bound(o.minimumPricePerNight), Bound(o.maximumPricePerNight))]
    else []
  }

  /** The filters the options switch on, in the order the builder evaluates them. */
  function ActiveFilters(o: SearchOptions): seq<Filter> {
    CityFilter(o) + OwnerFilter(o) + PriceFilter(o)
  }

  function FilterArgs(f: Filter): seq<Param> {
    match f
    case ByCity(p) => [Text(p)]
    case ByOwner(id) => [Number(id)]
    case ByPrice(low, high) => [low, high]
  }

  /** The comparisons of one filter whose values sit right after the first `base` parameters. */
  function FilterPredicates(f: Filter, base: nat): seq<Predicate> {
    match f
    case ByCity(_) => [CityLike(base + 1)]
    case ByOwner(_) => [OwnerIs(base + 1)]
    case ByPrice(_, _) => [CostAtMost(base + 2), CostAtLeast(base + 1)]
  }

  /** The values bound by a sequence of filters, in order. */
  function Args(fs: seq<Filter>): seq<Param> {
    if fs == [] then [] else Args(fs[..|fs| - 1]) + FilterArgs(fs[|fs| - 1])
  }

  /** The comparisons of a sequence of filters, each numbered after the values of those before it. */
  function Predicates(fs: seq<Filter>): seq<Predicate> {
    if fs == [] then []
    else
      var init := fs[..|fs| - 1];
      Predicates(init) + FilterPredicates(fs[|fs| - 1], |Args(init)|)
  }

  /** The WHERE clause: the first comparison introduced by WHERE, every other one by AND. */
  function Conjunction(ps: seq<Predicate>): seq<Clause> {
    seq(|ps|, i requires 0 <= i < |ps| => if i == 0 then Where(ps[i]) else And(ps[i]))
  }

  function AndEach(ps: seq<Predicate>): seq<Clause> {
    seq(|ps|, i requires 0 <= i < |ps| => And(ps[i]))
  }

  /** The grouping needed for the average rating, with a HAVING threshold when one is given. */
  datatype Aggregation = GroupOnly | GroupWithHaving(threshold: int)

  function AggregationOf(o: SearchOptions): Aggregation {
    if HasRating(o) then GroupWithHaving(o.minimumRating.value) else GroupOnly
  }

  function AggregationArgs(a: Aggregation): seq<Param> {
    match a
    case GroupOnly => []
    case GroupWithHaving(t) => [Number(t)]
  }

  function AggregationClauses(a: Aggregation, base: nat): seq<Clause> {
    match a
    case GroupOnly => [GroupById]
    case GroupWithHaving(_) => [GroupById, Having(base + 1)]
  }

  /** The parameter list of the search. */
  function SearchParams(o: SearchOptions, limit: Option<int>): seq<Param> {
    Args(ActiveFilters(o)) + AggregationArgs(AggregationOf(o)) + [Number(LimitValue(limit))]
  }

  /** The query of the search. */
  function SearchQuery(o: SearchOptions, limit: Option<int>): seq<Clause> {
    var fs := ActiveFilters(o);
    [Select] + Conjunction(Predicates(fs))
    + AggregationClauses(AggregationOf(o), |Args(fs)|)
    + [OrderLimit(|SearchParams(o, limit)|)]
  }

  // ---------------------------------------------------------------------------------------------
  // Structure of the reference
  // ---------------------------------------------------------------------------------------------

  /** Every filter binds at least one value and emits at least one comparison. */
  lemma {:induction false} NoFiltersNoArgs(fs: seq<Filter>)
    ensures Args(fs) == [] <==> fs == []
    ensures Predicates(fs) == [] <==> fs == []
  {
  }

  lemma {:induction false} ConjunctionAppend(ps: seq<Predicate>, qs: seq<Predicate>)
    ensures Conjunction(ps + qs)
         == if ps == [] then Conjunction(qs) else Conjunction(ps) + AndEach(qs)
  {
    if ps == [] {
      assert ps + qs == qs;
    }
  }

  /** One more filter: its values are appended, and its comparisons are joined with WHERE exactly
      when no value was bound before, which is what the builder's test on the parameter count
      decides. */
  lemma {:induction false} ApplyFilter(fs: seq<Filter>, f: Filter)
    ensures Args(fs + [f]) == Args(fs) + FilterArgs(f)
    ensures Predicates(fs + [f]) == Predicates(fs) + FilterPredicates(f, |Args(fs)|)
    ensures Conjunction(Predicates(fs + [f]))
         == Conjunction(Predicates(fs)) + Joined(|Args(fs)|, FilterPredicates(f, |Args(fs)|))
  {
    assert (fs + [f])[..|fs|] == fs;
    NoFiltersNoArgs(fs);
    ConjunctionAppend(Predicates(fs), FilterPredicates(f, |Args(fs)|));
  }
}
