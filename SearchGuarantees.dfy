/**
 * What the property-search builder guarantees about the query and the parameter list it returns.
 *
 * Every lemma is stated of `SearchQuery` and `SearchParams`; `GetAllProperties` returns exactly
 * those, so each one holds of the builder's output.
 */
module SearchGuarantees {
  import opened Wrappers
  import opened SqlQuery
  import opened PropertySearch

  function Flag(b: bool): nat {
    if b then 1 else 0
  }

  // ---------------------------------------------------------------------------------------------
  // The parameter list
  // ---------------------------------------------------------------------------------------------

  /** The values of the active filters, written out filter by filter. */
  lemma {:induction false} FilterArgsLayout(o: SearchOptions)
    ensures Args(ActiveFilters(o))
         == (if HasCity(o) then [Text(CityPattern(o.city.value))] else [])
          + (if HasOwner(o) then [Number(o.ownerId.value)] else [])
          + (if HasPrice(o) then [Bound(o.minimumPricePerNight), Bound(o.maximumPricePerNight)]
             else [])
  {
    var c, w, r := CityFilter(o), OwnerFilter(o), PriceFilter(o);
    assert ActiveFilters(o) == (c + w) + r;
    ArgsAppendAtMostOne(c, w);
    ArgsAppendAtMostOne(c + w, r);
  }

  /** The comparisons of the active filters, written out filter by filter. */
  lemma {:induction false} FilterPredicatesLayout(o: SearchOptions)
    ensures Predicates(ActiveFilters(o))
         == (if HasCity(o) then [CityLike(1)] else [])
          + (if HasOwner(o) then [OwnerIs(Flag(HasCity(o)) + 1)] else [])
          + (if HasPrice(o) then
               [CostAtMost(Flag(HasCity(o)) + Flag(HasOwner(o)) + 2),
                CostAtLeast(Flag(HasCity(o)) + Flag(HasOwner(o)) + 1)]
             else [])
  {
    var c, w, r := CityFilter(o), OwnerFilter(o), PriceFilter(o);
    assert ActiveFilters(o) == (c + w) + r;
    PredicatesAppendAtMostOne(c, w);
    PredicatesAppendAtMostOne(c + w, r);
    ArgsAppendAtMostOne(c, w);
    assert |Args(c)| == Flag(HasCity(o));
    assert |Args(c + w)| == Flag(HasCity(o)) + Flag(HasOwner(o));
  }

  lemma {:induction false} ArgsAppendAtMostOne(fs: seq<Filter>, g: seq<Filter>)
    requires |g| <= 1
    ensures Args(fs + g) == Args(fs) + (if g == [] then [] else FilterArgs(g[0]))
  {
    if g == [] {
      assert fs + g == fs;
    } else {
      ApplyFilter(fs, g[0]);
    }
  }

  lemma {:induction false} PredicatesAppendAtMostOne(fs: seq<Filter>, g: seq<Filter>)
    requires |g| <= 1
    ensures Predicates(fs + g)
         == Predicates(fs) + (if g == [] then [] else FilterPredicates(g[0], |Args(fs)|))
  {
    if g == [] {
      assert fs + g == fs;
    } else {
      ApplyFilter(fs, g[0]);
    }
  }

  /** The parameters come in the fixed order city pattern, owner id, minimum and maximum price,
      minimum rating, limit; each is present exactly when its filter is on, and the limit always
      is. */
  lemma {:induction false} ParameterOrder(o: SearchOptions, limit: Option<int>)
    ensures SearchParams(o, limit)
         == (if HasCity(o) then [Text(CityPattern(o.city.value))] else [])
          + (if HasOwner(o) then [Number(o.ownerId.value)] else [])
          + (if HasPrice(o) then [Bound(o.minimumPricePerNight), Bound(o.maximumPricePerNight)]
             else [])
          + (if HasRating(o) then [Number(o.minimumRating.value)] else [])
          + [Number(LimitValue(limit))]
  {
    FilterArgsLayout(o);
  }

  /** One parameter per city, owner and rating filter, two for the price filter, one for the limit;
      the limit comes last and is 10 when the caller passes none. */
  lemma {:induction false} ParameterCount(o: SearchOptions, limit: Option<int>)
    ensures var p := SearchParams(o, limit);
      && |p| == Flag(HasCity(o)) + Flag(HasOwner(o)) + 2 * Flag(HasPrice(o)) + Flag(HasRating(o)) + 1
      && p[|p| - 1] == Number(LimitValue(limit))
      && (limit.None? ==> p[|p| - 1] == Number(10))
  {
    ParameterOrder(o, limit);
  }

  /** With no filter on, the only parameter is the limit and the query is SELECT ... GROUP BY ...
      ORDER BY ... LIMIT $1: no WHERE, no HAVING. */
  lemma {:induction false} NoFilters(o: SearchOptions, limit: Option<int>)
    requires !HasCity(o) && !HasOwner(o) && !HasPrice(o) && !HasRating(o)
    ensures SearchParams(o, limit) == [Number(LimitValue(limit))]
    ensures SearchQuery(o, limit) == [Select, GroupById, OrderLimit(1)]
    ensures Placeholders(SearchQuery(o, limit)) == [1]
  {
    FilterArgsLayout(o);
    FilterPredicatesLayout(o);
    assert Conjunction([]) == [];
    assert SearchQuery(o, limit) == [Select] + [GroupById] + [OrderLimit(1)];
    QueryPlaceholders([], GroupOnly, 0, 1);
    assert [Select] + Conjunction([]) + AggregationClauses(GroupOnly, 0) + [OrderLimit(1)]
        == [Select, GroupById, OrderLimit(1)];
  }

  /** The price filter is on when either bound is truthy, and then pushes both bounds, the minimum
      just before the maximum, after the city and owner values. */
  lemma {:induction false} PriceBoundsPushed(o: SearchOptions, limit: Option<int>)
    requires HasPrice(o)
    ensures var p, n := SearchParams(o, limit), Flag(HasCity(o)) + Flag(HasOwner(o));
      n + 1 < |p| && p[n] == Bound(o.minimumPricePerNight) && p[n + 1] == Bound(o.maximumPricePerNight)
  {
    ParameterOrder(o, limit);
  }

  // ---------------------------------------------------------------------------------------------
  // Placeholders bind the values the comparisons are about
  // ---------------------------------------------------------------------------------------------

  /** Where each kind of filter finds its value in `p`. */
  predicate PredicateBinds(pr: Predicate, o: SearchOptions, p: seq<Param>) {
    1 <= pr.slot <= |p| &&
    match pr
    case CityLike(k) => HasCity(o) && p[k - 1] == Text(CityPattern(o.city.value))
    case OwnerIs(k) => HasOwner(o) && p[k - 1] == Number(o.ownerId.value)
    case CostAtMost(k) => HasPrice(o) && p[k - 1] == Bound(o.maximumPricePerNight)
    case CostAtLeast(k) => HasPrice(o) && p[k - 1] == Bound(o.minimumPricePerNight)
  }

  predicate ClauseBinds(c: Clause, o: SearchOptions, limit: Option<int>, p: seq<Param>) {
    match c
    case Select => true
    case Where(pr) => PredicateBinds(pr, o, p)
    case And(pr) => PredicateBinds(pr, o, p)
    case GroupById => true
    case Having(k) => HasRating(o) && 1 <= k <= |p| && p[k - 1] == Number(o.minimumRating.value)
    case OrderLimit(k) => 1 <= k == |p| && p[k - 1] == Number(LimitValue(limit))
  }

  /** A filter that belongs to the options `o`, with the values they give it. */
  predicate Agrees(f: Filter, o: SearchOptions) {
    match f
    case ByCity(pattern) => HasCity(o) && pattern == CityPattern(o.city.value)
    case ByOwner(id) => HasOwner(o) && id == o.ownerId.value
    case ByPrice(low, high) =>
      HasPrice(o) && low == Bound(o.minimumPricePerNight) && high == Bound(o.maximumPricePerNight)
  }

  /** The comparisons of one filter whose values were pushed right after the first `base`
      parameters use the numbers of those values, and each finds there the value it is about. */
  lemma {:induction false} FilterBinds(f: Filter, base: nat, o: SearchOptions, p: seq<Param>)
    requires Agrees(f, o)
    requires base + |FilterArgs(f)| <= |p| && p[base..base + |FilterArgs(f)|] == FilterArgs(f)
    ensures forall pr :: pr in FilterPredicates(f, base) ==>
              PredicateBinds(pr, o, p) && base < pr.slot <= base + |FilterArgs(f)|
  {
    assert p[base] == p[base..base + |FilterArgs(f)|][0];
    if f.ByPrice? {
      assert p[base + 1] == p[base..base + |FilterArgs(f)|][1];
    }
  }

  /** When `p` starts with the values of filters `fs`, every comparison of `fs` uses the number of
      a value already pushed, and that value is the one the comparison is about. */
  lemma {:induction false} PredicatesBind(fs: seq<Filter>, o: SearchOptions, p: seq<Param>)
    requires forall j :: 0 <= j < |fs| ==> Agrees(fs[j], o)
    requires |Args(fs)| <= |p| && p[..|Args(fs)|] == Args(fs)
    ensures forall pr :: pr in Predicates(fs) ==> PredicateBinds(pr, o, p) && 1 <= pr.slot <= |Args(fs)|
  {
    if fs != [] {
      var init, last := fs[..|fs| - 1], fs[|fs| - 1];
      var base := |Args(init)|;
      assert Args(fs) == Args(init) + FilterArgs(last);
      assert Predicates(fs) == Predicates(init) + FilterPredicates(last, base);
      forall j | 0 <= j < |init| ensures Agrees(init[j], o) {
        assert init[j] == fs[j];
      }
      PrefixSplit(p, Args(init), FilterArgs(last));
      PredicatesBind(init, o, p);
      FilterBinds(last, base, o, p);
      BindsUnion(Predicates(init), FilterPredicates(last, base), o, p, base, |Args(fs)|);
    }
  }

  lemma {:induction false} PrefixSplit(p: seq<Param>, a: seq<Param>, b: seq<Param>)
    requires |a + b| <= |p| && p[..|a + b|] == a + b
    ensures p[..|a|] == a
    ensures |a| + |b| <= |p| && p[|a|..|a| + |b|] == b
  {
    assert p[..|a|] == (a + b)[..|a|];
    assert p[|a|..|a| + |b|] == (a + b)[|a|..];
  }

  lemma {:induction false} BindsUnion(ps: seq<Predicate>, qs: seq<Predicate>, o: SearchOptions,
                                      p: seq<Param>, base: nat, n: nat)
    requires base <= n
    requires forall pr :: pr in ps ==> PredicateBinds(pr, o, p) && 1 <= pr.slot <= base
    requires forall pr :: pr in qs ==> PredicateBinds(pr, o, p) && base < pr.slot <= n
    ensures forall pr :: pr in ps + qs ==> PredicateBinds(pr, o, p) && 1 <= pr.slot <= n
  {
  }

  /** The active filters carry the values the options give them. */
  lemma {:induction false} ActiveFiltersAgree(o: SearchOptions)
    ensures forall j :: 0 <= j < |ActiveFilters(o)| ==> Agrees(ActiveFilters(o)[j], o)
  {
    var c, w, r := CityFilter(o), OwnerFilter(o), PriceFilter(o);
    var fs := ActiveFilters(o);
    forall j | 0 <= j < |fs| ensures Agrees(fs[j], o) {
      if j < |c| {
        assert fs[j] == c[j];
      } else if j < |c| + |w| {
        assert fs[j] == w[j - |c|];
      } else {
        assert fs[j] == r[j - |c| - |w|];
      }
    }
  }

  /** Every placeholder of the query is a position of the parameter list holding the value its
      clause compares against: the city pattern, the owner id, the maximum for `<=`, the minimum
      for `>=`, the rating threshold for HAVING, and the limit, the last parameter, for LIMIT. */
  lemma {:induction false} PlaceholdersBind(o: SearchOptions, limit: Option<int>)
    ensures var q, p := SearchQuery(o, limit), SearchParams(o, limit);
      forall i :: 0 <= i < |q| ==> ClauseBinds(q[i], o, limit, p)
  {
    var q, p := SearchQuery(o, limit), SearchParams(o, limit);
    var fs := ActiveFilters(o);
    ActiveFiltersAgree(o);
    assert p[..|Args(fs)|] == Args(fs);
    PredicatesBind(fs, o, p);
    QueryLayout(o, limit);
    LayoutBinds(q, p, Predicates(fs), o, limit);
  }

  lemma {:induction false} LayoutBinds(q: seq<Clause>, p: seq<Param>, ps: seq<Predicate>,
                                       o: SearchOptions, limit: Option<int>)
    requires Layout(q, p, ps, o, limit)
    requires forall pr :: pr in ps ==> PredicateBinds(pr, o, p)
    ensures forall i :: 0 <= i < |q| ==> ClauseBinds(q[i], o, limit, p)
  {
    forall i | 0 <= i < |q| ensures ClauseBinds(q[i], o, limit, p) {
      if 1 <= i <= |ps| {
        assert ps[i - 1] in ps;
        assert q[i].pred == ps[i - 1];
      }
    }
  }

  // ---------------------------------------------------------------------------------------------
  // The clauses and their order
  // ---------------------------------------------------------------------------------------------

  /** Where each clause and parameter sits, for comparisons `ps`: SELECT; the comparisons, the first
      after WHERE and the others after AND; GROUP BY; HAVING on the parameter after the filter values
      when a rating is given; and last ORDER BY ... LIMIT on the last parameter, the limit. */
  ghost predicate Layout(q: seq<Clause>, p: seq<Param>, ps: seq<Predicate>,
                         o: SearchOptions, limit: Option<int>) {
    && |ps| == Flag(HasCity(o)) + Flag(HasOwner(o)) + 2 * Flag(HasPrice(o))
    && |p| == |ps| + 1 + Flag(HasRating(o))
    && |q| == |ps| + 3 + Flag(HasRating(o))
    && q[0] == Select
    && (forall i :: 1 <= i <= |ps| ==> q[i] == if i == 1 then Where(ps[0]) else And(ps[i - 1]))
    && q[|ps| + 1] == GroupById
    && (HasRating(o) ==> q[|ps| + 2] == Having(|ps| + 1) && p[|ps|] == Number(o.minimumRating.value))
    && q[|q| - 1] == OrderLimit(|p|)
    && p[|p| - 1] == Number(LimitValue(limit))
  }

  /** The search query and parameters have that layout, with the active filters' comparisons. */
  lemma {:induction false} QueryLayout(o: SearchOptions, limit: Option<int>)
    ensures Layout(SearchQuery(o, limit), SearchParams(o, limit), Predicates(ActiveFilters(o)), o, limit)
  {
    var fs := ActiveFilters(o);
    FilterArgsLayout(o);
    FilterPredicatesLayout(o);
    LayoutOf(SearchQuery(o, limit), SearchParams(o, limit), Args(fs), Predicates(fs), o, limit);
  }

  lemma {:induction false} LayoutOf(q: seq<Clause>, p: seq<Param>, args: seq<Param>, ps: seq<Predicate>,
                                    o: SearchOptions, limit: Option<int>)
    requires |args| == |ps| == Flag(HasCity(o)) + Flag(HasOwner(o)) + 2 * Flag(HasPrice(o))
    requires p == args + AggregationArgs(AggregationOf(o)) + [Number(LimitValue(limit))]
    requires q == [Select] + Conjunction(ps) + AggregationClauses(AggregationOf(o), |args|)
                + [OrderLimit(|p|)]
    ensures Layout(q, p, ps, o, limit)
  {
    var c := Conjunction(ps);
    forall i | 1 <= i <= |ps| ensures q[i] == if i == 1 then Where(ps[0]) else And(ps[i - 1]) {
      assert q[i] == c[i - 1];
    }
  }

  /** WHERE appears once, right after SELECT, exactly when a WHERE filter is on; AND appears only
      after it; the WHERE/AND clauses are exactly the filter comparisons, so the rating filter never
      adds one; the clauses follow the order SELECT [WHERE (AND)*] GROUP BY [HAVING] ORDER/LIMIT. */
  lemma {:induction false} KeywordOrder(o: SearchOptions, limit: Option<int>)
    ensures var q := SearchQuery(o, limit);
      && (forall i :: 0 <= i < |q| ==> (q[i].Where? <==> i == 1 && HasWhereFilter(o)))
      && (forall i :: 0 <= i < |q| && q[i].And? ==> 1 < i && q[1].Where?)
      && (forall i :: 0 <= i < |q| ==>
            ((q[i].Where? || q[i].And?) <==>
             1 <= i <= Flag(HasCity(o)) + Flag(HasOwner(o)) + 2 * Flag(HasPrice(o))))
      && LegalOrder(q)
  {
    QueryLayout(o, limit);
    LayoutKeywords(SearchQuery(o, limit), SearchParams(o, limit), Predicates(ActiveFilters(o)), o, limit);
  }

  lemma {:induction false} LayoutKeywords(q: seq<Clause>, p: seq<Param>, ps: seq<Predicate>,
                                          o: SearchOptions, limit: Option<int>)
    requires Layout(q, p, ps, o, limit)
    ensures forall i :: 0 <= i < |q| ==> (q[i].Where? <==> i == 1 && HasWhereFilter(o))
    ensures forall i :: 0 <= i < |q| && q[i].And? ==> 1 < i && q[1].Where?
    ensures forall i :: 0 <= i < |q| ==> ((q[i].Where? || q[i].And?) <==> 1 <= i <= |ps|)
    ensures LegalOrder(q)
  {
    var n := |ps|;
    assert HasWhereFilter(o) <==> n > 0;
    forall i | n + 1 <= i < |q| ensures !q[i].Where? && !q[i].And? {
    }
    LayoutRuns(q, p, ps, o, limit);
  }

  lemma {:induction false} LayoutRuns(q: seq<Clause>, p: seq<Param>, ps: seq<Predicate>,
                                      o: SearchOptions, limit: Option<int>)
    requires Layout(q, p, ps, o, limit)
    ensures LegalOrder(q)
  {
    var n := |ps|;
    var conditions, tail := q[1..n + 1], q[n + 1..];
    assert q == [Select] + conditions + tail;
    forall i | 1 <= i < |conditions| ensures conditions[i].And? {
      assert conditions[i] == q[i + 1];
    }
    assert conditions != [] ==> conditions[0] == q[1];
    ConditionsRun(conditions);
    assert Run(Start, [Select]) == Some(Selected);
    RunAppend(Start, [Select], conditions);
    RunAppend(Start, [Select] + conditions, tail);
    if HasRating(o) {
      assert tail == [GroupById, Having(n + 1), OrderLimit(|p|)];
    } else {
      assert tail == [GroupById, OrderLimit(|p|)];
    }
    AggregationRun(if conditions == [] then Selected else Filtering, tail, n + 1, |p|);
  }

  /** GROUP BY, an optional HAVING and ORDER/LIMIT close a query after SELECT or its conditions. */
  lemma {:induction false} AggregationRun(ph: Phase, t: seq<Clause>, k: nat, m: nat)
    requires ph == Selected || ph == Filtering
    requires t == [GroupById, OrderLimit(m)] || t == [GroupById, Having(k), OrderLimit(m)]
    ensures Run(ph, t) == Some(Closed)
  {
    var last := [OrderLimit(m)];
    assert Run(Closed, last[1..]) == Some(Closed);
    assert Run(Grouped, last) == Some(Closed);
    assert Run(Aggregated, last) == Some(Closed);
    assert t[1..] == last || t[1..] == [Having(k)] + last;
    assert Run(Grouped, [Having(k)] + last) == Run(Aggregated, last);
  }

  /** A WHERE followed by ANDs takes the recogniser from Selected to Filtering. */
  lemma {:induction false} ConditionsRun(c: seq<Clause>)
    requires c != [] ==> c[0].Where? && forall i :: 1 <= i < |c| ==> c[i].And?
    ensures Run(Selected, c) == Some(if c == [] then Selected else Filtering)
  {
    if c != [] {
      AndsRun(c[1..]);
    }
  }

  lemma {:induction false} AndsRun(c: seq<Clause>)
    requires forall i :: 0 <= i < |c| ==> c[i].And?
    ensures Run(Filtering, c) == Some(Filtering)
  {
    if c != [] {
      AndsRun(c[1..]);
    }
  }

  /** GROUP BY appears exactly once; HAVING appears if and only if a minimum rating is given, and
      then binds the parameter just before the limit; the query ends with ORDER BY ... LIMIT on the
      last parameter. */
  lemma {:induction false} AggregationClause(o: SearchOptions, limit: Option<int>)
    ensures var q, p := SearchQuery(o, limit), SearchParams(o, limit);
      && (exists g :: 0 <= g < |q| && q[g].GroupById?)
      && (forall g, h :: 0 <= g < |q| && 0 <= h < |q| && q[g].GroupById? && q[h].GroupById? ==> g == h)
      && ((exists i :: 0 <= i < |q| && q[i].Having?) <==> HasRating(o))
      && (HasRating(o) ==> q[|q| - 2] == Having(|p| - 1) && p[|p| - 2] == Number(o.minimumRating.value))
      && q[|q| - 1] == OrderLimit(|p|)
  {
    QueryLayout(o, limit);
    LayoutAggregation(SearchQuery(o, limit), SearchParams(o, limit), Predicates(ActiveFilters(o)), o, limit);
  }

  lemma {:induction false} LayoutAggregation(q: seq<Clause>, p: seq<Param>, ps: seq<Predicate>,
                                             o: SearchOptions, limit: Option<int>)
    requires Layout(q, p, ps, o, limit)
    ensures exists g :: 0 <= g < |q| && q[g].GroupById?
    ensures forall g, h :: 0 <= g < |q| && 0 <= h < |q| && q[g].GroupById? && q[h].GroupById? ==> g == h
    ensures (exists i :: 0 <= i < |q| && q[i].Having?) <==> HasRating(o)
    ensures HasRating(o) ==> q[|q| - 2] == Having(|p| - 1) && p[|p| - 2] == Number(o.minimumRating.value)
  {
    assert q[|ps| + 1].GroupById?;
    forall g | 0 <= g < |q| && q[g].GroupById? ensures g == |ps| + 1 {
    }
    if HasRating(o) {
      assert q[|ps| + 2].Having?;
    } else {
      forall i | 0 <= i < |q| ensures !q[i].Having? {
      }
    }
  }

  /** A city filter is always the first: it pushes the first parameter, the city fragment between
      two wildcards, and is introduced by WHERE with placeholder $1. */
  lemma {:induction false} CityFirst(o: SearchOptions, limit: Option<int>)
    requires HasCity(o)
    ensures SearchQuery(o, limit)[1] == Where(CityLike(1))
    ensures SearchParams(o, limit)[0] == Text("%" + o.city.value + "%")
  {
    QueryLayout(o, limit);
    FilterPredicatesLayout(o);
    ParameterOrder(o, limit);
  }

  /** The value of each parameter is used by exactly one placeholder, and every placeholder is
      the number of a parameter. */
  lemma {:induction false} PlaceholdersExactlyOnce(o: SearchOptions, limit: Option<int>)
    ensures var q, p := SearchQuery(o, limit), SearchParams(o, limit);
      && multiset(Placeholders(q)) == multiset(OneTo(|p|))
      && forall k :: multiset(Placeholders(q))[k] == if 1 <= k <= |p| then 1 else 0
  {
    var fs := ActiveFilters(o);
    var n, m := |Args(fs)|, |SearchParams(o, limit)|;
    assert m == n + |AggregationArgs(AggregationOf(o))| + 1;
    QueryPlaceholders(Predicates(fs), AggregationOf(o), n, m);
    PredicateSlots(fs);
    CoverOneTo(Slots(Predicates(fs)), n, AggregationOf(o), m);
    CountOneTo(Placeholders(SearchQuery(o, limit)), m);
  }

  /** In the SQL text handed to the database, each parameter's `$k` is written exactly once, and
      no other placeholder is written. */
  lemma {:induction false} TextPlaceholdersExactlyOnce(o: SearchOptions, limit: Option<int>)
    ensures var text, p := Render(SearchQuery(o, limit)), SearchParams(o, limit);
      forall k :: multiset(ScanPlaceholders(text))[k] == if 1 <= k <= |p| then 1 else 0
  {
    RenderedPlaceholders(SearchQuery(o, limit));
    PlaceholdersExactlyOnce(o, limit);
  }

  /** Slots covering 1 to n once each, then HAVING's n + 1 if present, then LIMIT's last number:
      together they are the numbers 1 to the last. */
  lemma {:induction false} CoverOneTo(slots: seq<nat>, n: nat, a: Aggregation, m: nat)
    requires multiset(slots) == multiset(OneTo(n))
    requires m == n + |AggregationArgs(a)| + 1
    ensures multiset(slots + HavingSlots(a, n) + [m]) == multiset(OneTo(m))
  {
    match a {
      case GroupOnly =>
        assert slots + HavingSlots(a, n) + [m] == slots + [n + 1];
        ExtendCover(slots + [n + 1], slots, n);
      case GroupWithHaving(_) =>
        assert slots + HavingSlots(a, n) + [m] == slots + [n + 1] + [n + 2];
        ExtendCoverTwice(slots, n);
    }
  }

  lemma {:induction false} ExtendCoverTwice(slots: seq<nat>, n: nat)
    requires multiset(slots) == multiset(OneTo(n))
    ensures multiset(slots + [n + 1] + [n + 2]) == multiset(OneTo(n + 2))
  {
    assert OneTo(n + 2) == OneTo(n) + [n + 1] + [n + 2] by {
      assert OneTo(n + 2) == OneTo(n + 1) + [n + 2];
    }
    SameTail(slots + [n + 1], OneTo(n) + [n + 1], [n + 2]) by {
      SameTail(slots, OneTo(n), [n + 1]);
    }
  }

  lemma {:induction false} SameTail(a: seq<nat>, b: seq<nat>, x: seq<nat>)
    requires multiset(a) == multiset(b)
    ensures multiset(a + x) == multiset(b + x)
  {
  }

  /** The placeholder HAVING adds after `base` filter values: none without a minimum rating. */
  function HavingSlots(a: Aggregation, base: nat): seq<nat> {
    match a
    case GroupOnly => []
    case GroupWithHaving(_) => [base + 1]
  }

  /** Read left to right, the placeholders of a search query are its comparisons' slots, then
      HAVING's, then LIMIT's. */
  lemma {:induction false} QueryPlaceholders(ps: seq<Predicate>, a: Aggregation, base: nat, m: nat)
    ensures Placeholders([Select] + Conjunction(ps) + AggregationClauses(a, base) + [OrderLimit(m)])
            == Slots(ps) + HavingSlots(a, base) + [m]
  {
    var c, g := Conjunction(ps), AggregationClauses(a, base);
    FourParts(c, g, m);
    ConjunctionSlots(ps);
    assert Placeholders(g) == HavingSlots(a, base) by {
      assert Placeholders(g) == [] + Placeholders(g[1..]);
      if a.GroupWithHaving? {
        assert Placeholders(g[1..]) == [base + 1] + Placeholders(g[2..]);
      }
    }
  }

  lemma {:induction false} FourParts(c: seq<Clause>, g: seq<Clause>, m: nat)
    ensures Placeholders([Select] + c + g + [OrderLimit(m)])
            == Placeholders(c) + Placeholders(g) + [m]
  {
    var z := [OrderLimit(m)];
    PlaceholdersAppend([Select] + c + g, z);
    PlaceholdersAppend([Select] + c, g);
    PlaceholdersAppend([Select], c);
    PlaceholdersSingle(Select);
    PlaceholdersSingle(OrderLimit(m));
  }

  lemma {:induction false} PlaceholdersSingle(c: Clause)
    ensures Placeholders([c]) == ClauseSlots(c)
  {
    assert [c][1..] == [];
  }

  lemma {:induction false} ConjunctionSlots(ps: seq<Predicate>)
    ensures Placeholders(Conjunction(ps)) == Slots(ps)
  {
    PlaceholdersOfConditions(Conjunction(ps));
  }

  lemma {:induction false} ExtendCover(s: seq<nat>, slots: seq<nat>, n: nat)
    requires multiset(slots) == multiset(OneTo(n))
    requires s == slots + [n + 1]
    ensures multiset(s) == multiset(OneTo(n + 1))
  {
    OneMoreNumber(n);
  }

  lemma {:induction false} CountOneTo(s: seq<nat>, m: nat)
    requires multiset(s) == multiset(OneTo(m))
    ensures forall k :: multiset(s)[k] == if 1 <= k <= m then 1 else 0
  {
    forall k ensures multiset(s)[k] == if 1 <= k <= m then 1 else 0 {
      OneToCount(m, k);
    }
  }

  /** The comparisons of filters `fs` use each of the numbers 1 to |Args(fs)| once. */
  lemma {:induction false} PredicateSlots(fs: seq<Filter>)
    ensures multiset(Slots(Predicates(fs))) == multiset(OneTo(|Args(fs)|))
  {
    if fs != [] {
      var init, last := fs[..|fs| - 1], fs[|fs| - 1];
      var base := |Args(init)|;
      PredicateSlots(init);
      LastFilterSlots(last, base);
      assert Predicates(fs) == Predicates(init) + FilterPredicates(last, base);
      assert |Args(fs)| == base + |FilterArgs(last)|;
      JoinSlots(Predicates(init), FilterPredicates(last, base), base, |FilterArgs(last)|);
    }
  }

  lemma {:induction false} JoinSlots(ps: seq<Predicate>, qs: seq<Predicate>, n: nat, k: nat)
    requires multiset(Slots(ps)) == multiset(OneTo(n))
    requires multiset(OneTo(n + k)) == multiset(OneTo(n)) + multiset(Slots(qs))
    ensures multiset(Slots(ps + qs)) == multiset(OneTo(n + k))
  {
    SlotsAppend(ps, qs);
  }

  lemma {:induction false} SlotsAppend(ps: seq<Predicate>, qs: seq<Predicate>)
    ensures Slots(ps + qs) == Slots(ps) + Slots(qs)
  {
  }

  /** One more filter adds the next one or two numbers. */
  lemma {:induction false} LastFilterSlots(f: Filter, base: nat)
    ensures multiset(OneTo(base + |FilterArgs(f)|))
            == multiset(OneTo(base)) + multiset(Slots(FilterPredicates(f, base)))
  {
    match f
    case ByPrice(_, _) =>
      assert Slots([CostAtMost(base + 2), CostAtLeast(base + 1)]) == [base + 2, base + 1];
      TwoMoreNumbers(base);
    case ByCity(_) =>
      assert Slots([CityLike(base + 1)]) == [base + 1];
      OneMoreNumber(base);
    case ByOwner(_) =>
      assert Slots([OwnerIs(base + 1)]) == [base + 1];
      OneMoreNumber(base);
  }

  lemma {:induction false} OneMoreNumber(n: nat)
    ensures multiset(OneTo(n + 1)) == multiset(OneTo(n)) + multiset([n + 1])
  {
    assert OneTo(n + 1) == OneTo(n) + [n + 1];
  }

  lemma {:induction false} TwoMoreNumbers(n: nat)
    ensures multiset(OneTo(n + 2)) == multiset(OneTo(n)) + multiset([n + 2, n + 1])
  {
    OneMoreNumber(n);
    OneMoreNumber(n + 1);
    assert multiset([n + 2, n + 1]) == multiset([n + 1]) + multiset([n + 2]);
  }

  // ---------------------------------------------------------------------------------------------
  // Worked examples
  // ---------------------------------------------------------------------------------------------

  /** The search for options that switch on exactly one of the WHERE filters. */
  lemma {:induction false} OneFilterSearch(o: SearchOptions, limit: Option<int>, f: Filter)
    requires ActiveFilters(o) == [f]
    ensures SearchParams(o, limit)
         == FilterArgs(f) + AggregationArgs(AggregationOf(o)) + [Number(LimitValue(limit))]
    ensures SearchQuery(o, limit)
         == [Select] + Conjunction(FilterPredicates(f, 0))
          + AggregationClauses(AggregationOf(o), |FilterArgs(f)|) + [OrderLimit(|SearchParams(o, limit)|)]
  {
    OneFilterFolds(f);
  }

  lemma {:induction false} OneFilterFolds(f: Filter)
    ensures Args([f]) == FilterArgs(f) && Predicates([f]) == FilterPredicates(f, 0)
  {
    ApplyFilter([], f);
    assert [] + [f] == [f];
  }

  /** `{city: "canc", minimum_rating: 4}` with the default limit. */
  lemma CityAndRatingExample()
    ensures var o := SearchOptions(Some("canc"), None, None, None, Some(4));
      && SearchParams(o, None) == [Text("%canc%"), Number(4), Number(10)]
      && SearchQuery(o, None) == [Select, Where(CityLike(1)), GroupById, Having(2), OrderLimit(3)]
  {
    var o := SearchOptions(Some("canc"), None, None, None, Some(4));
    var f := ByCity("%canc%");
    assert CityPattern("canc") == "%canc%";
    assert ActiveFilters(o) == [f];
    OneFilterSearch(o, None, f);
    JoinOneOrTwo(CityLike(1), CityLike(1));
  }

  /** `{owner_id: 7}` with the default limit. */
  lemma OwnerExample()
    ensures var o := SearchOptions(None, Some(7), None, None, None);
      && SearchParams(o, None) == [Number(7), Number(10)]
      && SearchQuery(o, None) == [Select, Where(OwnerIs(1)), GroupById, OrderLimit(2)]
  {
    var o := SearchOptions(None, Some(7), None, None, None);
    var f := ByOwner(7);
    assert ActiveFilters(o) == [f];
    OneFilterSearch(o, None, f);
    JoinOneOrTwo(OwnerIs(1), OwnerIs(1));
  }

  /** Only a maximum price: the missing minimum is still pushed, before the maximum. */
  lemma MaximumPriceOnlyExample()
    ensures var o := SearchOptions(None, None, None, Some(200), None);
      && SearchParams(o, Some(5)) == [Absent, Number(200), Number(5)]
      && SearchQuery(o, Some(5))
         == [Select, Where(CostAtMost(2)), And(CostAtLeast(1)), GroupById, OrderLimit(3)]
  {
    var o := SearchOptions(None, None, None, Some(200), None);
    var f := ByPrice(Absent, Number(200));
    assert ActiveFilters(o) == [f];
    OneFilterSearch(o, Some(5), f);
    JoinOneOrTwo(CostAtMost(2), CostAtLeast(1));
  }
}
