# LightBnB property search, modelled in Dafny

LightBnB's server builds one parameterised SQL query for its property search, `getAllProperties`.
The caller passes an options record: a city fragment, an owner id, a minimum and a maximum price
per night, and a minimum rating. The caller also passes a result limit, which defaults to 10. The
function builds a parameter array and a query string together:

- each filter that is set pushes its value or values onto the array;
- the city and owner filters then append one comparison whose `$k` placeholder is the array's
  length after the push, introduced by `WHERE` when nothing was pushed before the filter and by
  `AND` otherwise;
- the price filter pushes both bounds, minimum first, and appends two comparisons:
  `cost_per_night <= $len` on the maximum, then `AND cost_per_night >= $(len-1)` on the minimum.
  The first is introduced by `WHERE` or `AND` as above; the second is always joined with `AND`;
- a minimum rating adds `GROUP BY properties.id HAVING …`; without one, a plain `GROUP BY` comes
  just before `ORDER BY cost_per_night LIMIT $n`;
- the limit is always pushed last.

The project has four modules:

- `Wrappers` (Wrappers.dfy): the `Option` type.
- `SqlQuery` (SqlQuery.dfy): the query as a sequence of clause tokens (`Select`, `Where`, `And`,
  `GroupById`, `Having`, `OrderLimit`). A placeholder is kept as its number. It also has:
  - `Placeholders`, the placeholder numbers of a query in text order;
  - a recogniser for the legal clause order (`Run`, `LegalOrder`);
  - `Render`, which turns the tokens into SQL text, writing numbers with `Decimal`;
  - `ScanPlaceholders`, which reads the `$k` numbers back out of a SQL text, and the lemma that
    reading the rendered text gives exactly the query's placeholders.
- `PropertySearch` (PropertySearch.dfy): the options record and JavaScript truthiness, plus the
  builder `GetAllProperties`. The builder is imperative, as the source is. It threads the parameter
  list and the query through one step method per `if` block of the source. Those steps push values
  and choose WHERE or AND by testing the parameter count, exactly as the source does.
  `SearchParams` and `SearchQuery` are an independent reference definition:
  - first collect the filters that are switched on;
  - number each comparison after the values of the filters before it;
  - join the comparisons with one WHERE followed by ANDs;
  - append the aggregation (`GroupOnly` or `GroupWithHaving`) and the limit.

  The builder is proved to return exactly the reference. The ghost predicate `Tracks` is the
  invariant held between the steps.
- `SearchGuarantees` (SearchGuarantees.dfy): the properties of the reference, and so of the
  builder. They cover:
  - the order and count of the parameters;
  - the no-filter case;
  - each placeholder finding its value;
  - the keyword order;
  - GROUP BY and HAVING;
  - each parameter being used exactly once;
  - worked examples.

JavaScript truthiness is written out. A missing field is `None`. `Some("")` and `Some(0)` also
count as not set, as `""` and `0` are falsy. A price bound is pushed as `Number(n)` when given and
as `Absent` when missing. The `limit = 10` default applies only to a missing argument, so an
explicit 0 is pushed as 0.

Two things about the code shape the model:

- The price filter appends two comparisons, not one: `cost_per_night <= $len` on the maximum
  and then `cost_per_night >= $(len-1)` on the minimum.
- The rating filter appends a `HAVING` clause, not a WHERE/AND comparison.

## Model

| member | source | states |
|---|---|---|
| PropertySearch.GetAllProperties | LightBnB_WebApp-master/server/database.js:104-163 | For any options and limit, the builder returns exactly the reference query and parameter list, `SearchQuery` and `SearchParams`. |
| PropertySearch.AddCityFilter | LightBnB_WebApp-master/server/database.js:115-122 | When the city is truthy, the step pushes `%city%` and appends the LIKE comparison on the new length, as WHERE or AND. The accumulators then match the filters applied so far plus the city filter. |
| PropertySearch.AddOwnerFilter | LightBnB_WebApp-master/server/database.js:124-131 | The same for the owner id: push it and compare `owner_id` with the placeholder of the new length. |
| PropertySearch.AddPriceFilter | LightBnB_WebApp-master/server/database.js:133-143 | When either bound is truthy, the step pushes both bounds, minimum first. It writes `<=` on the last value (the maximum) and `>=` on the one before (the minimum). WHERE is used when the count before the push was 0. |
| PropertySearch.AddAggregationAndLimit | LightBnB_WebApp-master/server/database.js:145-163 | With a rating, the step pushes the rating and writes GROUP BY and HAVING on it. It always pushes the limit and ends with ORDER BY … LIMIT on the final length. The result is the complete reference query and parameter list. |
| PropertySearch.TracksStep | LightBnB_WebApp-master/server/database.js:117-121 | One filter step keeps the builder's accumulators equal to the reference for the filters applied so far. Testing the parameter count picks WHERE exactly when the reference starts its conjunction there. |
| PropertySearch.ApplyFilter | LightBnB_WebApp-master/server/database.js:115-143 | Adding a filter appends its values. It appends its comparisons, numbered after the values before it. They are joined with WHERE only when no value was bound before. |
| PropertySearch.CityPattern | LightBnB_WebApp-master/server/database.js:116 | The city parameter is the city fragment with one `%` wildcard on each side. |
| PropertySearch.Bound | LightBnB_WebApp-master/server/database.js:134-135 | A price bound is pushed as `Absent` exactly when it was not given, and a given bound `n` is pushed as the number `n`; a bound is never pushed as text. |
| PropertySearch.LimitValue | LightBnB_WebApp-master/server/database.js:104 | A missing limit becomes 10; a passed limit, 0 included, is kept as it is. |
| SearchGuarantees.ParameterOrder | LightBnB_WebApp-master/server/database.js:115-151 | The parameters come in the fixed order city pattern, owner id, minimum price, maximum price, rating, limit. Each is present exactly when its filter is on. |
| SearchGuarantees.ParameterCount | LightBnB_WebApp-master/server/database.js:104-151 | The length is city + owner + 2·price + rating + 1, each counted when truthy. The last parameter is the limit, and it is 10 when no limit is passed. |
| SearchGuarantees.NoFilters | LightBnB_WebApp-master/server/database.js:104-162 | With no filter on, the parameters are just `[limit]` and the query is SELECT, GROUP BY, ORDER BY … LIMIT. There is no WHERE and no HAVING, and the only placeholder is `$1`. |
| SearchGuarantees.PriceBoundsPushed | LightBnB_WebApp-master/server/database.js:133-135 | When either bound is truthy, both bounds are pushed: the minimum, then the maximum, right after the city and owner values. |
| SearchGuarantees.FilterBinds | LightBnB_WebApp-master/server/database.js:116-141 | A filter's comparisons use the numbers of the values it just pushed, and each finds its own value at that position. |
| SearchGuarantees.PredicatesBind | LightBnB_WebApp-master/server/database.js:115-143 | Every comparison of a run of filters uses the number of a value already pushed, and that value is the one it is about. |
| SearchGuarantees.PlaceholdersBind | LightBnB_WebApp-master/server/database.js:115-162 | Every `$k` in the query is a position of the parameter list holding its value: the city pattern, the owner id, the maximum for `<=`, the minimum for `>=`, the rating for HAVING, and the limit, the last one, for LIMIT. |
| SearchGuarantees.PlaceholdersExactlyOnce | LightBnB_WebApp-master/server/database.js:115-162 | The query's placeholders are a permutation of 1 to the parameter count. Each parameter is used by exactly one placeholder, and no placeholder is out of range. |
| SearchGuarantees.PredicateSlots | LightBnB_WebApp-master/server/database.js:115-143 | The comparisons of the filters use each of the numbers 1 to the number of filter values exactly once. |
| SearchGuarantees.KeywordOrder | LightBnB_WebApp-master/server/database.js:115-163 | WHERE is the second clause exactly when a WHERE filter is on, and appears nowhere else. Every AND comes after that WHERE. The WHERE/AND clauses are exactly positions 1 to the comparison count, so the rating filter adds none. The clauses follow SELECT [WHERE (AND)*] GROUP BY [HAVING] ORDER/LIMIT. |
| SearchGuarantees.AggregationClause | LightBnB_WebApp-master/server/database.js:145-163 | GROUP BY appears exactly once. HAVING appears if and only if a minimum rating is set, and then binds the rating, the parameter just before the limit. The last clause is ORDER BY … LIMIT on the full parameter count. |
| SearchGuarantees.CityFirst | LightBnB_WebApp-master/server/database.js:115-122 | The city filter, when on, is always introduced by `WHERE city LIKE $1`, and the first parameter is `%city%`. |
| SearchGuarantees.QueryLayout | LightBnB_WebApp-master/server/database.js:104-163 | Where every clause and parameter sits: SELECT, then the comparisons (the first after WHERE, the rest after AND), GROUP BY, HAVING on the parameter after the filter values when a rating is set, and the limit last. |
| SearchGuarantees.CityAndRatingExample | LightBnB_WebApp-master/server/database.js:104-163 | `{city: "canc", minimum_rating: 4}` with the default limit gives `["%canc%", 4, 10]` and the clauses WHERE city LIKE $1, GROUP BY, HAVING … $2, LIMIT $3. |
| SearchGuarantees.OwnerExample | LightBnB_WebApp-master/server/database.js:124-162 | `{owner_id: 7}` gives `[7, 10]` and `WHERE owner_id = $1`, GROUP BY, LIMIT $2. |
| SearchGuarantees.MaximumPriceOnlyExample | LightBnB_WebApp-master/server/database.js:133-162 | A maximum price alone still pushes the missing minimum first: `[Absent, 200, 5]`, with `WHERE cost_per_night <= $2 AND cost_per_night >= $1`. |
| SqlQuery.Decimal | LightBnB_WebApp-master/server/database.js:118 | A placeholder number is written as a nonempty string of decimal digits. |
| SqlQuery.DecimalRoundTrip | LightBnB_WebApp-master/server/database.js:118 | Reading the written digits back gives the number, so distinct placeholders stay distinct in the text. |
| SqlQuery.PlaceholderReadsBack | LightBnB_WebApp-master/server/database.js:118 | The text `$k` written for a placeholder is read back as the single placeholder k. |
| SqlQuery.ClauseText | LightBnB_WebApp-master/server/database.js:108-162 | The text of each clause (the SELECT head, a WHERE or AND comparison, GROUP BY, HAVING, ORDER BY … LIMIT) holds exactly that clause's placeholders, whatever text follows after a space. |
| SqlQuery.RenderedPlaceholders | LightBnB_WebApp-master/server/database.js:108-162 | The `$k` numbers read from the rendered SQL text, in order, are exactly the query's placeholders: rendering loses, adds and reorders none. |
| SearchGuarantees.TextPlaceholdersExactlyOnce | LightBnB_WebApp-master/server/database.js:115-162 | In the SQL text handed to the database, each of `$1` to `$n` for the n parameters appears exactly once, and no other placeholder appears. |

## Left out

- GetAllProperties: returns the query as clause tokens. The SQL text is `Render` of them.
- Render: the whitespace inside the template literals is normalised to single spaces. No lemma
  states the rendered characters beyond where the placeholders are (`RenderedPlaceholders`) and
  how their numbers are written (`DecimalRoundTrip`).
- The JavaScript `* 1` coercion of the price bounds (database.js:134-135) is not modelled. A given
  bound is pushed as its number, and a missing (`undefined`) one as `Absent`, which stands for the
  `NaN` that `undefined * 1` gives. The effect of binding `NaN` in the database is not modelled.
- `options` is always an object, and each of its fields is either absent or of its declared type.
  A `null` field is not modelled: `null` is falsy like an absent field, but `null * 1` is 0, so a
  `null` price bound beside a given one is pushed as 0, not as `NaN`. Calling
  `getAllProperties` without `options` throws a TypeError at database.js:115; that error path is
  not modelled either.
- Values are `int` (owner ids, prices, ratings, the limit) and the city is a string. Floating-point
  numbers and strings passed where numbers are expected are not modelled.
- `console.log` of the query (database.js:167) and `pool.query(...).then(...)`
  (database.js:170-171) are output and a foreign asynchronous database call; they are not part of
  this model. What executing the SQL returns is not modelled either.
- The connection pool and its configuration (database.js:3-17), the unused JSON `require`s
  (database.js:1-2), and the other exported functions (`getUserWithEmail`, `getUserWithId`,
  `addUser`, `getAllReservations`, `addProperty`) are not part of this model. Each passes a fixed
  SQL string to the database and has no query-building logic.
- PlaceholdersBind: stated of the final parameter list, not of the list at the moment each
  placeholder is written. The builder only ever appends to that list, so a position holds the
  same value at both times.
