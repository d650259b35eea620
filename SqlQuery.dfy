/**
 * The parameterised SQL text issued for a property search, as a sequence of clause tokens.
 *
 * A token stands for one template fragment the builder appends to its query string; a placeholder
 * `$k` is kept as the number k, and `Render` turns the tokens back into SQL text. Whitespace inside
 * the fragments is normalised to single spaces.
 */
module SqlQuery {
  import opened Wrappers

  /** A value bound to a placeholder: the city pattern or a user-supplied number, or the
      missing price bound pushed when only the other bound was given. */
  datatype Param = Text(s: string) | Number(n: int) | Absent

  /** A filter comparison; `slot` is the 1-based number of the placeholder it uses. */
  datatype Predicate =
    | CityLike(slot: nat)      // city LIKE $slot
    | OwnerIs(slot: nat)       // owner_id = $slot
    | CostAtMost(slot: nat)    // cost_per_night <= $slot
    | CostAtLeast(slot: nat)   // cost_per_night >= $slot

  datatype Clause =
    | Select                   // SELECT ... FROM properties JOIN property_reviews ...
    | Where(pred: Predicate)
    | And(pred: Predicate)
    | GroupById                // GROUP BY properties.id
    | Having(slot: nat)        // HAVING avg(property_reviews.rating) >= $slot
    | OrderLimit(slot: nat)    // ORDER BY cost_per_night LIMIT $slot;

  /** The placeholder numbers one clause uses. */
  function ClauseSlots(c: Clause): seq<nat> {
    match c
    case Select => []
    case Where(p) => [p.slot]
    case And(p) => [p.slot]
    case GroupById => []
    case Having(k) => [k]
    case OrderLimit(k) => [k]
  }

  /** The placeholder numbers of a query, in the order they appear in its text. */
  function Placeholders(q: seq<Clause>): seq<nat> {
    if q == [] then [] else ClauseSlots(q[0]) + Placeholders(q[1..])
  }

  lemma {:induction false} PlaceholdersAppend(a: seq<Clause>, b: seq<Clause>)
    ensures Placeholders(a + b) == Placeholders(a) + Placeholders(b)
  {
    if a == [] {
      assert a + b == b;
    } else {
      assert (a + b)[1..] == a[1..] + b;
      PlaceholdersAppend(a[1..], b);
    }
  }

  /** The placeholder numbers of a sequence of comparisons. */
  function Slots(ps: seq<Predicate>): seq<nat> {
    seq(|ps|, i requires 0 <= i < |ps| => ps[i].slot)
  }

  /** The numbers 1 to n in increasing order. */
  function OneTo(n: nat): seq<nat> {
    if n == 0 then [] else OneTo(n - 1) + [n]
  }

  /** Each of 1 to n occurs in OneTo(n) once, and nothing else occurs. */
  lemma {:induction false} OneToCount(n: nat, k: int)
    ensures multiset(OneTo(n))[k] == if 1 <= k <= n then 1 else 0
  {
    if n > 0 {
      OneToSnoc(n);
      OneToCount(n - 1, k);
    }
  }

  lemma OneToSnoc(n: nat)
    requires n > 0
    ensures multiset(OneTo(n)) == multiset(OneTo(n - 1)) + multiset{n}
  {
    assert OneTo(n) == OneTo(n - 1) + [n];
  }

  /** A run of WHERE/AND clauses uses the placeholders of its comparisons, in order. */
  lemma {:induction false} PlaceholdersOfConditions(q: seq<Clause>)
    requires forall i :: 0 <= i < |q| ==> q[i].Where? || q[i].And?
    ensures Placeholders(q) == seq(|q|, i requires 0 <= i < |q| => q[i].pred.slot)
  {
    if q != [] {
      PlaceholdersOfConditions(q[1..]);
    }
  }

  // ---------------------------------------------------------------------------------------------
  // Legal clause order, as a recogniser independent of how the builder produces its tokens:
  //   SELECT [WHERE p (AND p)*] GROUP BY [HAVING] ORDER BY ... LIMIT
  // ---------------------------------------------------------------------------------------------

  datatype Phase = Start | Selected | Filtering | Grouped | Aggregated | Closed

  function Next(ph: Phase, c: Clause): Option<Phase> {
    match (ph, c)
    case (Start, Select) => Some(Selected)
    case (Selected, Where(_)) => Some(Filtering)
    case (Filtering, And(_)) => Some(Filtering)
    case (Selected, GroupById) => Some(Grouped)
    case (Filtering, GroupById) => Some(Grouped)
    case (Grouped, Having(_)) => Some(Aggregated)
    case (Grouped, OrderLimit(_)) => Some(Closed)
    case (Aggregated, OrderLimit(_)) => Some(Closed)
    case _ => None
  }

  /** The phase reached after reading `q` from phase `ph`, or None if some clause is out of place. */
  function Run(ph: Phase, q: seq<Clause>): Option<Phase>
    decreases q
  {
    if q == [] then Some(ph)
    else match Next(ph, q[0])
      case None => None
      case Some(ph') => Run(ph', q[1..])
  }

  predicate LegalOrder(q: seq<Clause>) {
    Run(Start, q) == Some(Closed)
  }

  lemma {:induction false} RunAppend(ph: Phase, a: seq<Clause>, b: seq<Clause>)
    ensures Run(ph, a + b) == match Run(ph, a) case None => None case Some(mid) => Run(mid, b)
    decreases a
  {
    if a == [] {
      assert a + b == b;
    } else {
      assert (a + b)[0] == a[0];
      assert (a + b)[1..] == a[1..] + b;
      match Next(ph, a[0])
      case None =>
      case Some(ph') => RunAppend(ph', a[1..], b);
    }
  }

  // ---------------------------------------------------------------------------------------------
  // Rendering to SQL text
  // ---------------------------------------------------------------------------------------------

  predicate IsDigit(c: char) {
    '0' <= c <= '9'
  }

  /** The decimal numeral the template literals produce for `${n}`. */
  function Decimal(n: nat): (s: string)
    ensures s != [] && forall i :: 0 <= i < |s| ==> IsDigit(s[i])
  {
    var d := [('0' as int + n % 10) as char];
    if n < 10 then d else Decimal(n / 10) + d
  }

  /** The number a string of decimal digits denotes. */
  function DigitsValue(s: string): nat
    requires forall i :: 0 <= i < |s| ==> IsDigit(s[i])
  {
    if s == [] then 0
    else
      assert IsDigit(s[|s| - 1]);
      10 * DigitsValue(s[..|s| - 1]) + (s[|s| - 1] as int - '0' as int)
  }

  /** Reading a rendered placeholder number back gives the number: distinct slots stay distinct
      in the SQL text. */
  lemma {:induction false} DecimalRoundTrip(n: nat)
    ensures DigitsValue(Decimal(n)) == n
  {
    var s := Decimal(n);
    if n >= 10 {
      DecimalRoundTrip(n / 10);
      assert s[..|s| - 1] == Decimal(n / 10);
    }
  }

  /** The text written for the placeholder `$k`. */
  function Placeholder(k: nat): string {
    "$" + Decimal(k)
  }

  /** The column and operator a comparison writes before its placeholder. */
  function ComparisonText(p: Predicate): string {
    match p
    case CityLike(_) => "city LIKE "
    case OwnerIs(_) => "owner_id = "
    case CostAtMost(_) => "cost_per_night <= "
    case CostAtLeast(_) => "cost_per_night >= "
  }

  function RenderPredicate(p: Predicate): string {
    ComparisonText(p) + Placeholder(p.slot)
  }

  const SELECT_LIST := "SELECT properties.*, " + "avg(property_reviews.rating) " + "as average_rating "
  const FROM_JOIN := "FROM properties " + "JOIN property_reviews " + "ON properties.id = property_id"
  const SELECT_TEXT := SELECT_LIST + FROM_JOIN
  const HAVING_TEXT := "HAVING avg(property_reviews.rating) >= "
  const ORDER_TEXT := "ORDER BY cost_per_night LIMIT "

  function RenderClause(c: Clause): string {
    match c
    case Select => SELECT_TEXT
    case Where(p) => "WHERE " + RenderPredicate(p)
    case And(p) => "AND " + RenderPredicate(p)
    case GroupById => "GROUP BY properties.id"
    case Having(k) => HAVING_TEXT + Placeholder(k)
    case OrderLimit(k) => ORDER_TEXT + Placeholder(k) + ";"
  }

  /** The query text: the clauses separated by single spaces. */
  function Render(q: seq<Clause>): string {
    if q == [] then ""
    else if |q| == 1 then RenderClause(q[0])
    else RenderClause(q[0]) + (" " + Render(q[1..]))
  }

  // ---------------------------------------------------------------------------------------------
  // Reading the placeholders back out of the SQL text
  // ---------------------------------------------------------------------------------------------

  /** The longest prefix of `s` made of decimal digits. */
  function DigitRun(s: string): (d: string)
    ensures |d| <= |s| && d == s[..|d|]
    ensures forall i :: 0 <= i < |d| ==> IsDigit(d[i])
    ensures |d| < |s| ==> !IsDigit(s[|d|])
  {
    if s == [] || !IsDigit(s[0]) then [] else [s[0]] + DigitRun(s[1..])
  }

  /** The placeholder numbers a SQL text contains, in order: every `$` followed by digits. */
  function ScanPlaceholders(s: string): seq<nat>
    decreases |s|
  {
    if s == [] then []
    else if s[0] == '$' && DigitRun(s[1..]) != [] then
      var d := DigitRun(s[1..]);
      [DigitsValue(d)] + ScanPlaceholders(s[1 + |d|..])
    else ScanPlaceholders(s[1..])
  }

  lemma {:induction false} DigitRunAppend(d: string, b: string)
    requires forall i :: 0 <= i < |d| ==> IsDigit(d[i])
    requires b == [] || !IsDigit(b[0])
    ensures DigitRun(d + b) == d
  {
    if d == [] {
      assert d + b == b;
    } else {
      assert (d + b)[0] == d[0];
      assert (d + b)[1..] == d[1..] + b;
      DigitRunAppend(d[1..], b);
    }
  }

  /** Text without a `$` contributes no placeholder. */
  lemma {:induction false} ScanSkips(a: string, b: string)
    requires '$' !in a
    ensures ScanPlaceholders(a + b) == ScanPlaceholders(b)
  {
    if a == [] {
      assert a + b == b;
    } else {
      assert (a + b)[0] == a[0];
      assert (a + b)[1..] == a[1..] + b;
      assert a[0] in a;
      assert forall x :: x in a[1..] ==> x in a;
      ScanSkips(a[1..], b);
    }
  }

  /** A `$` followed by digits is read as one placeholder. */
  lemma ScanDollar(s: string, d: string)
    requires s != [] && s[0] == '$' && d != [] && DigitRun(s[1..]) == d
    ensures ScanPlaceholders(s) == [DigitsValue(d)] + ScanPlaceholders(s[1 + |d|..])
  {
  }

  /** `$k` followed by a non-digit is read back as the placeholder k. */
  lemma PlaceholderThen(k: nat, b: string)
    requires b == [] || !IsDigit(b[0])
    ensures ScanPlaceholders(Placeholder(k) + b) == [k] + ScanPlaceholders(b)
  {
    var s, d := Placeholder(k) + b, Decimal(k);
    assert s[1..] == d + b;
    DigitRunAppend(d, b);
    assert s[1 + |d|..] == b;
    ScanDollar(s, d);
    DecimalRoundTrip(k);
  }

  /** Reading the written placeholder `$k` back gives k and nothing else. */
  lemma PlaceholderReadsBack(k: nat)
    ensures ScanPlaceholders(Placeholder(k)) == [k]
  {
    PlaceholderThen(k, []);
    assert Placeholder(k) + [] == Placeholder(k);
  }

  lemma ComparisonPlain(p: Predicate)
    ensures '$' !in ComparisonText(p)
  {
    match p
    case CityLike(_) =>
    case OwnerIs(_) =>
    case CostAtMost(_) =>
    case CostAtLeast(_) =>
  }

  lemma PlainJoin(a: string, b: string)
    requires '$' !in a && '$' !in b
    ensures '$' !in a + b
  {
  }

  /** The text of a WHERE or AND clause before its placeholder. */
  function ConditionLead(c: Clause): string
    requires c.Where? || c.And?
  {
    (if c.Where? then "WHERE " else "AND ") + ComparisonText(c.pred)
  }

  lemma ConditionShape(c: Clause)
    requires c.Where? || c.And?
    ensures RenderClause(c) == ConditionLead(c) + Placeholder(c.pred.slot)
    ensures '$' !in ConditionLead(c)
  {
    ComparisonPlain(c.pred);
    PlainJoin(if c.Where? then "WHERE " else "AND ", ComparisonText(c.pred));
  }

  lemma OrderLimitShape(k: nat)
    ensures RenderClause(OrderLimit(k)) == ORDER_TEXT + Placeholder(k) + ";"
    ensures '$' !in ORDER_TEXT && '$' !in ";"
  {
  }

  /** A text made of a `$`-free lead, the placeholder `$k` and a rest that does not start with a
      digit holds the placeholder k followed by those of the rest. */
  lemma LeadPlaceholder(text: string, lead: string, k: nat, b: string)
    requires text == lead + Placeholder(k) && '$' !in lead
    requires b == [] || !IsDigit(b[0])
    ensures ScanPlaceholders(text + b) == [k] + ScanPlaceholders(b)
  {
    PrefixedPlaceholder(lead, k, b);
  }

  /** The text of one clause, followed by a space or the end, holds exactly that clause's
      placeholders. */
  lemma ClauseText(c: Clause, b: string)
    requires b == [] || b[0] == ' '
    ensures ScanPlaceholders(RenderClause(c) + b) == ClauseSlots(c) + ScanPlaceholders(b)
  {
    match c
    case Select => FixedText(c, b);
    case Where(_) => ConditionText(c, b);
    case And(_) => ConditionText(c, b);
    case GroupById => FixedText(c, b);
    case Having(k) => HavingText(k, b);
    case OrderLimit(k) => OrderLimitText(k, b);
  }

  /** The clauses without a placeholder contain no `$`. */
  lemma FixedText(c: Clause, b: string)
    requires c.Select? || c.GroupById?
    ensures ScanPlaceholders(RenderClause(c) + b) == ScanPlaceholders(b)
  {
    PlainTexts();
    ScanSkips(RenderClause(c), b);
  }

  lemma PlainTexts()
    ensures '$' !in SELECT_TEXT && '$' !in "GROUP BY properties.id" && '$' !in HAVING_TEXT
  {
    SelectListPlain();
    FromJoinPlain();
    PlainJoin(SELECT_LIST, FROM_JOIN);
    assert '$' !in "GROUP BY properties.id";
    assert '$' !in HAVING_TEXT;
  }

  lemma SelectListPlain()
    ensures '$' !in SELECT_LIST
  {
    var a, b, c := "SELECT properties.*, ", "avg(property_reviews.rating) ", "as average_rating ";
    assert '$' !in a && '$' !in b && '$' !in c;
    PlainJoin(a, b);
    PlainJoin(a + b, c);
  }

  lemma FromJoinPlain()
    ensures '$' !in FROM_JOIN
  {
    var a, b, c := "FROM properties ", "JOIN property_reviews ", "ON properties.id = property_id";
    assert '$' !in a && '$' !in b && '$' !in c;
    PlainJoin(a, b);
    PlainJoin(a + b, c);
  }

  lemma HavingText(k: nat, b: string)
    requires b == [] || b[0] == ' '
    ensures ScanPlaceholders(RenderClause(Having(k)) + b) == [k] + ScanPlaceholders(b)
  {
    PlainTexts();
    LeadPlaceholder(RenderClause(Having(k)), HAVING_TEXT, k, b);
  }

  lemma ConditionText(c: Clause, b: string)
    requires c.Where? || c.And?
    requires b == [] || b[0] == ' '
    ensures ScanPlaceholders(RenderClause(c) + b) == [c.pred.slot] + ScanPlaceholders(b)
  {
    ConditionShape(c);
    LeadPlaceholder(RenderClause(c), ConditionLead(c), c.pred.slot, b);
  }

  lemma OrderLimitText(k: nat, b: string)
    requires b == [] || b[0] == ' '
    ensures ScanPlaceholders(RenderClause(OrderLimit(k)) + b) == [k] + ScanPlaceholders(b)
  {
    OrderLimitShape(k);
    ScanSkips(";", b);
    LeadPlaceholder(ORDER_TEXT + Placeholder(k), ORDER_TEXT, k, ";" + b);
    assert RenderClause(OrderLimit(k)) + b == ORDER_TEXT + Placeholder(k) + (";" + b);
  }

  lemma PrefixedPlaceholder(a: string, k: nat, b: string)
    requires '$' !in a
    requires b == [] || !IsDigit(b[0])
    ensures ScanPlaceholders(a + Placeholder(k) + b) == [k] + ScanPlaceholders(b)
  {
    assert a + Placeholder(k) + b == a + (Placeholder(k) + b);
    ScanSkips(a, Placeholder(k) + b);
    PlaceholderThen(k, b);
  }

  /** The `$k` numbers read from the rendered SQL text, in order, are exactly the query's
      placeholders: rendering neither loses, adds nor reorders a placeholder. */
  lemma {:induction false} RenderedPlaceholders(q: seq<Clause>)
    ensures ScanPlaceholders(Render(q)) == Placeholders(q)
  {
    if |q| == 1 {
      ClauseText(q[0], []);
      assert RenderClause(q[0]) + [] == RenderClause(q[0]);
      assert q[1..] == [];
    } else if |q| > 1 {
      var rest := Render(q[1..]);
      RenderedPlaceholders(q[1..]);
      ClauseText(q[0], " " + rest);
      ScanSkips(" ", rest);
    }
  }
}
