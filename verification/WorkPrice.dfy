/** The price of a list of labor operations, over exact numbers. */
module WorkPrice {
  import opened Options
  import opened IncludedOperations
  import opened PriceSample

  datatype HourRange = NotGiven | Malformed | Hours(low: real, high: real)

  datatype Labor = Labor(row: Row, overlaps: bool, overlapResolved: bool, hours: Option<real>, range: HourRange)

  datatype Basis = HourlyRate | PublicObservations

  datatype Policy = Policy(basis: Basis, coefficient: real, quantum: real)

  datatype Order = Order(
    labor: seq<Labor>,
    policy: Policy,
    rate: Option<real>,
    observations: seq<Observation>,
    unknownCosts: bool,
    matcher: Matcher)

  const LEAST := 0.00001

  predicate Accepted(o: Order) {
    && o.policy.coefficient >= LEAST && o.policy.quantum >= LEAST
    && (o.policy.basis == HourlyRate ==> o.rate.Some?)
  }

  /** A list is priced when coefficient and quantum are at least a hundred-thousandth, and an hourly one when
      there is a rate. */
  lemma AcceptedExactly(o: Order)
    ensures Accepted(o) <==> && 100000.0 * o.policy.coefficient >= 1.0 && 100000.0 * o.policy.quantum >= 1.0
                             && (o.policy.basis == PublicObservations || o.rate.Some?)
  {
  }

  function Rows(labor: seq<Labor>): (rows: seq<Row>)
    ensures |rows| == |labor| && forall i | 0 <= i < |labor| :: rows[i] == labor[i].row
  {
    seq(|labor|, i requires 0 <= i < |labor| => labor[i].row)
  }

  // ----- Rounding

  /** The nearest whole number, the one away from zero when two are equally near. */
  function RoundHalfUp(x: real): (r: int)
    ensures -0.5 <= r as real - x <= 0.5
  {
    if x >= 0.0 then (x + 0.5).Floor else -((-x + 0.5).Floor)
  }

  function Times(k: int, quantum: real): real {
    k as real * quantum
  }

  function Quanta(value: real, p: Policy): real
    requires p.quantum > 0.0
  {
    value * p.coefficient / p.quantum
  }

  function PriceRound(value: real, p: Policy): real
    requires p.quantum > 0.0
  {
    Times(RoundHalfUp(Quanta(value, p)), p.quantum)
  }

  lemma TimesQuotient(x: real, q: real)
    requires q > 0.0
    ensures x / q * q == x
  {
  }

  lemma Scale(a: real, b: real, q: real)
    requires a <= b && q >= 0.0
    ensures a * q <= b * q
  {
  }

  lemma Unscale(a: real, b: real, q: real)
    requires a * q <= b * q && q > 0.0
    ensures a <= b
  {
    assert a > b ==> (a - b) * q > 0.0;
  }

  /** A rounded price is a multiple of the quantum within half a quantum of the scaled price. */
  lemma RoundedIsNear(value: real, p: Policy)
    requires p.quantum > 0.0
    ensures exists k :: PriceRound(value, p) == Times(k, p.quantum)
    ensures -p.quantum / 2.0 <= PriceRound(value, p) - value * p.coefficient <= p.quantum / 2.0
  {
    hide RoundHalfUp;
    var x := Quanta(value, p);
    var k := RoundHalfUp(x);
    TimesQuotient(value * p.coefficient, p.quantum);
    Scale(k as real - x, 0.5, p.quantum);
    Scale(-0.5, k as real - x, p.quantum);
    assert (k as real - x) * p.quantum == Times(k, p.quantum) - x * p.quantum;
  }

  /** Half a quantum is rounded away from zero. */
  lemma HalvesRoundAway(k: nat)
    ensures RoundHalfUp(k as real + 0.5) == k + 1 && RoundHalfUp(-(k as real) - 0.5) == -(k + 1)
  {
  }

  /** So a price half a quantum above a multiple is rounded up. */
  lemma HalfQuantum(k: nat, x: real, p: Policy)
    requires x == k as real + 0.5 && p.coefficient == 1.0 && p.quantum > 0.0
    ensures PriceRound(x * p.quantum, p) == Times(k + 1, p.quantum)
  {
    hide RoundHalfUp, Quanta;
    WholeQuanta(x, p);
    HalvesRoundAway(k);
  }

  lemma WholeQuanta(x: real, p: Policy)
    requires p.coefficient == 1.0 && p.quantum > 0.0
    ensures Quanta(x * p.quantum, p) == x
  {
    var value := x * p.quantum;
    assert value * p.coefficient == value;
    QuotientTimes(x, p.quantum);
  }

  lemma QuotientTimes(x: real, q: real)
    requires q > 0.0
    ensures x * q / q == x
  {
    TimesQuotient(x * q, q);
    Unscale(x * q / q, x, q);
    Unscale(x, x * q / q, q);
  }

  lemma RoundsUpward(x: real, y: real)
    requires x <= y
    ensures RoundHalfUp(x) <= RoundHalfUp(y)
  {
  }

  lemma QuantaRise(a: real, b: real, p: Policy)
    requires a <= b && p.coefficient >= 0.0 && p.quantum > 0.0
    ensures Quanta(a, p) <= Quanta(b, p)
  {
    Scale(a, b, p.coefficient);
    TimesQuotient(a * p.coefficient, p.quantum);
    TimesQuotient(b * p.coefficient, p.quantum);
    Unscale(Quanta(a, p), Quanta(b, p), p.quantum);
  }

  lemma RoundedKeepsOrder(a: real, b: real, p: Policy)
    requires a <= b && p.coefficient >= 0.0 && p.quantum > 0.0
    ensures PriceRound(a, p) <= PriceRound(b, p)
  {
    hide RoundHalfUp, Quanta;
    QuantaRise(a, b, p);
    RoundsUpward(Quanta(a, p), Quanta(b, p));
    Scale(RoundHalfUp(Quanta(a, p)) as real, RoundHalfUp(Quanta(b, p)) as real, p.quantum);
  }

  // ----- The price of one operation

  function HourQuote(l: Labor, rate: real): Option<Quote> {
    match l.range
    case Hours(lower, upper) =>
      var low, high := lower * rate, upper * rate;
      if low > high then None else Some(Quote(Midpoint(low, high), low, high))
    case Malformed => None
    case NotGiven => if l.hours.None? then None else Some(Quote(l.hours.value * rate, l.hours.value * rate, l.hours.value * rate))
  }

  predicate Lists(s: seq<real>, prices: multiset<real>) {
    multiset(s) == prices
  }

  lemma {:induction false} Listable(prices: multiset<real>)
    ensures exists s :: Lists(s, prices)
    decreases |prices|
  {
    assert (forall x :: x !in prices) ==> prices == multiset{};
    if prices == multiset{} {
      assert Lists([], prices);
    } else {
      var x :| x in prices;
      Listable(prices - multiset{x});
      var s :| Lists(s, prices - multiset{x});
      assert Lists(s + [x], prices);
    }
  }

  /** The median and range of a sample, which depend on its prices alone. */
  ghost function SampleQuote(prices: multiset<real>): Option<Quote> {
    Listable(prices);
    var s :| Lists(s, prices);
    QuoteOf(s)
  }

  lemma AnyListing(s: seq<real>, prices: multiset<real>)
    requires Lists(s, prices)
    ensures SampleQuote(prices) == QuoteOf(s)
  {
    hide QuoteOf;
    Listable(prices);
    var t :| Lists(t, prices) && SampleQuote(prices) == QuoteOf(t);
    QuoteOfMultiset(s, t);
  }

  ghost function QuoteFor(o: Order, i: nat): Option<Quote>
    requires i < |o.labor|
  {
    var name := o.labor[i].row.operationName;
    match o.policy.basis
    case HourlyRate => if o.rate.None? then None else HourQuote(o.labor[i], o.rate.value)
    case PublicObservations => if Blank(name) then None else SampleQuote(Sample(o.matcher, name, o.observations))
  }

  method OperationPrice(o: Order, i: nat) returns (quote: Option<Quote>)
    requires i < |o.labor|
    ensures quote == QuoteFor(o, i)
  {
    hide QuoteOf, Blank;
    var name := o.labor[i].row.operationName;
    match o.policy.basis {
      case HourlyRate => quote := if o.rate.None? then None else HourQuote(o.labor[i], o.rate.value);
      case PublicObservations =>
        if Blank(name) { return None; }
        var sample := PublicPriceSample(o.matcher, name, o.observations);
        quote := QuoteOf(sample);
        AnyListing(sample, Sample(o.matcher, name, o.observations));
    }
  }

  lemma QuoteInRange(o: Order, i: nat)
    requires i < |o.labor| && QuoteFor(o, i).Some?
    ensures QuoteFor(o, i).value.low <= QuoteFor(o, i).value.price <= QuoteFor(o, i).value.high
  {
    hide QuoteOf;
    if o.policy.basis == PublicObservations {
      var prices := Sample(o.matcher, o.labor[i].row.operationName, o.observations);
      Listable(prices);
      var s :| Lists(s, prices) && SampleQuote(prices) == QuoteOf(s);
      NoQuoteOfNothing();
      QuoteBounds(s);
    }
  }

  lemma NoQuoteOfNothing()
    ensures QuoteOf([]).None?
  {
  }

  /** An hourly price is the hours at the rate; a range of hours gives the range at the rate and the price
      halfway between.  Without hours, or with a range that cannot be read or is reversed, there is none. */
  lemma HourlyQuotes(o: Order, i: nat)
    requires i < |o.labor| && o.policy.basis == HourlyRate && o.rate.Some?
    ensures var l, rate, q := o.labor[i], o.rate.value, QuoteFor(o, i);
            && (l.range.Malformed? || (l.range.NotGiven? && l.hours.None?) ==> q.None?)
            && (l.range.NotGiven? && l.hours.Some? ==>
                  q.Some? && q.value.price == q.value.low == q.value.high == l.hours.value * rate)
            && (l.range.Hours? ==>
                  && (q.Some? <==> l.range.low * rate <= l.range.high * rate)
                  && (q.Some? ==> && q.value.low == l.range.low * rate && q.value.high == l.range.high * rate
                                  && q.value.high - q.value.price == q.value.price - q.value.low))
  {
  }

  /** For a positive rate a range is refused exactly when it is reversed. */
  lemma ReversedHours(low: real, high: real, rate: real)
    requires rate > 0.0
    ensures low * rate <= high * rate <==> low <= high
  {
    if low <= high { Scale(low, high, rate); }
    if low * rate <= high * rate { Unscale(low, high, rate); }
  }

  /** A public price is the median of the sample for the operation, in the range of the sample; there is
      none without a name or without a sample. */
  lemma PublicQuotes(o: Order, i: nat, s: seq<real>)
    requires i < |o.labor| && o.policy.basis == PublicObservations && Ascending(s)
    requires multiset(s) == Sample(o.matcher, o.labor[i].row.operationName, o.observations)
    ensures var name, q := o.labor[i].row.operationName, QuoteFor(o, i);
            && (q.Some? <==> s != [] && exists c :: c in name && c !in {' ', '\t', '\n', '\r'})
            && (q.Some? ==> && q.value.price + q.value.price == s[(|s| - 1) / 2] + s[|s| / 2]
                            && q.value.low == s[0] && q.value.high == s[|s| - 1])
  {
    hide Sample, Sorted;
    AnyListing(s, multiset(s));
    if s != [] { QuoteIsMedian(s, s); }
  }

  // ----- The whole list

  datatype Reason = RepeatedOrIncluded | UnresolvedOverlap | UnknownPrice

  datatype Line = Line(row: nat, quote: Quote)

  datatype Exclusion = Exclusion(row: nat, reason: Reason)

  datatype Price = Price(
    lines: seq<Line>,
    exclusions: seq<Exclusion>,
    subtotal: real,
    low: real,
    high: real,
    complete: bool)

  function Rounded(q: Quote, p: Policy): Quote
    requires p.quantum > 0.0
  {
    Quote(PriceRound(q.price, p), PriceRound(q.low, p), PriceRound(q.high, p))
  }

  datatype Fate = Priced(quote: Quote) | Excluded(reason: Reason)

  /** An earlier row stands for the same operation. */
  predicate Seen(labor: seq<Row>, i: nat)
    requires i < |labor|
  {
    exists k | 0 <= k < i :: Key(labor, k) == Key(labor, i)
  }

  /** What becomes of a row: charged at its rounded price, or left out for one reason. */
  ghost function FateOf(o: Order, i: nat): Fate
    requires Accepted(o) && i < |o.labor|
  {
    var rows := Rows(o.labor);
    if Seen(rows, i) || Key(rows, i) in Included(rows) then Excluded(RepeatedOrIncluded)
    else if o.labor[i].overlaps && !o.labor[i].overlapResolved then Excluded(UnresolvedOverlap)
    else
      match QuoteFor(o, i)
      case None => Excluded(UnknownPrice)
      case Some(quote) => Priced(Rounded(quote, o.policy))
  }

  /** The rows listed as charged are, in order, exactly those whose fate that is. */
  ghost predicate ListsPriced(o: Order, lines: seq<Line>, n: nat)
    requires Accepted(o) && n <= |o.labor|
  {
    && (forall l | l in lines :: l.row < n && FateOf(o, l.row) == Priced(l.quote))
    && (forall i | 0 <= i < n && FateOf(o, i).Priced? :: Line(i, FateOf(o, i).quote) in lines)
    && (forall a, b | 0 <= a < b < |lines| :: lines[a].row < lines[b].row)
  }

  ghost predicate ListsExcluded(o: Order, exclusions: seq<Exclusion>, n: nat)
    requires Accepted(o) && n <= |o.labor|
  {
    && (forall e | e in exclusions :: e.row < n && FateOf(o, e.row) == Excluded(e.reason))
    && (forall i | 0 <= i < n && FateOf(o, i).Excluded? :: Exclusion(i, FateOf(o, i).reason) in exclusions)
    && (forall a, b | 0 <= a < b < |exclusions| :: exclusions[a].row < exclusions[b].row)
  }

  function Sum(lines: seq<Line>, part: Quote -> real): real {
    if lines == [] then 0.0 else Sum(lines[..|lines| - 1], part) + part(lines[|lines| - 1].quote)
  }

  function PriceOf(q: Quote): real { q.price }

  function LowOf(q: Quote): real { q.low }

  function HighOf(q: Quote): real { q.high }

  lemma SumAppend(lines: seq<Line>, l: Line, part: Quote -> real)
    ensures Sum(lines + [l], part) == Sum(lines, part) + part(l.quote)
  {
    assert (lines + [l])[..|lines|] == lines;
  }

  /** A list of one line has its price and its bounds as totals. */
  lemma OneLine(l: Line)
    ensures Sum([l], PriceOf) == l.quote.price && Sum([l], LowOf) == l.quote.low && Sum([l], HighOf) == l.quote.high
  {
    assert [l][..0] == [];
  }

  /** Every row is charged or left out, once, for the reason that applies; nothing is missing from the
      total only when no row was left out for want of an answer. */
  ghost predicate Prices(o: Order, p: Price)
    requires Accepted(o)
  {
    && ListsPriced(o, p.lines, |o.labor|)
    && ListsExcluded(o, p.exclusions, |o.labor|)
    && |p.lines| + |p.exclusions| == |o.labor|
    && p.subtotal == Sum(p.lines, PriceOf)
    && p.low == Sum(p.lines, LowOf)
    && p.high == Sum(p.lines, HighOf)
    && (p.complete <==> !o.unknownCosts && forall e | e in p.exclusions :: e.reason == RepeatedOrIncluded)
  }

  method CalculateWorkPrice(o: Order) returns (r: Option<Price>)
    ensures r.Some? <==> Accepted(o) && Acyclic(GraphOf(Rows(o.labor)))
    ensures r.Some? ==> Prices(o, r.value)
  {
    hide Acyclic, GraphOf, QuoteFor, FateOf, Rounded, Included, ListsPriced, ListsExcluded;
    if !Accepted(o) { return None; }
    var rows := Rows(o.labor);
    var included := IncludedOperationIds(rows);
    if included.None? { return None; }
    var lines: seq<Line> := [];
    var exclusions: seq<Exclusion> := [];
    var complete := !o.unknownCosts;
    var seen := {};
    NothingListed(o);
    for i := 0 to |o.labor|
      invariant seen == set k | 0 <= k < i && Key(rows, k) !in included.value :: Key(rows, k)
      invariant ListsPriced(o, lines, i) && ListsExcluded(o, exclusions, i)
      invariant |lines| + |exclusions| == i
      invariant complete <==> !o.unknownCosts && forall e | e in exclusions :: e.reason == RepeatedOrIncluded
    {
      var key := Key(rows, i);
      SeenSet(rows, included.value, seen, i);
      FateIs(o, i);
      if key in seen || key in included.value {
        ExcludesNext(o, lines, exclusions, i, RepeatedOrIncluded);
        exclusions := exclusions + [Exclusion(i, RepeatedOrIncluded)];
      } else {
        seen := seen + {key};
        if o.labor[i].overlaps && !o.labor[i].overlapResolved {
          complete := false;
          ExcludesNext(o, lines, exclusions, i, UnresolvedOverlap);
          exclusions := exclusions + [Exclusion(i, UnresolvedOverlap)];
        } else {
          var quote := OperationPrice(o, i);
          if quote.None? {
            complete := false;
            ExcludesNext(o, lines, exclusions, i, UnknownPrice);
            exclusions := exclusions + [Exclusion(i, UnknownPrice)];
          } else {
            PricesNext(o, lines, exclusions, i, Rounded(quote.value, o.policy));
            lines := lines + [Line(i, Rounded(quote.value, o.policy))];
          }
        }
      }
    }
    var subtotal, low, high := Totals(lines);
    r := Some(Price(lines, exclusions, subtotal, low, high, complete));
  }

  lemma NothingListed(o: Order)
    requires Accepted(o)
    ensures ListsPriced(o, [], 0) && ListsExcluded(o, [], 0)
  {
  }

  lemma ExcludesNext(o: Order, lines: seq<Line>, exclusions: seq<Exclusion>, i: nat, reason: Reason)
    requires Accepted(o) && i < |o.labor| && ListsPriced(o, lines, i) && ListsExcluded(o, exclusions, i)
    requires FateOf(o, i) == Excluded(reason)
    ensures ListsPriced(o, lines, i + 1) && ListsExcluded(o, exclusions + [Exclusion(i, reason)], i + 1)
  {
    hide FateOf;
  }

  lemma PricesNext(o: Order, lines: seq<Line>, exclusions: seq<Exclusion>, i: nat, quote: Quote)
    requires Accepted(o) && i < |o.labor| && ListsPriced(o, lines, i) && ListsExcluded(o, exclusions, i)
    requires FateOf(o, i) == Priced(quote)
    ensures ListsPriced(o, lines + [Line(i, quote)], i + 1) && ListsExcluded(o, exclusions, i + 1)
  {
    hide FateOf;
  }

  method Totals(lines: seq<Line>) returns (subtotal: real, low: real, high: real)
    ensures subtotal == Sum(lines, PriceOf) && low == Sum(lines, LowOf) && high == Sum(lines, HighOf)
  {
    subtotal, low, high := 0.0, 0.0, 0.0;
    for i := 0 to |lines|
      invariant subtotal == Sum(lines[..i], PriceOf) && low == Sum(lines[..i], LowOf) && high == Sum(lines[..i], HighOf)
    {
      assert lines[..i + 1] == lines[..i] + [lines[i]];
      SumAppend(lines[..i], lines[i], PriceOf);
      SumAppend(lines[..i], lines[i], LowOf);
      SumAppend(lines[..i], lines[i], HighOf);
      subtotal, low, high := subtotal + lines[i].quote.price, low + lines[i].quote.low, high + lines[i].quote.high;
    }
    assert lines[..|lines|] == lines;
  }

  lemma SeenSet(labor: seq<Row>, included: set<string>, seen: set<string>, i: nat)
    requires i < |labor| && seen == set k | 0 <= k < i && Key(labor, k) !in included :: Key(labor, k)
    ensures Key(labor, i) in seen || Key(labor, i) in included <==> Seen(labor, i) || Key(labor, i) in included
  {
  }

  lemma FateIs(o: Order, i: nat)
    requires Accepted(o) && i < |o.labor|
    ensures var rows, fate := Rows(o.labor), FateOf(o, i);
            && (Seen(rows, i) || Key(rows, i) in Included(rows) ==> fate == Excluded(RepeatedOrIncluded))
            && (!Seen(rows, i) && Key(rows, i) !in Included(rows) ==>
                  if o.labor[i].overlaps && !o.labor[i].overlapResolved then fate == Excluded(UnresolvedOverlap)
                  else if QuoteFor(o, i).None? then fate == Excluded(UnknownPrice)
                  else fate == Priced(Rounded(QuoteFor(o, i).value, o.policy)))
  {
  }

  // ----- What a price means

  lemma {:induction false} SumsInOrder(lines: seq<Line>)
    requires forall l | l in lines :: l.quote.low <= l.quote.price <= l.quote.high
    ensures Sum(lines, LowOf) <= Sum(lines, PriceOf) <= Sum(lines, HighOf)
    decreases |lines|
  {
    if lines != [] {
      assert lines[|lines| - 1] in lines;
      SumsInOrder(lines[..|lines| - 1]);
    }
  }

  /** The known subtotal lies between the totals of the lower and the upper prices. */
  lemma SubtotalInRange(o: Order, p: Price)
    requires Accepted(o) && Prices(o, p)
    ensures p.low <= p.subtotal <= p.high
  {
    hide QuoteFor, PriceRound;
    forall l | l in p.lines ensures l.quote.low <= l.quote.price <= l.quote.high {
      assert FateOf(o, l.row) == Priced(l.quote);
      var q := QuoteFor(o, l.row).value;
      QuoteInRange(o, l.row);
      RoundedKeepsOrder(q.low, q.price, o.policy);
      RoundedKeepsOrder(q.price, q.high, o.policy);
    }
    SumsInOrder(p.lines);
  }

  /** The price is complete exactly when no cost is reported unknown and every row is charged, unless it is
      repeated or included in another. */
  lemma CompleteExactly(o: Order, p: Price)
    requires Accepted(o) && Prices(o, p)
    ensures p.complete <==> !o.unknownCosts && forall i | 0 <= i < |o.labor| :: FateOf(o, i).Priced? || FateOf(o, i) == Excluded(RepeatedOrIncluded)
  {
    hide FateOf;
  }

  /** The exact prices, or bounds, behind the lines, scaled by the coefficient. */
  ghost function Exact(o: Order, lines: seq<Line>, part: Quote -> real): real
    requires forall l | l in lines :: l.row < |o.labor| && QuoteFor(o, l.row).Some?
  {
    if lines == [] then 0.0
    else
      assert lines[|lines| - 1] in lines;
      Exact(o, lines[..|lines| - 1], part) + part(QuoteFor(o, lines[|lines| - 1].row).value) * o.policy.coefficient
  }

  lemma ChargedHasQuote(o: Order, l: Line)
    requires Accepted(o) && l.row < |o.labor| && FateOf(o, l.row) == Priced(l.quote)
    ensures QuoteFor(o, l.row).Some? && l.quote == Rounded(QuoteFor(o, l.row).value, o.policy)
  {
  }

  lemma OneMoreTimes(n: nat, x: real)
    ensures (n + 1) as real * x == n as real * x + x && -((n + 1) as real) * x == -(n as real) * x - x
  {
  }

  ghost predicate IsPart(part: Quote -> real) {
    part == PriceOf || part == LowOf || part == HighOf
  }

  lemma PartIsNear(q: Quote, p: Policy, part: Quote -> real)
    requires IsPart(part) && p.quantum > 0.0
    ensures -p.quantum / 2.0 <= part(Rounded(q, p)) - part(q) * p.coefficient <= p.quantum / 2.0
  {
    hide PriceRound;
    RoundedIsNear(q.price, p);
    RoundedIsNear(q.low, p);
    RoundedIsNear(q.high, p);
  }

  /** Rounding costs each of the three totals at most half a quantum for each line. */
  lemma {:induction false} RoundingError(o: Order, lines: seq<Line>, part: Quote -> real)
    requires Accepted(o) && IsPart(part) && forall l | l in lines :: l.row < |o.labor| && FateOf(o, l.row) == Priced(l.quote)
    ensures forall l | l in lines :: QuoteFor(o, l.row).Some?
    ensures var error := Sum(lines, part) - Exact(o, lines, part);
            -(|lines| as real) * (o.policy.quantum / 2.0) <= error <= |lines| as real * (o.policy.quantum / 2.0)
    decreases |lines|
  {
    hide FateOf, QuoteFor, PriceRound, IsPart, Rounded;
    forall l | l in lines ensures QuoteFor(o, l.row).Some? { ChargedHasQuote(o, l); }
    if lines != [] {
      var last := lines[|lines| - 1];
      assert last in lines;
      ChargedHasQuote(o, last);
      PartIsNear(QuoteFor(o, last.row).value, o.policy, part);
      RoundingError(o, lines[..|lines| - 1], part);
      OneMoreTimes(|lines| - 1, o.policy.quantum / 2.0);
    }
  }

  /** No operation is charged twice, and none that another one includes. */
  lemma ChargedOnce(o: Order, p: Price, a: nat, b: nat)
    requires Accepted(o) && Prices(o, p) && a < |p.lines| && b < |p.lines|
    ensures p.lines[a].row < |o.labor| && p.lines[b].row < |o.labor|
    ensures var rows := Rows(o.labor);
            && (Key(rows, p.lines[a].row) == Key(rows, p.lines[b].row) ==> a == b)
            && Key(rows, p.lines[a].row) !in Included(rows)
  {
    hide QuoteFor;
    assert FateOf(o, p.lines[a].row) == Priced(p.lines[a].quote);
    assert FateOf(o, p.lines[b].row) == Priced(p.lines[b].quote);
  }

  lemma {:induction false} FirstWith(labor: seq<Row>, i: nat) returns (k: nat)
    requires i < |labor|
    ensures k <= i && Key(labor, k) == Key(labor, i) && !Seen(labor, k)
    decreases i
  {
    if Seen(labor, i) {
      var q :| 0 <= q < i && Key(labor, q) == Key(labor, i);
      k := FirstWith(labor, q);
    } else {
      k := i;
    }
  }

  /** A list that is not empty always keeps a row that is not left out as repeated or included. */
  lemma SomethingIsCharged(o: Order)
    requires Accepted(o) && Acyclic(GraphOf(Rows(o.labor))) && o.labor != []
    ensures exists i :: 0 <= i < |o.labor| && FateOf(o, i) != Excluded(RepeatedOrIncluded)
  {
    hide Acyclic, GraphOf, QuoteFor;
    var rows := Rows(o.labor);
    SomeRowIsKept(rows);
    var i :| 0 <= i < |rows| && Key(rows, i) !in Included(rows);
    var k := FirstWith(rows, i);
    FateIs(o, k);
    assert FateOf(o, k) != Excluded(RepeatedOrIncluded);
  }

  /** Public prices do not depend on the order of the observations, nor on seeing an identified one
      again. */
  lemma PricesIgnoreOrder(o: Order, observations: seq<Observation>, i: nat)
    requires i < |o.labor| && multiset(observations) == multiset(o.observations)
    ensures QuoteFor(o.(observations := observations), i) == QuoteFor(o, i)
  {
    hide Sample, SampleQuote;
    OrderDoesNotMatter(o.matcher, o.labor[i].row.operationName, observations, o.observations);
  }

  lemma PricesIgnoreRepetition(o: Order, again: Observation, i: nat)
    requires i < |o.labor| && again in o.observations && again.source.Some?
    ensures QuoteFor(o.(observations := o.observations + [again]), i) == QuoteFor(o, i)
  {
    hide Sample, SampleQuote;
    RepetitionDoesNotMatter(o.matcher, o.labor[i].row.operationName, o.observations, again);
  }
}
