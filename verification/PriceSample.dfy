/** The public prices of an operation: which observations count, and their median and range. */
module PriceSample {
  import opened Options

  /** One observed price.  `source` is what identifies its origin, if anything does; a flag that is
      neither true nor false is none. */
  datatype Observation = Observation(
    name: string,
    price: Option<real>,
    source: Option<nat>,
    laborOnly: Option<bool>,
    includesParts: Option<bool>)

  datatype SourceKey = SourceKey(identity: nat, price: real, source: nat)

  /** How operation names are matched and identified. */
  datatype Matcher = Matcher(matches: (string, string) -> bool, identity: string -> nat)

  predicate Blank(s: string) {
    forall c | c in s :: c in {' ', '\t', '\n', '\r'}
  }

  predicate Counts(m: Matcher, requested: string, o: Observation) {
    !Blank(o.name) && (o.name == requested || m.matches(requested, o.name)) && o.price.Some?
  }

  predicate Eligible(o: Observation) {
    o.laborOnly == Some(true) && o.includesParts == Some(false)
  }

  predicate Vetoes(o: Observation) {
    o.includesParts == Some(true) || o.laborOnly == Some(false)
  }

  function KeyOf(m: Matcher, o: Observation): SourceKey
    requires o.price.Some? && o.source.Some?
  {
    SourceKey(m.identity(o.name), o.price.value, o.source.value)
  }

  // ----- What the sample is

  function EligibleKeys(m: Matcher, requested: string, observations: seq<Observation>): set<SourceKey> {
    set o | o in observations && Counts(m, requested, o) && o.source.Some? && Eligible(o) :: KeyOf(m, o)
  }

  function VetoedKeys(m: Matcher, requested: string, observations: seq<Observation>): set<SourceKey> {
    set o | o in observations && Counts(m, requested, o) && o.source.Some? && Vetoes(o) :: KeyOf(m, o)
  }

  /** The price of an observation that nothing identifies. */
  function UnkeyedPrice(m: Matcher, requested: string, o: Observation): multiset<real> {
    if Counts(m, requested, o) && o.source.None? && Eligible(o) then multiset{o.price.value} else multiset{}
  }

  function UnkeyedPrices(m: Matcher, requested: string, observations: seq<Observation>): multiset<real> {
    if observations == [] then multiset{}
    else
      UnkeyedPrices(m, requested, observations[..|observations| - 1])
      + UnkeyedPrice(m, requested, observations[|observations| - 1])
  }

  ghost function KeyPrices(keys: set<SourceKey>): multiset<real> {
    if keys == {} then multiset{}
    else
      var k :| k in keys;
      KeyPrices(keys - {k}) + multiset{k.price}
  }

  lemma {:induction false} KeyPricesPick(keys: set<SourceKey>, k: SourceKey)
    requires k in keys
    ensures KeyPrices(keys) == KeyPrices(keys - {k}) + multiset{k.price}
    decreases keys
  {
    var q :| q in keys && KeyPrices(keys) == KeyPrices(keys - {q}) + multiset{q.price};
    if q != k {
      KeyPricesPick(keys - {q}, k);
      KeyPricesPick(keys - {k}, q);
      assert keys - {q} - {k} == keys - {k} - {q};
    }
  }

  /** Each source counts once, and not at all if anything about it includes parts. */
  ghost function Sample(m: Matcher, requested: string, observations: seq<Observation>): multiset<real> {
    UnkeyedPrices(m, requested, observations)
    + KeyPrices(EligibleKeys(m, requested, observations) - VetoedKeys(m, requested, observations))
  }

  method CollectPrices(m: Matcher, requested: string, observations: seq<Observation>)
    returns (prices: seq<real>, eligible: set<SourceKey>, vetoed: set<SourceKey>)
    ensures multiset(prices) == UnkeyedPrices(m, requested, observations)
    ensures eligible == EligibleKeys(m, requested, observations)
    ensures vetoed == VetoedKeys(m, requested, observations)
  {
    hide UnkeyedPrices, EligibleKeys, VetoedKeys, Blank, Counts, KeyOf;
    prices, eligible, vetoed := [], {}, {};
    NothingObserved(m, requested, observations[..0]);
    for i := 0 to |observations|
      invariant multiset(prices) == UnkeyedPrices(m, requested, observations[..i])
      invariant eligible == EligibleKeys(m, requested, observations[..i])
      invariant vetoed == VetoedKeys(m, requested, observations[..i])
    {
      var item := observations[i];
      KeysGrow(m, requested, observations, i);
      if Counts(m, requested, item) {
        CountedHasPrice(m, requested, item);
        if item.source.None? {
          if Eligible(item) { prices := prices + [item.price.value]; }
        } else if Vetoes(item) {
          vetoed := vetoed + {KeyOf(m, item)};
        } else if Eligible(item) {
          eligible := eligible + {KeyOf(m, item)};
        }
      }
    }
    assert observations[..|observations|] == observations;
  }

  lemma CountedHasPrice(m: Matcher, requested: string, o: Observation)
    requires Counts(m, requested, o)
    ensures o.price.Some?
  {
  }

  lemma NothingObserved(m: Matcher, requested: string, observations: seq<Observation>)
    requires observations == []
    ensures UnkeyedPrices(m, requested, observations) == multiset{}
    ensures EligibleKeys(m, requested, observations) == {} && VetoedKeys(m, requested, observations) == {}
  {
  }

  method AddKeyPrices(prices: seq<real>, all: set<SourceKey>) returns (sample: seq<real>)
    ensures multiset(sample) == multiset(prices) + KeyPrices(all)
  {
    hide KeyPrices;
    var keys := all;
    sample := prices;
    ghost var taken := {};
    NoKeyPrices();
    while keys != {}
      invariant taken !! keys && taken + keys == all
      invariant multiset(sample) == multiset(prices) + KeyPrices(taken)
      decreases keys
    {
      var key :| key in keys;
      keys := keys - {key};
      sample := sample + [key.price];
      KeyPricesPick(taken + {key}, key);
      assert taken + {key} - {key} == taken;
      taken := taken + {key};
    }
    assert taken == all;
  }

  lemma NoKeyPrices()
    ensures KeyPrices({}) == multiset{}
  {
  }

  method PublicPriceSample(m: Matcher, requested: string, observations: seq<Observation>) returns (sample: seq<real>)
    ensures multiset(sample) == Sample(m, requested, observations)
  {
    var prices, eligible, vetoed := CollectPrices(m, requested, observations);
    sample := AddKeyPrices(prices, eligible - vetoed);
  }

  lemma KeysGrow(m: Matcher, requested: string, observations: seq<Observation>, i: nat)
    requires i < |observations|
    ensures var o := observations[i];
            var keyed := Counts(m, requested, o) && o.source.Some?;
            && EligibleKeys(m, requested, observations[..i + 1])
               == EligibleKeys(m, requested, observations[..i]) + (if keyed && Eligible(o) then {KeyOf(m, o)} else {})
            && VetoedKeys(m, requested, observations[..i + 1])
               == VetoedKeys(m, requested, observations[..i]) + (if keyed && Vetoes(o) then {KeyOf(m, o)} else {})
            && UnkeyedPrices(m, requested, observations[..i + 1])
               == UnkeyedPrices(m, requested, observations[..i]) + UnkeyedPrice(m, requested, o)
  {
    assert observations[..i + 1] == observations[..i] + [observations[i]];
    assert observations[..i + 1][..i] == observations[..i];
  }

  // ----- The sample does not depend on order or repetition

  /** Leaving out an element before the last one and then the last one, in either order. */
  lemma FrontWithout<T>(s: seq<T>, i: nat)
    requires i + 1 < |s|
    ensures var n, without := |s| - 1, s[..i] + s[i + 1..];
            |without| == n && without[n - 1] == s[n] && without[..n - 1] == s[..n][..i] + s[..n][i + 1..]
  {
    var n, without := |s| - 1, s[..i] + s[i + 1..];
    var other := s[..n][..i] + s[..n][i + 1..];
    assert |other| == n - 1;
    forall k | 0 <= k < n - 1 ensures without[k] == other[k] {
      if k < i { assert without[k] == s[k]; } else { assert without[k] == s[k + 1]; }
    }
  }

  lemma {:induction false} UnkeyedWithout(m: Matcher, requested: string, observations: seq<Observation>, i: nat)
    requires i < |observations|
    ensures UnkeyedPrices(m, requested, observations)
         == UnkeyedPrices(m, requested, observations[..i] + observations[i + 1..]) + UnkeyedPrice(m, requested, observations[i])
    decreases |observations|
  {
    hide UnkeyedPrice;
    var n := |observations| - 1;
    var without := observations[..i] + observations[i + 1..];
    if i == n {
      assert without == observations[..n];
    } else {
      UnkeyedWithout(m, requested, observations[..n], i);
      FrontWithout(observations, i);
    }
  }

  lemma WithoutOne<T>(s: seq<T>, i: nat)
    requires i < |s|
    ensures s[i] in multiset(s)
    ensures multiset(s[..i] + s[i + 1..]) == multiset(s) - multiset{s[i]}
  {
    assert s == s[..i] + [s[i]] + s[i + 1..];
  }

  lemma WithoutLast<T>(s: seq<T>)
    requires s != []
    ensures s[|s| - 1] in multiset(s)
    ensures multiset(s[..|s| - 1]) == multiset(s) - multiset{s[|s| - 1]}
  {
    assert s == s[..|s| - 1] + [s[|s| - 1]];
  }

  lemma SameLength<T>(a: seq<T>, b: seq<T>)
    requires multiset(a) == multiset(b)
    ensures |a| == |b|
  {
    assert |multiset(a)| == |a| && |multiset(b)| == |b|;
  }

  lemma {:induction false} UnkeyedReordered(m: Matcher, requested: string, a: seq<Observation>, b: seq<Observation>)
    requires multiset(a) == multiset(b)
    ensures UnkeyedPrices(m, requested, a) == UnkeyedPrices(m, requested, b)
    decreases |a|
  {
    hide UnkeyedPrice;
    SameLength(a, b);
    if a != [] {
      var n := |a| - 1;
      WithoutLast(a);
      var i :| 0 <= i < |b| && b[i] == a[n];
      WithoutOne(b, i);
      UnkeyedReordered(m, requested, a[..n], b[..i] + b[i + 1..]);
      UnkeyedWithout(m, requested, b, i);
    }
  }

  lemma OrderDoesNotMatter(m: Matcher, requested: string, a: seq<Observation>, b: seq<Observation>)
    requires multiset(a) == multiset(b)
    ensures Sample(m, requested, a) == Sample(m, requested, b)
  {
    UnkeyedReordered(m, requested, a, b);
    assert forall o :: (o in a <==> o in multiset(a)) && (o in b <==> o in multiset(b));
    assert EligibleKeys(m, requested, a) == EligibleKeys(m, requested, b);
    assert VetoedKeys(m, requested, a) == VetoedKeys(m, requested, b);
  }

  /** Seeing an identified price again changes nothing. */
  lemma RepetitionDoesNotMatter(m: Matcher, requested: string, observations: seq<Observation>, o: Observation)
    requires o in observations && o.source.Some?
    ensures Sample(m, requested, observations + [o]) == Sample(m, requested, observations)
  {
    var more := observations + [o];
    assert more[..|observations|] == observations;
    assert forall p :: p in more <==> p in observations;
    assert EligibleKeys(m, requested, more) == EligibleKeys(m, requested, observations);
    assert VetoedKeys(m, requested, more) == VetoedKeys(m, requested, observations);
  }

  // ----- Sorting

  predicate Ascending(s: seq<real>) {
    forall i, k | 0 <= i < k < |s| :: s[i] <= s[k]
  }

  function Insert(s: seq<real>, x: real): (r: seq<real>)
    requires Ascending(s)
    ensures Ascending(r) && multiset(r) == multiset(s) + multiset{x}
    ensures |r| == |s| + 1 && forall i | 0 <= i < |r| :: r[i] == x || r[i] in s
    decreases |s|
  {
    if s == [] || s[|s| - 1] <= x then s + [x]
    else
      assert s == s[..|s| - 1] + [s[|s| - 1]];
      Insert(s[..|s| - 1], x) + [s[|s| - 1]]
  }

  function Sorted(s: seq<real>): (r: seq<real>)
    ensures Ascending(r) && multiset(r) == multiset(s) && |r| == |s|
    decreases |s|
  {
    if s == [] then []
    else
      assert s == s[..|s| - 1] + [s[|s| - 1]];
      Insert(Sorted(s[..|s| - 1]), s[|s| - 1])
  }

  /** A multiset has only one ordered sequence. */
  lemma {:induction false} AscendingUnique(a: seq<real>, b: seq<real>)
    requires Ascending(a) && Ascending(b) && multiset(a) == multiset(b)
    ensures a == b
    decreases |a|
  {
    hide Ascending;
    SameLength(a, b);
    if a != [] {
      LastsAgree(a, b);
      FrontAscends(a);
      FrontAscends(b);
      AscendingUnique(a[..|a| - 1], b[..|b| - 1]);
      assert a == a[..|a| - 1] + [a[|a| - 1]] && b == b[..|b| - 1] + [b[|b| - 1]];
    }
  }

  /** Equal multisets in order have the same greatest element, and the same others. */
  lemma LastsAgree(a: seq<real>, b: seq<real>)
    requires Ascending(a) && Ascending(b) && a != [] && b != [] && multiset(a) == multiset(b)
    ensures a[|a| - 1] == b[|b| - 1] && multiset(a[..|a| - 1]) == multiset(b[..|b| - 1])
  {
    hide Ascending;
    WithoutLast(a);
    WithoutLast(b);
    LastIsGreatest(a, b);
    LastIsGreatest(b, a);
  }

  lemma FrontAscends(s: seq<real>)
    requires Ascending(s) && s != []
    ensures Ascending(s[..|s| - 1])
  {
  }

  lemma LastIsGreatest(a: seq<real>, b: seq<real>)
    requires Ascending(a) && a != [] && b != [] && b[|b| - 1] in multiset(a)
    ensures b[|b| - 1] <= a[|a| - 1]
  {
    assert b[|b| - 1] in a;
  }

  // ----- Median and range

  datatype Quote = Quote(price: real, low: real, high: real)

  function Midpoint(low: real, high: real): real {
    (low + high) / 2.0
  }

  function Median(s: seq<real>): real
    requires s != []
  {
    var middle := |s| / 2;
    if |s| % 2 == 1 then s[middle] else Midpoint(s[middle - 1], s[middle])
  }

  function QuoteOf(sample: seq<real>): Option<Quote> {
    if sample == [] then None
    else
      var prices := Sorted(sample);
      Some(Quote(Median(prices), prices[0], prices[|prices| - 1]))
  }

  /** The same prices in any order give the same median and range. */
  lemma QuoteOfMultiset(a: seq<real>, b: seq<real>)
    requires multiset(a) == multiset(b)
    ensures QuoteOf(a) == QuoteOf(b)
  {
    hide Sorted, Ascending;
    assert |multiset(a)| == |a| && |multiset(b)| == |b|;
    AscendingUnique(Sorted(a), Sorted(b));
  }

  /** The median and every price lie in the range. */
  lemma QuoteBounds(a: seq<real>)
    requires a != []
    ensures QuoteOf(a).value.low <= QuoteOf(a).value.price <= QuoteOf(a).value.high
    ensures forall x | x in a :: QuoteOf(a).value.low <= x <= QuoteOf(a).value.high
  {
    hide Sorted;
    var s := Sorted(a);
    forall x | x in a ensures s[0] <= x <= s[|s| - 1] {
      assert x in multiset(a);
      assert x in multiset(s);
      var i :| 0 <= i < |s| && s[i] == x;
    }
  }

  // ----- What one more observation changes

  lemma SameSource(m: Matcher, a: Observation, b: Observation)
    requires a.price.Some? && a.source.Some? && b.price.Some? && b.source.Some?
    ensures KeyOf(m, a) == KeyOf(m, b) <==> m.identity(a.name) == m.identity(b.name) && a.price == b.price && a.source == b.source
  {
  }

  /** An observation of another operation, without a name or without a price changes nothing. */
  lemma OthersDoNotCount(m: Matcher, requested: string, observations: seq<Observation>, o: Observation)
    requires o.price.None? || (forall c | c in o.name :: c in {' ', '\t', '\n', '\r'}) || !(o.name == requested || m.matches(requested, o.name))
    ensures Sample(m, requested, observations + [o]) == Sample(m, requested, observations)
  {
    hide UnkeyedPrices, KeyPrices, EligibleKeys, VetoedKeys;
    AddsNothing(m, requested, observations, o);
  }

  lemma AddsNothing(m: Matcher, requested: string, observations: seq<Observation>, o: Observation)
    requires !Counts(m, requested, o) || (!Eligible(o) && !Vetoes(o))
    ensures Sample(m, requested, observations + [o]) == Sample(m, requested, observations)
  {
    hide UnkeyedPrices, KeyPrices, EligibleKeys, VetoedKeys;
    AddsOne(m, requested, observations, o);
    var more := observations + [o];
    assert EligibleKeys(m, requested, more) - VetoedKeys(m, requested, more)
        == EligibleKeys(m, requested, observations) - VetoedKeys(m, requested, observations);
    assert UnkeyedPrices(m, requested, more) == UnkeyedPrices(m, requested, observations);
  }

  lemma AddsOne(m: Matcher, requested: string, observations: seq<Observation>, o: Observation)
    ensures var keyed := Counts(m, requested, o) && o.source.Some?;
            var more := observations + [o];
            && EligibleKeys(m, requested, more) == EligibleKeys(m, requested, observations) + (if keyed && Eligible(o) then {KeyOf(m, o)} else {})
            && VetoedKeys(m, requested, more) == VetoedKeys(m, requested, observations) + (if keyed && Vetoes(o) then {KeyOf(m, o)} else {})
            && UnkeyedPrices(m, requested, more) == UnkeyedPrices(m, requested, observations) + UnkeyedPrice(m, requested, o)
  {
    hide UnkeyedPrices;
    var more := observations + [o];
    KeysGrow(m, requested, more, |observations|);
    assert more[..|observations| + 1] == more && more[..|observations|] == observations;
  }

  /** The observation is a readable price of this operation. */
  predicate Observes(m: Matcher, requested: string, o: Observation) {
    o.price.Some? && (exists c :: c in o.name && c !in {' ', '\t', '\n', '\r'}) && (o.name == requested || m.matches(requested, o.name))
  }

  /** One that nothing identifies adds its price exactly when it is of labor alone, without parts. */
  lemma UnidentifiedCounts(m: Matcher, requested: string, observations: seq<Observation>, o: Observation)
    requires Observes(m, requested, o) && o.source.None?
    ensures Sample(m, requested, observations + [o])
         == Sample(m, requested, observations)
            + if o.laborOnly == Some(true) && o.includesParts == Some(false) then multiset{o.price.value} else multiset{}
  {
    hide UnkeyedPrices, KeyPrices, EligibleKeys, VetoedKeys;
    AddsOne(m, requested, observations, o);
    var more := observations + [o];
    assert EligibleKeys(m, requested, more) - VetoedKeys(m, requested, more)
        == EligibleKeys(m, requested, observations) - VetoedKeys(m, requested, observations);
  }

  /** The source of `o` has not been observed yet. */
  predicate NewSource(m: Matcher, requested: string, observations: seq<Observation>, o: Observation)
    requires o.price.Some? && o.source.Some?
  {
    forall p | p in observations && Observes(m, requested, p) && p.source.Some? :: KeyOf(m, p) != KeyOf(m, o)
  }

  /** A new source adds its price exactly when it is of labor alone, without parts. */
  lemma NewSourceCounts(m: Matcher, requested: string, observations: seq<Observation>, o: Observation)
    requires Observes(m, requested, o) && o.source.Some? && NewSource(m, requested, observations, o)
    ensures Sample(m, requested, observations + [o])
         == Sample(m, requested, observations)
            + if o.laborOnly == Some(true) && o.includesParts == Some(false) then multiset{o.price.value} else multiset{}
  {
    hide UnkeyedPrices, KeyPrices, EligibleKeys, VetoedKeys;
    AddsOne(m, requested, observations, o);
    NewSourceUnknown(m, requested, observations, o);
    var k, more := KeyOf(m, o), observations + [o];
    var eligible, vetoed := EligibleKeys(m, requested, observations), VetoedKeys(m, requested, observations);
    var net := EligibleKeys(m, requested, more) - VetoedKeys(m, requested, more);
    if o.laborOnly == Some(true) && o.includesParts == Some(false) {
      assert net == eligible - vetoed + {k};
      KeyPricesPick(net, k);
      assert net - {k} == eligible - vetoed;
    } else {
      assert net == eligible - vetoed;
    }
  }

  lemma NewSourceUnknown(m: Matcher, requested: string, observations: seq<Observation>, o: Observation)
    requires Observes(m, requested, o) && o.source.Some? && NewSource(m, requested, observations, o)
    ensures KeyOf(m, o) !in EligibleKeys(m, requested, observations) && KeyOf(m, o) !in VetoedKeys(m, requested, observations)
  {
    hide KeyOf;
  }

  /** An observation that says its price includes parts, or is not of labor alone, takes the source out:
      its price is lost if it was counted. */
  lemma VetoTakesOut(m: Matcher, requested: string, observations: seq<Observation>, o: Observation)
    requires Observes(m, requested, o) && o.source.Some? && (o.includesParts == Some(true) || o.laborOnly == Some(false))
    ensures var k, more := KeyOf(m, o), observations + [o];
            && k !in EligibleKeys(m, requested, more) - VetoedKeys(m, requested, more)
            && Sample(m, requested, more) + (if k in EligibleKeys(m, requested, observations) - VetoedKeys(m, requested, observations)
                                             then multiset{o.price.value} else multiset{})
               == Sample(m, requested, observations)
  {
    hide UnkeyedPrices, KeyPrices, EligibleKeys, VetoedKeys;
    AddsOne(m, requested, observations, o);
    var k, more := KeyOf(m, o), observations + [o];
    var net := EligibleKeys(m, requested, observations) - VetoedKeys(m, requested, observations);
    assert EligibleKeys(m, requested, more) - VetoedKeys(m, requested, more) == net - {k};
    assert UnkeyedPrices(m, requested, more) == UnkeyedPrices(m, requested, observations);
    assert k.price == o.price.value;
    if k in net { KeyPricesPick(net, k); } else { assert net - {k} == net; }
  }

  /** One that says neither leaves everything as it was. */
  lemma UndecidedCountsNot(m: Matcher, requested: string, observations: seq<Observation>, o: Observation)
    requires o.includesParts != Some(true) && o.laborOnly != Some(false)
    requires o.laborOnly != Some(true) || o.includesParts != Some(false)
    ensures Sample(m, requested, observations + [o]) == Sample(m, requested, observations)
  {
    hide UnkeyedPrices, KeyPrices, EligibleKeys, VetoedKeys;
    AddsNothing(m, requested, observations, o);
  }

  // ----- What median and range are

  /** In any ascending listing of the prices the quote is half the sum of the two in the middle, which are
      one when their number is odd, between the first and the last. */
  lemma QuoteIsMedian(a: seq<real>, s: seq<real>)
    requires a != [] && Ascending(s) && multiset(s) == multiset(a)
    ensures |s| == |a|
    ensures var q := QuoteOf(a).value;
            q.price + q.price == s[(|s| - 1) / 2] + s[|s| / 2] && q.low == s[0] && q.high == s[|s| - 1]
  {
    hide Sorted;
    SameLength(s, a);
    AscendingUnique(s, Sorted(a));
  }
}
