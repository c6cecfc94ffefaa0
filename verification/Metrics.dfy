/** The metrics registry: the key under which a label set is stored, the bounds of a histogram and its
    cumulative buckets. Strings are byte strings, as in Go. */
module Metrics {
  import opened Wrappers
  import opened Sorting

  type Labels = map<string, string>

  // ----- the key of a label set

  function Decimal(n: nat): string {
    if n < 10 then [Digit(n)] else Decimal(n / 10) + [Digit(n % 10)]
  }

  function Digit(d: nat): char
    requires d < 10
  {
    '0' + d as char
  }

  /** One label: each part preceded by its length. */
  function Field(name: string, value: string): string {
    Decimal(|name|) + ":" + name + "=" + Decimal(|value|) + ":" + value + ";"
  }

  function Encode(pairs: seq<(string, string)>): string {
    if pairs == [] then "" else Encode(pairs[..|pairs| - 1]) + Field(pairs[|pairs| - 1].0, pairs[|pairs| - 1].1)
  }

  /** Byte-wise lexicographic order. */
  predicate Before(a: string, b: string) {
    a == [] || (b != [] && (a[0] < b[0] || (a[0] == b[0] && Before(a[1..], b[1..]))))
  }

  ghost function Enumerated(names: set<string>): seq<string> {
    if names == {} then [] else var x :| x in names; [x] + Enumerated(names - {x})
  }

  ghost function SortedNames(labels: Labels): seq<string> { Sort(Enumerated(labels.Keys), Before) }

  function Pairs(labels: Labels, names: seq<string>): seq<(string, string)>
    requires forall i | 0 <= i < |names| :: names[i] in labels
  {
    if names == [] then []
    else var n := |names| - 1; Pairs(labels, names[..n]) + [(names[n], labels[names[n]])]
  }

  // ----- the encoding is injective

  lemma {:induction false} DecimalDigits(n: nat)
    ensures Decimal(n) != [] && forall i | 0 <= i < |Decimal(n)| :: '0' <= Decimal(n)[i] <= '9'
  {
    if n >= 10 { DecimalDigits(n / 10); }
  }

  lemma {:induction false} DecimalInjective(m: nat, n: nat)
    requires Decimal(m) == Decimal(n)
    ensures m == n
  {
    DecimalDigits(m / 10);
    DecimalDigits(n / 10);
    assert Decimal(m)[|Decimal(m)| - 1] == Digit(m % 10) && Decimal(n)[|Decimal(n)| - 1] == Digit(n % 10);
    if m >= 10 && n >= 10 {
      assert Decimal(m)[..|Decimal(m)| - 1] == Decimal(m / 10) && Decimal(n)[..|Decimal(n)| - 1] == Decimal(n / 10);
      DecimalInjective(m / 10, n / 10);
    }
  }

  /** A length, a colon and that many bytes can be read off the front of a string in one way only. */
  lemma {:induction false} PrefixedInjective(a: string, x: string, b: string, y: string)
    requires Decimal(|a|) + ":" + a + x == Decimal(|b|) + ":" + b + y
    ensures a == b && x == y
  {
    var d, e := Decimal(|a|), Decimal(|b|);
    DecimalDigits(|a|);
    DecimalDigits(|b|);
    var s, t := d + ":" + a + x, e + ":" + b + y;
    assert s[|d|] == ':' && t[|e|] == ':';
    assert d == s[..|d|] && e == t[..|e|];
    DecimalInjective(|a|, |b|);
    assert a == s[|d| + 1..|d| + 1 + |a|] && b == t[|e| + 1..|e| + 1 + |b|];
    assert x == s[|d| + 1 + |a|..] && y == t[|e| + 1 + |b|..];
  }

  /** What follows a name: the value, and whatever comes after it. */
  function Tail(v: string, x: string): string { Decimal(|v|) + ":" + v + (";" + x) }

  lemma {:induction false} FieldShape(n: string, v: string, x: string)
    ensures Field(n, v) + x == Decimal(|n|) + ":" + n + ("=" + Tail(v, x))
  {
    var d, e := Decimal(|n|), Decimal(|v|);
    assert d + ":" + n + "=" + e + ":" + v + ";" + x == d + ":" + n + ("=" + (e + ":" + v + (";" + x)));
  }

  lemma {:induction false} FieldInjective(n: string, v: string, x: string, m: string, w: string, y: string)
    requires Field(n, v) + x == Field(m, w) + y
    ensures n == m && v == w && x == y
  {
    FieldShape(n, v, x);
    FieldShape(m, w, y);
    PrefixedInjective(n, "=" + Tail(v, x), m, "=" + Tail(w, y));
    assert Tail(v, x) == ("=" + Tail(v, x))[1..] && Tail(w, y) == ("=" + Tail(w, y))[1..];
    PrefixedInjective(v, ";" + x, w, ";" + y);
    assert x == (";" + x)[1..] && y == (";" + y)[1..];
  }

  lemma {:induction false} Assoc(x: string, y: string, z: string)
    ensures x + y + z == x + (y + z)
  {
  }

  lemma {:induction false} EncodeLast(pairs: seq<(string, string)>, last: (string, string))
    ensures Encode(pairs + [last]) == Encode(pairs) + Field(last.0, last.1)
  {
    assert (pairs + [last])[..|pairs|] == pairs;
  }

  lemma {:induction false} EncodeFront(first: (string, string), rest: seq<(string, string)>)
    ensures Encode([first] + rest) == Field(first.0, first.1) + Encode(rest)
    decreases |rest|
  {
    if rest == [] {
      EncodeLast([], first);
      assert [first] + rest == [] + [first];
    } else {
      var n := |rest| - 1;
      assert [first] + rest == [first] + rest[..n] + [rest[n]] && rest == rest[..n] + [rest[n]];
      EncodeLast([first] + rest[..n], rest[n]);
      EncodeLast(rest[..n], rest[n]);
      EncodeFront(first, rest[..n]);
      Assoc(Field(first.0, first.1), Encode(rest[..n]), Field(rest[n].0, rest[n].1));
    }
  }

  lemma {:induction false} EncodeInjective(a: seq<(string, string)>, b: seq<(string, string)>)
    requires Encode(a) == Encode(b)
    ensures a == b
    decreases |a|
  {
    if a != [] && b != [] {
      assert a == [a[0]] + a[1..] && b == [b[0]] + b[1..];
      EncodeFront(a[0], a[1..]);
      EncodeFront(b[0], b[1..]);
      FieldInjective(a[0].0, a[0].1, Encode(a[1..]), b[0].0, b[0].1, Encode(b[1..]));
      EncodeInjective(a[1..], b[1..]);
    }
  }

  // ----- the order of names

  lemma {:induction false} BeforeTotal(a: string, b: string)
    ensures Before(a, b) || Before(b, a)
  {
    if a != [] && b != [] && a[0] == b[0] { BeforeTotal(a[1..], b[1..]); }
  }

  lemma {:induction false} BeforeTransitive(a: string, b: string, c: string)
    requires Before(a, b) && Before(b, c)
    ensures Before(a, c)
  {
    if a != [] && a[0] == b[0] && b[0] == c[0] { BeforeTransitive(a[1..], b[1..], c[1..]); }
  }

  lemma {:induction false} BeforeAntisymmetric(a: string, b: string)
    requires Before(a, b) && Before(b, a)
    ensures a == b
  {
    if a != [] {
      BeforeAntisymmetric(a[1..], b[1..]);
      assert a == [a[0]] + a[1..] && b == [b[0]] + b[1..];
    }
  }

  lemma {:induction false} BeforeSorts()
    ensures TotalPreorder(Before) && Antisymmetric(Before)
  {
    forall a, b ensures Before(a, b) || Before(b, a) { BeforeTotal(a, b); }
    forall a, b, c ensures Before(a, b) && Before(b, c) ==> Before(a, c) {
      if Before(a, b) && Before(b, c) { BeforeTransitive(a, b, c); }
    }
    forall a, b ensures Before(a, b) && Before(b, a) ==> a == b {
      if Before(a, b) && Before(b, a) { BeforeAntisymmetric(a, b); }
    }
  }

  lemma {:induction false} EnumeratedOnce(names: set<string>)
    ensures multiset(Enumerated(names)) == multiset(names)
  {
    if names != {} {
      var s := Enumerated(names);
      EnumeratedOnce(names - {s[0]});
      assert s == [s[0]] + Enumerated(names - {s[0]});
      assert multiset(names) == multiset(names - {s[0]}) + multiset{s[0]};
    }
  }

  /** The names in order, each once. */
  lemma {:induction false} SortedNamesSpec(labels: Labels)
    ensures SortedBy(SortedNames(labels), Before) && multiset(SortedNames(labels)) == multiset(labels.Keys)
    ensures forall i | 0 <= i < |SortedNames(labels)| :: SortedNames(labels)[i] in labels
  {
    BeforeSorts();
    SortSpec(Enumerated(labels.Keys), Before);
    EnumeratedOnce(labels.Keys);
    var names := SortedNames(labels);
    forall i | 0 <= i < |names| ensures names[i] in labels { assert names[i] in multiset(names); }
  }

  /** The key of a label set. */
  ghost function Key(labels: Labels): string {
    SortedNamesSpec(labels);
    Encode(Pairs(labels, SortedNames(labels)))
  }

  lemma {:induction false} PairsAre(labels: Labels, names: seq<string>)
    requires forall i | 0 <= i < |names| :: names[i] in labels
    ensures |Pairs(labels, names)| == |names|
    ensures forall i | 0 <= i < |names| :: Pairs(labels, names)[i] == (names[i], labels[names[i]])
  {
    if names != [] { PairsAre(labels, names[..|names| - 1]); }
  }

  /** Two label sets get the same key exactly when they are the same, whatever bytes their values
      hold. */
  lemma {:induction false} KeyIdentifiesLabels(a: Labels, b: Labels)
    ensures Key(a) == Key(b) <==> a == b
  {
    if Key(a) == Key(b) {
      var m, n := SortedNames(a), SortedNames(b);
      SortedNamesSpec(a);
      SortedNamesSpec(b);
      EncodeInjective(Pairs(a, m), Pairs(b, n));
      PairsAre(a, m);
      PairsAre(b, n);
      forall i | 0 <= i < |m| ensures (m[i], a[m[i]]) == (n[i], b[n[i]]) {
        assert Pairs(a, m)[i] == Pairs(b, n)[i];
      }
      SamePairs(a, b, m, n);
    }
  }

  lemma {:induction false} SamePairs(a: Labels, b: Labels, m: seq<string>, n: seq<string>)
    requires forall i | 0 <= i < |m| :: m[i] in a
    requires forall i | 0 <= i < |n| :: n[i] in b
    requires multiset(m) == multiset(a.Keys) && multiset(n) == multiset(b.Keys)
    requires |m| == |n| && forall i | 0 <= i < |m| :: (m[i], a[m[i]]) == (n[i], b[n[i]])
    ensures a == b
  {
    assert m == n;
    assert multiset(a.Keys) == multiset(b.Keys);
    assert forall x :: x in a.Keys <==> x in multiset(a.Keys);
    assert forall x :: x in b.Keys <==> x in multiset(b.Keys);
    forall x | x in a ensures a[x] == b[x] {
      assert x in multiset(m);
      var i :| 0 <= i < |m| && m[i] == x;
    }
  }

  method NamesOf(labels: Labels) returns (names: seq<string>)
    ensures names == SortedNames(labels)
  {
    names := [];
    var todo := labels.Keys;
    while todo != {}
      invariant todo <= labels.Keys && multiset(names) + multiset(todo) == multiset(labels.Keys)
      decreases |todo|
    {
      var name := NextKey(todo);
      assert multiset(todo) == multiset(todo - {name}) + multiset{name};
      todo := todo - {name};
      names := names + [name];
    }
    SortedNamesSpec(labels);
    BeforeSorts();
    SortSpec(names, Before);
    SortedUnique(Sort(names, Before), SortedNames(labels), Before);
    names := Sort(names, Before);
  }

  /** The key as it is built: names taken from the map in any order and sorted, then written out one
      by one. */
  method NormalizeLabels(labels: Labels) returns (pairs: seq<(string, string)>, key: string)
    ensures key == Key(labels) && key == Encode(pairs)
  {
    var names := NamesOf(labels);
    SortedNamesSpec(labels);
    pairs, key := [], "";
    for i := 0 to |names|
      invariant pairs == Pairs(labels, names[..i]) && key == Encode(pairs)
    {
      var value := labels[names[i]];
      assert names[..i + 1][..i] == names[..i];
      EncodeLast(pairs, (names[i], value));
      pairs := pairs + [(names[i], value)];
      key := key + Field(names[i], value);
    }
    assert names[..|names|] == names;
  }

  // ----- bounds

  predicate AtMost(a: real, b: real) { a <= b }

  ghost predicate Increasing(s: seq<real>) { forall i, j | 0 <= i < j < |s| :: s[i] < s[j] }

  /** Drop repetitions in place: the kept values are written over the front of the same array. */
  method Deduplicate(a: array<real>) returns (n: nat)
    requires forall i, j | 0 <= i < j < a.Length :: a[i] <= a[j]
    modifies a
    ensures n <= a.Length && Increasing(a[..n]) && (a.Length > 0 ==> n > 0)
    ensures forall x :: x in a[..n] <==> x in old(a[..])
  {
    n := 0;
    for i := 0 to a.Length
      invariant 0 <= n <= i && (i > 0 ==> n > 0)
      invariant a[i..] == old(a[i..])
      invariant forall j, k | 0 <= j < k < n :: a[j] < a[k]
      invariant n > 0 && i < a.Length ==> a[n - 1] <= old(a[i])
      invariant forall x :: x in a[..n] <==> x in old(a[..i])
    {
      var value := a[i];
      assert value == old(a[i]) && i + 1 < a.Length ==> value <= old(a[i + 1]);
      assert old(a[..i + 1]) == old(a[..i]) + [value];
      assert a[i + 1..] == old(a[i + 1..]);
      if n == 0 || a[n - 1] != value {
        ghost var kept := a[..n];
        a[n] := value;
        n := n + 1;
        assert a[..n] == kept + [value];
      } else {
        assert value in a[..n];
      }
    }
    assert old(a[..a.Length]) == old(a[..]);
  }

  /** The bounds of a histogram: sorted, each value once. Without any the caller is at fault. */
  method NormalizeBounds(bounds: seq<real>) returns (r: Option<seq<real>>)
    ensures r == None <==> bounds == []
    ensures r.Some? ==> Increasing(r.value) && forall x :: x in r.value <==> x in bounds
  {
    if bounds == [] { return None; }
    var sorted := Sort(bounds, AtMost);
    SortSpec(bounds, AtMost);
    var a := new real[|sorted|](i requires 0 <= i < |sorted| => sorted[i]);
    assert a[..] == sorted;
    forall i, j | 0 <= i < j < a.Length ensures a[i] <= a[j] { assert AtMost(sorted[i], sorted[j]); }
    forall x ensures x in sorted <==> x in bounds {
      assert x in sorted <==> x in multiset(sorted);
      assert x in bounds <==> x in multiset(bounds);
    }
    var n := Deduplicate(a);
    r := Some(a[..n]);
  }

  lemma {:induction false} IncreasingUnique(a: seq<real>, b: seq<real>)
    requires Increasing(a) && Increasing(b) && forall x :: x in a <==> x in b
    ensures a == b
    decreases |a|
  {
    assert a == [] <==> b == [] by {
      if a != [] { assert a[0] in a; }
      if b != [] { assert b[0] in b; }
    }
    if a != [] {
      assert a[0] in a && b[0] in b;
      assert a[0] in b && b[0] in a;
      forall x ensures x in a[1..] <==> x in b[1..] {
        assert x in a[1..] <==> x in a && x != a[0];
        assert x in b[1..] <==> x in b && x != b[0];
      }
      IncreasingUnique(a[1..], b[1..]);
      assert a == [a[0]] + a[1..] && b == [b[0]] + b[1..];
    }
  }

  // ----- histograms

  datatype Sample = Sample(pairs: seq<(string, string)>, n: nat, sum: real, buckets: seq<nat>)
  datatype Observation = Observation(labels: Labels, value: real)

  /** How many of the observations under `labels` are at most `bound`; all of them for None. */
  function Count(seen: seq<Observation>, labels: Labels, bound: Option<real>): nat {
    if seen == [] then 0
    else
      var o := seen[|seen| - 1];
      Count(seen[..|seen| - 1], labels, bound)
      + if o.labels == labels && (bound == None || o.value <= bound.value) then 1 else 0
  }

  function Total(seen: seq<Observation>, labels: Labels): real {
    if seen == [] then 0.0
    else
      var o := seen[|seen| - 1];
      Total(seen[..|seen| - 1], labels) + if o.labels == labels then o.value else 0.0
  }

  /** What the samples say of a label set is what was seen of it. */
  ghost predicate Faithful(bounds: seq<real>, samples: map<string, Sample>, seen: seq<Observation>, labels: Labels) {
    var k := Key(labels);
    if k !in samples then Count(seen, labels, None) == 0
    else
      && samples[k].n == Count(seen, labels, None) && samples[k].sum == Total(seen, labels)
      && |samples[k].buckets| == |bounds|
      && forall i | 0 <= i < |bounds| :: samples[k].buckets[i] == Count(seen, labels, Some(bounds[i]))
  }

  lemma {:induction false} NoneSeen(seen: seq<Observation>, labels: Labels, bound: Option<real>)
    requires Count(seen, labels, None) == 0
    ensures Count(seen, labels, bound) == 0 && Total(seen, labels) == 0.0
  {
    if seen != [] { NoneSeen(seen[..|seen| - 1], labels, bound); }
  }

  /** A histogram family. */
  class Family {
    const bounds: seq<real>
    var samples: map<string, Sample>
    ghost var seen: seq<Observation>

    ghost predicate Valid() reads this {
      Increasing(bounds) && forall labels :: Faithful(bounds, samples, seen, labels)
    }

    constructor (bounds: seq<real>)
      requires Increasing(bounds)
      ensures Valid() && this.bounds == bounds && seen == []
    {
      this.bounds := bounds;
      samples, seen := map[], [];
    }

    /** The sample of a label set, made on first use. */
    method SampleFor(labels: Labels) returns (key: string)
      requires Valid()
      modifies this`samples
      ensures Valid() && key == Key(labels) && key in samples
    {
      var pairs;
      pairs, key := NormalizeLabels(labels);
      if key !in samples {
        samples := samples[key := Sample(pairs, 0, 0.0, seq(|bounds|, i => 0))];
        forall l ensures Faithful(bounds, samples, seen, l) {
          KeyIdentifiesLabels(l, labels);
          assert Faithful(bounds, old(samples), seen, l);
          if l == labels {
            NoneSeen(seen, labels, None);
            forall i | 0 <= i < |bounds|
              ensures Count(seen, labels, Some(bounds[i])) == 0
            {
              NoneSeen(seen, labels, Some(bounds[i]));
            }
          }
        }
      }
    }

    /** After any sequence of observations each bucket holds the number of that label set's
        observations at or below its bound. */
    method Observe(labels: Labels, value: real)
      requires Valid()
      modifies this
      ensures Valid() && seen == old(seen) + [Observation(labels, value)]
    {
      var key := SampleFor(labels);
      var entry := samples[key];
      assert Faithful(bounds, samples, seen, labels);
      ghost var before := samples;
      var buckets := entry.buckets;
      for i := 0 to |bounds|
        invariant |buckets| == |bounds|
        invariant forall j | 0 <= j < |bounds| ::
          buckets[j] == entry.buckets[j] + if j < i && value <= bounds[j] then 1 else 0
        invariant samples == before && seen == old(seen) && Valid()
      {
        if value <= bounds[i] {
          buckets := buckets[i := buckets[i] + 1];
        }
      }
      samples := samples[key := Sample(entry.pairs, entry.n + 1, entry.sum + value, buckets)];
      seen := seen + [Observation(labels, value)];
      forall l ensures Faithful(bounds, samples, seen, l) {
        OneMoreSeen(bounds, before, old(seen), labels, value, samples[key], l);
      }
    }
  }

  lemma {:induction false} CountSnoc(seen: seq<Observation>, o: Observation, labels: Labels, bound: Option<real>)
    ensures Count(seen + [o], labels, bound) ==
      Count(seen, labels, bound) + if o.labels == labels && (bound == None || o.value <= bound.value) then 1 else 0
    ensures Total(seen + [o], labels) == Total(seen, labels) + if o.labels == labels then o.value else 0.0
  {
    assert (seen + [o])[..|seen|] == seen;
  }

  /** One more observation counts for its own label set and for no other. */
  lemma {:induction false} OneMoreSeen(bounds: seq<real>, samples: map<string, Sample>, seen: seq<Observation>,
                                       labels: Labels, value: real, entry: Sample, l: Labels)
    requires Faithful(bounds, samples, seen, labels) && Faithful(bounds, samples, seen, l) && Key(labels) in samples
    requires var was := samples[Key(labels)];
      && entry.n == was.n + 1 && entry.sum == was.sum + value && |entry.buckets| == |bounds|
      && forall i | 0 <= i < |bounds| :: entry.buckets[i] == was.buckets[i] + if value <= bounds[i] then 1 else 0
    ensures Faithful(bounds, samples[Key(labels) := entry], seen + [Observation(labels, value)], l)
  {
    var o := Observation(labels, value);
    KeyIdentifiesLabels(l, labels);
    CountSnoc(seen, o, l, None);
    forall i | 0 <= i < |bounds|
      ensures Count(seen + [o], l, Some(bounds[i])) ==
        Count(seen, l, Some(bounds[i])) + if l == labels && value <= bounds[i] then 1 else 0
    {
      CountSnoc(seen, o, l, Some(bounds[i]));
    }
  }

  /** The buckets are cumulative: none exceeds the next, nor the number of observations. */
  lemma {:induction false} BucketsAreCumulative(seen: seq<Observation>, labels: Labels, low: real, high: real)
    requires low <= high
    ensures Count(seen, labels, Some(low)) <= Count(seen, labels, Some(high)) <= Count(seen, labels, None)
  {
    if seen != [] { BucketsAreCumulative(seen[..|seen| - 1], labels, low, high); }
  }
}
