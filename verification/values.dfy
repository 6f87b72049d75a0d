/** The loose, string-keyed dictionaries the pipeline passes around, and the few Python
    built-ins (`dict.get`, `str()`, truthiness) applied to their values. */
module Values {
  import opened Text

  datatype Option<+T> = None | Some(value: T)

  /** A dictionary value: Python `None`, a `str`, or an `int`. */
  datatype Value = Null | Str(s: string) | Int(i: int)

  /** A record: an absent key and a key bound to `None` are different things. */
  type Dict = map<string, Value>

  /** `d.get(k, default)` */
  function Get(d: Dict, k: string, default: Value): Value {
    if k in d then d[k] else default
  }

  /** `str(v)` */
  function Show(v: Value): string {
    match v
    case Null => "None"
    case Str(s) => s
    case Int(i) => IntToDecimal(i)
  }

  /** Python truthiness: `None`, `''` and `0` are false. */
  predicate Truthy(v: Value) {
    match v
    case Null => false
    case Str(s) => s != ""
    case Int(i) => i != 0
  }

  /** The field is absent, `None`, or a string: the fields on which the source calls string methods. */
  predicate TextOrNone(d: Dict, k: string) {
    k !in d || d[k].Null? || d[k].Str?
  }

  /** `x.lower() if x else ''` and friends: the string of a field, `''` when absent or `None`. */
  function TextOf(d: Dict, k: string): string {
    if k in d && d[k].Str? then d[k].s else ""
  }

  function OptionToValue(o: Option<string>): Value {
    match o
    case None => Null
    case Some(s) => Str(s)
  }

  /** Digits with single underscores between them, as Python's `int()` accepts. */
  predicate UnderscoredDigits(d: string) {
    && |d| > 0 && IsDigit(d[0]) && IsDigit(d[|d| - 1])
    && (forall i :: 0 <= i < |d| ==> IsDigit(d[i]) || d[i] == '_')
    && (forall i :: 0 < i < |d| && d[i] == '_' ==> d[i - 1] != '_')
  }

  function RemoveUnderscores(d: string): (r: string)
    ensures (forall i :: 0 <= i < |d| ==> IsDigit(d[i]) || d[i] == '_') ==> AllDigits(r)
    ensures AllDigits(d) ==> r == d
  {
    if d == [] then [] else (if d[0] == '_' then [] else [d[0]]) + RemoveUnderscores(d[1..])
  }

  /** `int(s)` for a string: surrounding whitespace, an optional sign, then digits; `None` where Python raises `ValueError`. */
  function ParseInt(s: string): (r: Option<int>)
    ensures Strip(s) == [] ==> r.None?
  {
    var t := Strip(s);
    if |t| > 0 && (t[0] == '+' || t[0] == '-') then
      var d := t[1..];
      if UnderscoredDigits(d) then
        var n: int := DigitsToNat(RemoveUnderscores(d));
        Some(if t[0] == '-' then -n else n)
      else None
    else if UnderscoredDigits(t) then Some(DigitsToNat(RemoveUnderscores(t)))
    else None
  }

  /** `int(str(i)) == i`. */
  lemma ParseIntDecimal(i: int)
    ensures ParseInt(IntToDecimal(i)) == Some(i)
  {
    var r := IntToDecimal(i);
    StripNoEdgeSpace(r);
    if i < 0 {
      var d := NatToDecimal(-i);
      assert r[1..] == d;
      PlainDigitsParse(d);
      DecimalRoundTrip(-i);
    } else {
      PlainDigitsParse(r);
      DecimalRoundTrip(i);
    }
  }

  /** A non-empty run of plain digits is accepted by `int()` as it stands. */
  lemma PlainDigitsParse(d: string)
    requires d != [] && AllDigits(d)
    ensures UnderscoredDigits(d) && RemoveUnderscores(d) == d
  {
  }
}

/** Generic facts about filtering, counting and subsequences of Python lists. */
module Seqs {

  /** A list comprehension `[x for x in s if p(x)]`. */
  function Filter<T>(s: seq<T>, p: T -> bool): (r: seq<T>)
    ensures |r| <= |s|
  {
    if s == [] then [] else (if p(s[0]) then [s[0]] else []) + Filter(s[1..], p)
  }

  /** What the filter keeps is in the input and passes the test. */
  lemma {:induction false} FilterSound<T>(s: seq<T>, p: T -> bool, x: T)
    requires x in Filter(s, p)
    ensures x in s && p(x)
  {
    if !(p(s[0]) && x == s[0]) {
      FilterSound(s[1..], p, x);
    }
  }

  lemma {:induction false} FilterComplete<T>(s: seq<T>, p: T -> bool, x: T)
    requires x in s && p(x)
    ensures x in Filter(s, p)
  {
    if s[0] != x {
      FilterComplete(s[1..], p, x);
    }
  }

  lemma {:induction false} FilterAppend<T>(a: seq<T>, b: seq<T>, p: T -> bool)
    ensures Filter(a + b, p) == Filter(a, p) + Filter(b, p)
  {
    if a != [] {
      assert (a + b)[1..] == a[1..] + b;
      FilterAppend(a[1..], b, p);
    } else {
      assert a + b == b;
    }
  }

  /** Extending the input by one element extends the filter by that element exactly when it passes. */
  lemma FilterSnoc<T>(s: seq<T>, x: T, p: T -> bool)
    ensures Filter(s + [x], p) == Filter(s, p) + (if p(x) then [x] else [])
  {
    FilterAppend(s, [x], p);
  }

  /** The number of elements that satisfy `p`. */
  function Count<T>(s: seq<T>, p: T -> bool): nat {
    |Filter(s, p)|
  }

  lemma {:induction false} CountPartition<T>(s: seq<T>, p: T -> bool)
    ensures Count(s, p) + Count(s, x => !p(x)) == |s|
  {
    if s != [] {
      CountPartition(s[1..], p);
    }
  }

  /** Three filters whose conditions hold for exactly one of each element split the sequence. */
  lemma {:induction false} FilterPartition3<T>(s: seq<T>, p: T -> bool, q: T -> bool, r: T -> bool)
    requires forall x :: x in s ==> (p(x) && !q(x) && !r(x)) || (!p(x) && q(x) && !r(x)) || (!p(x) && !q(x) && r(x))
    ensures multiset(Filter(s, p)) + multiset(Filter(s, q)) + multiset(Filter(s, r)) == multiset(s)
    ensures |Filter(s, p)| + |Filter(s, q)| + |Filter(s, r)| == |s|
  {
    if s != [] {
      var x, t := s[0], s[1..];
      assert forall y :: y in t ==> y in s;
      FilterPartition3(t, p, q, r);
      assert s == [x] + t;
      assert multiset(s) == multiset{x} + multiset(t);
      if p(x) {
        assert Filter(s, p) == [x] + Filter(t, p) && Filter(s, q) == Filter(t, q) && Filter(s, r) == Filter(t, r);
      } else if q(x) {
        assert Filter(s, p) == Filter(t, p) && Filter(s, q) == [x] + Filter(t, q) && Filter(s, r) == Filter(t, r);
      } else {
        assert Filter(s, p) == Filter(t, p) && Filter(s, q) == Filter(t, q) && Filter(s, r) == [x] + Filter(t, r);
      }
    }
  }

  /** `sub` is `s` restricted to the strictly increasing positions `idx`. */
  ghost predicate SubsequenceAt<T>(sub: seq<T>, s: seq<T>, idx: seq<nat>) {
    && |idx| == |sub|
    && (forall k :: 0 <= k < |idx| ==> idx[k] < |s| && sub[k] == s[idx[k]])
    && (forall k, l :: 0 <= k < l < |idx| ==> idx[k] < idx[l])
  }

  /** Every position moved one place right. */
  ghost function Shift(idx: seq<nat>): (r: seq<nat>)
    ensures |r| == |idx|
  {
    seq(|idx|, k requires 0 <= k < |idx| => idx[k] + 1)
  }

  ghost function FilterIndices<T>(s: seq<T>, p: T -> bool): seq<nat>
  {
    if s == [] then []
    else (if p(s[0]) then [0] else []) + Shift(FilterIndices(s[1..], p))
  }

  /** A subsequence stays one when the sequence grows by an element at the front, kept or not. */
  lemma SubsequenceCons<T>(sub: seq<T>, s: seq<T>, idx: seq<nat>, x: T)
    requires SubsequenceAt(sub, s, idx)
    ensures SubsequenceAt(sub, [x] + s, Shift(idx))
    ensures SubsequenceAt([x] + sub, [x] + s, [0] + Shift(idx))
  {
    var t, sh := [x] + s, Shift(idx);
    assert forall k :: 0 <= k < |idx| ==> sh[k] == idx[k] + 1 && t[sh[k]] == s[idx[k]];
  }

  /** A filter keeps the relative order of the elements it keeps. */
  lemma {:induction false} FilterIsSubsequence<T>(s: seq<T>, p: T -> bool)
    ensures SubsequenceAt(Filter(s, p), s, FilterIndices(s, p))
  {
    if s != [] {
      FilterIsSubsequence(s[1..], p);
      SubsequenceCons(Filter(s[1..], p), s[1..], FilterIndices(s[1..], p), s[0]);
      assert [s[0]] + s[1..] == s;
      if !p(s[0]) {
        assert FilterIndices(s, p) == Shift(FilterIndices(s[1..], p));
      }
    }
  }

  /** A subsequence stays one when the sequence grows by an element, kept or not. */
  lemma SubsequenceSnoc<T>(sub: seq<T>, s: seq<T>, idx: seq<nat>, x: T)
    requires SubsequenceAt(sub, s, idx)
    ensures SubsequenceAt(sub, s + [x], idx)
    ensures SubsequenceAt(sub + [x], s + [x], idx + [|s|])
  {
    var t := s + [x];
    assert forall k :: 0 <= k < |idx| ==> t[idx[k]] == s[idx[k]];
  }

  /** A list comprehension `[f(x) for x in s]`, built front to back. */
  function Map<T, U>(s: seq<T>, f: T --> U): (r: seq<U>)
    requires forall i :: 0 <= i < |s| ==> f.requires(s[i])
    ensures |r| == |s|
  {
    if s == [] then [] else Map(s[..|s| - 1], f) + [f(s[|s| - 1])]
  }

  /** Each element of the comprehension is `f` of the element at the same position. */
  lemma {:induction false} MapAt<T, U>(s: seq<T>, f: T --> U, i: nat)
    requires forall j :: 0 <= j < |s| ==> f.requires(s[j])
    requires i < |s|
    ensures Map(s, f)[i] == f(s[i])
    decreases |s|
  {
    var n := |s| - 1;
    if i < n {
      assert s[..n][i] == s[i];
      MapAt(s[..n], f, i);
    }
  }

  /** Mapping one more element appends its image. */
  lemma MapSnoc<T, U>(s: seq<T>, f: T --> U, i: nat)
    requires forall j :: 0 <= j < |s| ==> f.requires(s[j])
    requires i < |s|
    ensures Map(s[..i + 1], f) == Map(s[..i], f) + [f(s[i])]
  {
    assert s[..i + 1][..i] == s[..i];
  }

  /** `[f(x, y) for x, y in zip(s, u)]` over two lists of the same length, built front to back. */
  function Map2<T, U, V>(s: seq<T>, u: seq<U>, f: (T, U) --> V): (r: seq<V>)
    requires |s| == |u|
    requires forall i :: 0 <= i < |s| ==> f.requires(s[i], u[i])
    ensures |r| == |s|
  {
    if s == [] then [] else Map2(s[..|s| - 1], u[..|u| - 1], f) + [f(s[|s| - 1], u[|u| - 1])]
  }

  /** Each element is `f` of the pair at the same position. */
  lemma {:induction false} Map2At<T, U, V>(s: seq<T>, u: seq<U>, f: (T, U) --> V, i: nat)
    requires |s| == |u|
    requires forall j :: 0 <= j < |s| ==> f.requires(s[j], u[j])
    requires i < |s|
    ensures Map2(s, u, f)[i] == f(s[i], u[i])
    decreases |s|
  {
    var n := |s| - 1;
    if i < n {
      assert s[..n][i] == s[i] && u[..n][i] == u[i];
      Map2At(s[..n], u[..n], f, i);
    }
  }

  /** Mapping one more pair appends its image. */
  lemma Map2Snoc<T, U, V>(s: seq<T>, u: seq<U>, f: (T, U) --> V, i: nat)
    requires |s| == |u|
    requires forall j :: 0 <= j < |s| ==> f.requires(s[j], u[j])
    requires i < |s|
    ensures Map2(s[..i + 1], u[..i + 1], f) == Map2(s[..i], u[..i], f) + [f(s[i], u[i])]
  {
    assert s[..i + 1][..i] == s[..i] && u[..i + 1][..i] == u[..i];
  }

  /** A pairwise map that ignores its second list where it agrees with a plain map is that map. */
  lemma {:induction false} Map2AsMap<T, U, V>(s: seq<T>, u: seq<U>, f: (T, U) --> V, g: T --> V)
    requires |s| == |u|
    requires forall i :: 0 <= i < |s| ==> f.requires(s[i], u[i]) && g.requires(s[i])
    requires forall i :: 0 <= i < |s| ==> f(s[i], u[i]) == g(s[i])
    ensures Map2(s, u, f) == Map(s, g)
    decreases |s|
  {
    if s != [] {
      var n := |s| - 1;
      assert forall i :: 0 <= i < n ==> s[..n][i] == s[i] && u[..n][i] == u[i];
      Map2AsMap(s[..n], u[..n], f, g);
    }
  }

  /** Python's `sum(chunks, [])`. */
  function Flatten<T>(ss: seq<seq<T>>): seq<T> {
    if ss == [] then [] else ss[0] + Flatten(ss[1..])
  }

  lemma {:induction false} FlattenSnoc<T>(ss: seq<seq<T>>, x: seq<T>)
    ensures Flatten(ss + [x]) == Flatten(ss) + x
  {
    if ss != [] {
      assert (ss + [x])[1..] == ss[1..] + [x];
      FlattenSnoc(ss[1..], x);
    }
  }
}
