/** Sequence and map operations the components use through `Array.prototype.filter`, `find` and object spread. */
module Collections {
  import opened Wrappers

  /** `a` is `b` with some elements left out, the rest in their original order. */
  ghost predicate IsSubsequence<T>(a: seq<T>, b: seq<T>)
    decreases |b|
  {
    if a == [] then true
    else if b == [] then false
    else (a[0] == b[0] && IsSubsequence(a[1..], b[1..])) || IsSubsequence(a, b[1..])
  }

  /** `s.filter(p)`: keeps exactly the elements that satisfy `p`. */
  function Filter<T>(s: seq<T>, p: T -> bool): (r: seq<T>)
    ensures |r| <= |s|
    ensures forall i :: 0 <= i < |r| ==> r[i] in s && p(r[i])
    ensures forall i :: 0 <= i < |s| && p(s[i]) ==> s[i] in r
    ensures forall i :: 0 <= i < |s| ==> multiset(r)[s[i]] == if p(s[i]) then multiset(s)[s[i]] else 0
  {
    if s == [] then []
    else
      assert s == [s[0]] + s[1..];
      if p(s[0]) then [s[0]] + Filter(s[1..], p)
      else Filter(s[1..], p)
  }

  /** The filter keeps the order of the list it filters. */
  lemma {:induction false} FilterIsSubsequence<T>(s: seq<T>, p: T -> bool)
    ensures IsSubsequence(Filter(s, p), s)
  {
    if s != [] {
      FilterIsSubsequence(s[1..], p);
      var r := Filter(s, p);
      if p(s[0]) {
        assert r[0] == s[0] && r[1..] == Filter(s[1..], p);
      } else {
        SubsequenceSkip(r, s);
      }
    }
  }

  lemma SubsequenceSkip<T>(a: seq<T>, b: seq<T>)
    requires b != [] && IsSubsequence(a, b[1..])
    ensures IsSubsequence(a, b)
  {
  }

  /** A filter that every element passes returns the list itself. */
  lemma {:induction false} FilterKeepsAll<T>(s: seq<T>, p: T -> bool)
    requires forall i :: 0 <= i < |s| ==> p(s[i])
    ensures Filter(s, p) == s
  {
    if s != [] {
      FilterKeepsAll(s[1..], p);
    }
  }

  /** `s.filter((_, j) => j !== i)`: drops position `i`, and nothing when `i` is out of range. */
  function WithoutIndex<T>(s: seq<T>, i: int): (r: seq<T>)
    ensures 0 <= i < |s| ==> r == s[..i] + s[i + 1..]
    ensures !(0 <= i < |s|) ==> r == s
  {
    if s == [] then []
    else (if i == 0 then [] else [s[0]]) + WithoutIndex(s[1..], i - 1)
  }

  /** The position `s.find(p)` / `s.findIndex(p)` stops at: the first element satisfying `p`. */
  function FirstIndex<T>(s: seq<T>, p: T -> bool): (r: Option<nat>)
    ensures r.Some? ==> r.value < |s| && p(s[r.value])
    ensures r.Some? ==> forall j :: 0 <= j < r.value ==> !p(s[j])
    ensures r.None? <==> forall j :: 0 <= j < |s| ==> !p(s[j])
  {
    if s == [] then None
    else if p(s[0]) then Some(0)
    else match FirstIndex(s[1..], p)
      case None => None
      case Some(i) => Some(i + 1)
  }

  /** An entry of an expand/collapse map is on when present and true (`!undefined` is `true`). */
  predicate IsOn(m: map<string, bool>, k: string) {
    k in m && m[k]
  }

  /** `{...m, [k]: !m[k]}`: flips entry `k` and keeps every other entry. */
  function Toggle(m: map<string, bool>, k: string): (t: map<string, bool>)
    ensures t.Keys == m.Keys + {k}
    ensures IsOn(t, k) == !IsOn(m, k)
    ensures forall j :: j in m && j != k ==> t[j] == m[j]
  {
    m[k := !IsOn(m, k)]
  }

  /** Toggling the same entry twice leaves every entry on or off as before. */
  lemma ToggleTwice(m: map<string, bool>, k: string)
    ensures forall j :: IsOn(Toggle(Toggle(m, k), k), j) == IsOn(m, j)
  {
  }
}
