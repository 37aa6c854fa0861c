/**
 * The in-memory configuration the engine reads: the YAML file's top-level
 * keys after loading (the loader itself is not modelled). A Python dict is an
 * ordered `Table`: a sequence of (key, value) entries in insertion order.
 */
module Config {
  import opened Wrappers

  /** An ordered mapping, as a Python dict iterates it. */
  type Table<V> = seq<(string, V)>

  /** The sentinel page that ends a session; it has no outgoing transitions. */
  const SessionEnd: string := "session_end"

  /** The event type of a plain page view. */
  const PageView: string := "pageview"

  /** The weighted table the landing page of a new session is drawn from. */
  const LandingPages: string := "landing_pages"

  // ----- property specifications (the `properties` of an event) -----

  /** A YAML scalar. */
  datatype Literal = LInt(i: int) | LReal(x: real) | LStr(s: string)

  /** The `values` entry of a property spec: absent, null, a scalar or a list. */
  datatype Values = Missing | Null | Scalar(lit: Literal) | Items(items: seq<Literal>)

  /** One property spec; `kind` is its `type` entry, `None` when the key is absent. */
  datatype PropSpec = PropSpec(kind: Option<string>, values: Values)

  type PropSpecs = Table<PropSpec>

  // ----- pages and events -----

  /** `pages[page]`: the decay schedule and the weighted transition table. */
  datatype PageConfig = PageConfig(maxDecayCycles: int, targets: Table<real>)

  /** `events[page][event]`; `prereq`, `modal` and `properties` may be absent. */
  datatype EventConfig = EventConfig(
    prob: real,
    prereq: Option<string>,
    modal: Option<bool>,
    properties: Option<PropSpecs>)

  /**
   * The whole configuration. `tables` holds every named weighted table that
   * `select` may be asked for; `visitsPerHour[h]` is the entry for hour h.
   */
  datatype Config = Config(
    tables: map<string, Table<real>>,
    pages: map<string, PageConfig>,
    events: map<string, Table<EventConfig>>,
    visitsPerHour: seq<real>)

  // ----- helpers over tables -----

  function Names<V>(t: Table<V>): (r: seq<string>)
    ensures |r| == |t|
    ensures forall i :: 0 <= i < |t| ==> r[i] == t[i].0
  {
    seq(|t|, i requires 0 <= i < |t| => t[i].0)
  }

  function Weights(t: Table<real>): (r: seq<real>)
    ensures |r| == |t|
    ensures forall i :: 0 <= i < |t| ==> r[i] == t[i].1
  {
    seq(|t|, i requires 0 <= i < |t| => t[i].1)
  }

  /** Dict keys are unique. */
  predicate DistinctKeys<V>(t: Table<V>) {
    forall i, j :: 0 <= i < j < |t| ==> t[i].0 != t[j].0
  }

  /** `dict.get(k)`: the value stored under `k`, if any. */
  function Find<V>(t: Table<V>, k: string): (r: Option<V>)
    ensures r.None? <==> k !in Names(t)
  {
    if t == [] then None
    else if t[0].0 == k then Some(t[0].1)
    else
      assert Names(t) == [t[0].0] + Names(t[1..]);
      Find(t[1..], k)
  }

  /** With unique keys, looking up the key of an entry finds that entry's value. */
  lemma {:induction false} FindEntry<V>(t: Table<V>, i: int)
    requires DistinctKeys(t) && 0 <= i < |t|
    ensures Find(t, t[i].0) == Some(t[i].1)
  {
    if i > 0 {
      assert t[0].0 != t[i].0;
      assert t[1..][i - 1] == t[i];
      FindEntry(t[1..], i - 1);
    }
  }

  /** Python's `sum`: a left fold starting at 0. */
  function Sum(s: seq<real>): real {
    if s == [] then 0.0 else Sum(s[..|s| - 1]) + s[|s| - 1]
  }

  /** A positive sum has a positive term. */
  lemma {:induction false} PositiveSumHasPositiveTerm(s: seq<real>)
    requires Sum(s) > 0.0
    ensures exists i :: 0 <= i < |s| && s[i] > 0.0
  {
    var n := |s| - 1;
    if s[n] <= 0.0 {
      PositiveSumHasPositiveTerm(s[..n]);
      var i :| 0 <= i < n && s[..n][i] > 0.0;
      assert s[i] > 0.0;
    }
  }

  /** `s` occurs in `t` in the same relative order. */
  predicate Subsequence<T(==)>(s: seq<T>, t: seq<T>)
    decreases |t|
  {
    if s == [] then true
    else if t == [] then false
    else (s[0] == t[0] && Subsequence(s[1..], t[1..])) || Subsequence(s, t[1..])
  }

  /** Appending the same element to both ends keeps a subsequence; so does appending to the longer one only. */
  lemma {:induction false} SubsequenceSnoc<T>(s: seq<T>, t: seq<T>, a: T)
    requires Subsequence(s, t)
    ensures Subsequence(s + [a], t + [a]) && Subsequence(s, t + [a])
    decreases |t|
  {
    if t == [] {
      assert s == [];
      assert (s + [a])[1..] == [];
    } else if s == [] {
      SubsequenceSnoc(s, t[1..], a);
      assert (t + [a])[1..] == t[1..] + [a];
    } else {
      assert (s + [a])[1..] == s[1..] + [a];
      assert (t + [a])[1..] == t[1..] + [a];
      if s[0] == t[0] && Subsequence(s[1..], t[1..]) {
        SubsequenceSnoc(s[1..], t[1..], a);
      } else {
        SubsequenceSnoc(s, t[1..], a);
      }
    }
  }

  /** A list comprehension with a condition: the kept elements, in order. */
  function Filter<T>(s: seq<T>, keep: T -> bool): (r: seq<T>)
    ensures |r| <= |s|
  {
    if s == [] then [] else (if keep(s[0]) then [s[0]] else []) + Filter(s[1..], keep)
  }

  /** Filtering keeps exactly the elements satisfying `keep`, in their original order. */
  lemma {:induction false} FilterSpec<T>(s: seq<T>, keep: T -> bool)
    ensures forall x :: x in Filter(s, keep) <==> x in s && keep(x)
    ensures Subsequence(Filter(s, keep), s)
  {
    if s != [] {
      FilterSpec(s[1..], keep);
      assert s == [s[0]] + s[1..];
      var r := Filter(s, keep);
      if keep(s[0]) {
        assert r[0] == s[0] && r[1..] == Filter(s[1..], keep);
      } else {
        assert r == Filter(s[1..], keep);
        assert Subsequence(r, s[1..]);
      }
    }
  }

  /** Taking the keys of two tables keeps one a subsequence of the other. */
  lemma {:induction false} NamesSubsequence<V>(s: Table<V>, t: Table<V>)
    requires Subsequence(s, t)
    ensures Subsequence(Names(s), Names(t))
    decreases |t|
  {
    if s != [] {
      assert Names(s)[1..] == Names(s[1..]);
      assert Names(t)[1..] == Names(t[1..]);
      if s[0] == t[0] && Subsequence(s[1..], t[1..]) {
        NamesSubsequence(s[1..], t[1..]);
      } else {
        NamesSubsequence(s, t[1..]);
      }
    }
  }
}
