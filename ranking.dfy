/**
 * The orderings the ranking commands use: a list of (id, key) entries put
 * in ascending or descending order of key, then cut down to its first
 * `top_n` either by an SQL `LIMIT` or by a Python slice. The two cuts
 * differ on a negative `top_n`.
 */
module Ranking {
  /** One ranked item: a user or message id and the number it is ranked by. */
  datatype Entry = Entry(id: nat, key: real)

  /** `a` may come before `b`: not after it in the chosen direction. */
  predicate Before(a: Entry, b: Entry, desc: bool) {
    if desc then a.key >= b.key else a.key <= b.key
  }

  predicate Sorted(s: seq<Entry>, desc: bool) {
    forall i, j :: 0 <= i < j < |s| ==> Before(s[i], s[j], desc)
  }

  /**
   * Insertion from the back: `x` goes right after the last entry that may
   * come before it, so entries with equal keys keep their order.
   */
  function Insert(s: seq<Entry>, x: Entry, desc: bool): (r: seq<Entry>)
    ensures |r| == |s| + 1
    ensures multiset(r) == multiset(s) + multiset{x}
    decreases |s|
  {
    if |s| == 0 then [x]
    else
      var last := s[|s| - 1];
      if Before(last, x, desc) then s + [x]
      else
        assert s == s[..|s| - 1] + [last];
        Insert(s[..|s| - 1], x, desc) + [last]
  }

  /** Insertion into a sorted list leaves it sorted. */
  lemma {:induction false} InsertSorted(s: seq<Entry>, x: Entry, desc: bool)
    requires Sorted(s, desc)
    ensures Sorted(Insert(s, x, desc), desc)
    decreases |s|
  {
    if |s| > 0 {
      var init := s[..|s| - 1];
      var last := s[|s| - 1];
      if !Before(last, x, desc) {
        assert Sorted(init, desc);
        InsertSorted(init, x, desc);
        var r := Insert(init, x, desc);
        forall i | 0 <= i < |r| ensures Before(r[i], last, desc) {
          assert r[i] in multiset(r);
          assert r[i] in multiset(init) || r[i] == x;
        }
      }
    }
  }

  /** `list.sort(key=...)` (with `reverse=True` when `desc`), and `ORDER BY key [DESC]`. */
  function Sort(s: seq<Entry>, desc: bool): (r: seq<Entry>)
    ensures Sorted(r, desc)
    ensures |r| == |s| && multiset(r) == multiset(s)
    decreases |s|
  {
    if |s| == 0 then []
    else
      assert s == s[..|s| - 1] + [s[|s| - 1]];
      InsertSorted(Sort(s[..|s| - 1], desc), s[|s| - 1], desc);
      Insert(Sort(s[..|s| - 1], desc), s[|s| - 1], desc)
  }

  function Min(a: nat, b: nat): nat {
    if a <= b then a else b
  }

  /** `LIMIT n` in SQLite: a negative limit means no limit. */
  function SqlLimit(s: seq<Entry>, n: int): (r: seq<Entry>)
    ensures |r| <= |s| && r == s[..|r|]
    ensures n < 0 ==> r == s
    ensures n >= 0 ==> |r| == Min(n, |s|)
  {
    if n < 0 then s else s[..Min(n, |s|)]
  }

  /** `s[:n]` in Python: a negative `n` drops that many entries from the end. */
  function PySlice(s: seq<Entry>, n: int): (r: seq<Entry>)
    ensures |r| <= |s| && r == s[..|r|]
    ensures n >= 0 ==> |r| == Min(n, |s|)
    ensures n < 0 ==> |r| == if |s| + n >= 0 then |s| + n else 0
  {
    if n >= 0 then s[..Min(n, |s|)]
    else if |s| + n >= 0 then s[..|s| + n] else []
  }

  /**
   * Cutting a sorted list keeps its best entries: every entry of the list
   * that the cut leaves out may come after every entry it keeps.
   */
  lemma TopOf(s: seq<Entry>, p: nat, e: Entry, desc: bool)
    requires Sorted(s, desc) && p <= |s|
    requires e in s && e !in s[..p]
    ensures forall i :: 0 <= i < p ==> Before(s[i], e, desc)
  {
    var j :| 0 <= j < |s| && s[j] == e;
    assert forall i :: 0 <= i < p ==> s[..p][i] == s[i];
    assert j >= p;
  }

  /** The same for the sorted list of any entries: whatever is cut comes after whatever is kept. */
  lemma {:induction false} TopOfSorted(s: seq<Entry>, p: nat, e: Entry, desc: bool)
    requires p <= |s| && e in s && e !in Sort(s, desc)[..p]
    ensures forall i :: 0 <= i < p ==> Before(Sort(s, desc)[i], e, desc)
  {
    var r := Sort(s, desc);
    assert e in multiset(r);
    TopOf(r, p, e, desc);
  }

  /** Every entry of a cut of the sorted list is an entry of the original list. */
  lemma CutOfSortIn(s: seq<Entry>, desc: bool, r: seq<Entry>)
    requires |r| <= |s| && r == Sort(s, desc)[..|r|]
    ensures forall i :: 0 <= i < |r| ==> r[i] in s
  {
    var sorted := Sort(s, desc);
    forall i | 0 <= i < |r| ensures r[i] in s {
      assert r[i] == sorted[i];
      assert sorted[i] in multiset(s);
    }
  }

  /** No id occurs twice. */
  predicate DistinctIds(s: seq<Entry>) {
    forall i, j :: 0 <= i < j < |s| ==> s[i].id != s[j].id
  }

  /** An entry at two positions occurs at least twice. */
  lemma TwiceCounted(t: seq<Entry>, i: nat, j: nat)
    requires i < j < |t| && t[i] == t[j]
    ensures multiset(t)[t[i]] >= 2
  {
    assert t == t[..j] + t[j..];
    assert t[i] in t[..j] && t[j] in t[j..];
  }

  /** In a list with distinct ids every entry occurs once. */
  lemma OnceCounted(s: seq<Entry>, a: nat)
    requires DistinctIds(s) && a < |s|
    ensures multiset(s)[s[a]] == 1
  {
    var x := s[a];
    assert s == s[..a] + [x] + s[a + 1..];
    assert x !in s[..a] && x !in s[a + 1..];
  }

  /** Reordering a list with distinct ids keeps the ids distinct, and so does cutting it. */
  lemma DistinctIdsKept(s: seq<Entry>, t: seq<Entry>, p: nat)
    requires DistinctIds(s) && multiset(t) == multiset(s) && p <= |t|
    ensures DistinctIds(t[..p])
  {
    forall i, j | 0 <= i < j < |t| ensures t[i].id != t[j].id {
      if t[i].id == t[j].id {
        assert t[i] in multiset(s) && t[j] in multiset(s);
        var a :| 0 <= a < |s| && s[a] == t[i];
        var b :| 0 <= b < |s| && s[b] == t[j];
        assert a == b;
        TwiceCounted(t, i, j);
        OnceCounted(s, a);
        assert false;
      }
    }
  }
}
