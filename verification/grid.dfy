/** Ordered parameter grids: the `OrderedDict` from parameter name to its
    list of candidate values, as a sequence of entries in declaration order. */
module ParamGrid {
  import opened Wrappers
  import opened Values

  datatype Entry = Entry(name: string, values: seq<Value>)

  type Grid = seq<Entry>

  /** The elements of a sequence, as a set. */
  function Elems<T(!new)>(s: seq<T>): (r: set<T>)
    ensures forall x :: x in r <==> x in s
  {
    set x | x in s
  }

  /** No element occurs twice. */
  predicate Distinct<T(==)>(s: seq<T>) {
    forall i, j :: 0 <= i < j < |s| ==> s[i] != s[j]
  }

  /** The parameter names, in grid order. */
  function Names(g: Grid): (ns: seq<string>)
    ensures |ns| == |g|
    ensures forall i :: 0 <= i < |g| ==> ns[i] == g[i].name
  {
    seq(|g|, i requires 0 <= i < |g| => g[i].name)
  }

  /** The parameter names, as a set (the grid's `keys()`). */
  function Keys(g: Grid): set<string> {
    set e | e in g :: e.name
  }

  /** The key set is the set of names. */
  lemma KeysAreNames(g: Grid)
    ensures Keys(g) == Elems(Names(g))
  {
    forall k | k in Keys(g) ensures k in Names(g) {
      var e :| e in g && e.name == k;
      var i :| 0 <= i < |g| && g[i] == e;
      assert Names(g)[i] == k;
    }
  }

  /** A dictionary cannot hold a key twice. */
  predicate WellFormed(g: Grid) {
    Distinct(Names(g))
  }

  /** The candidate values of `k`, if `k` is a key. */
  function Lookup(g: Grid, k: string): (r: Option<seq<Value>>)
    ensures r.None? <==> k !in Keys(g)
    ensures r.Some? ==> Entry(k, r.value) in g
  {
    if |g| == 0 then None
    else if g[0].name == k then Some(g[0].values)
    else
      Cons(g[0], g[1..]);
      assert [g[0]] + g[1..] == g;
      Lookup(g[1..], k)
  }

  /** In a well-formed grid the entry at any position is the one found. */
  lemma {:induction false} LookupAt(g: Grid, i: int)
    requires WellFormed(g) && 0 <= i < |g|
    ensures Lookup(g, g[i].name) == Some(g[i].values)
  {
    if i > 0 {
      Cons(g[0], g[1..]);
      assert [g[0]] + g[1..] == g;
      assert g[1..][i - 1] == g[i];
      LookupAt(g[1..], i - 1);
    }
  }

  /** The grid forgetting its order. */
  function AsMap(g: Grid): (m: GridMap)
    ensures m.Keys == Keys(g)
    ensures forall k :: k in m ==> Lookup(g, k) == Some(m[k])
  {
    map k | k in Keys(g) :: Lookup(g, k).value
  }

  /** Keys and well-formedness of a grid with one entry put in front. */
  lemma Cons(e: Entry, g: Grid)
    ensures Keys([e] + g) == {e.name} + Keys(g)
    ensures WellFormed([e] + g) <==> WellFormed(g) && e.name !in Keys(g)
  {
    var r := [e] + g;
    assert forall i :: 1 <= i < |r| ==> r[i] == g[i - 1];
    assert forall x :: x in r <==> x == e || x in g;
    if WellFormed(r) {
      forall i, j | 0 <= i < j < |g| ensures g[i].name != g[j].name {
        assert r[i + 1] == g[i] && r[j + 1] == g[j];
      }
      forall x | x in g ensures x.name != e.name {
        var i :| 0 <= i < |g| && g[i] == x;
        assert Names(r)[0] == e.name && Names(r)[i + 1] == g[i].name;
      }
    }
  }

  /** The names of `ns` outside `s`, in their order. */
  function Filter(ns: seq<string>, s: set<string>): (r: seq<string>)
    ensures forall x :: x in r <==> x in ns && x !in s
    ensures |r| <= |ns|
  {
    if |ns| == 0 then []
    else
      assert ns == [ns[0]] + ns[1..];
      (if ns[0] in s then [] else [ns[0]]) + Filter(ns[1..], s)
  }

  /** The names of a grid with one entry put in front. */
  lemma NamesCons(e: Entry, g: Grid)
    ensures Names([e] + g) == [e.name] + Names(g)
  {
    var a, b := Names([e] + g), [e.name] + Names(g);
    assert forall i :: 1 <= i < |a| ==> ([e] + g)[i] == g[i - 1];
    assert forall i :: 0 <= i < |a| ==> a[i] == b[i];
  }

  /** The names of a grid without its first entry. */
  lemma NamesTail(g: Grid)
    requires |g| > 0
    ensures Names(g[1..]) == Names(g)[1..]
  {
    var a, b := Names(g[1..]), Names(g)[1..];
    assert forall i :: 0 <= i < |a| ==> a[i] == b[i];
  }

  /** The grid with every entry whose name is in `s` deleted, the remaining
      entries kept in their order. */
  function Without(g: Grid, s: set<string>): (r: Grid)
    ensures forall e :: e in r <==> e in g && e.name !in s
    ensures Keys(r) == Keys(g) - s
    ensures Names(r) == Filter(Names(g), s)
  {
    if |g| == 0 then []
    else
      var rest := Without(g[1..], s);
      assert [g[0]] + g[1..] == g;
      NamesTail(g);
      NamesCons(g[0], rest);
      if g[0].name in s then rest else [g[0]] + rest
  }

  /** Deletion keeps a grid well-formed and every remaining key's values. */
  lemma {:induction false} WithoutKeepsEntries(g: Grid, s: set<string>)
    requires WellFormed(g)
    ensures WellFormed(Without(g, s))
    ensures forall k :: k !in s ==> Lookup(Without(g, s), k) == Lookup(g, k)
  {
    if |g| > 0 {
      var rest := Without(g[1..], s);
      Cons(g[0], g[1..]);
      assert [g[0]] + g[1..] == g;
      WithoutKeepsEntries(g[1..], s);
      if g[0].name !in s {
        Cons(g[0], rest);
        assert ([g[0]] + rest)[1..] == rest;
      }
    }
  }

  /** Deleting a set of names in one step or deleting one name and then the
      rest gives the same grid. */
  lemma {:induction false} WithoutWithout(g: Grid, a: set<string>, b: set<string>)
    ensures Without(Without(g, a), b) == Without(g, a + b)
  {
    if |g| > 0 {
      WithoutWithout(g[1..], a, b);
      if g[0].name !in a {
        assert Without(g, a)[1..] == Without(g[1..], a);
      }
    }
  }

  /** A sequence in reverse order: the grid's reverse declaration order. */
  function Reverse<T>(s: seq<T>): (r: seq<T>)
    ensures |r| == |s|
    ensures forall i :: 0 <= i < |s| ==> r[i] == s[|s| - 1 - i]
  {
    if |s| == 0 then [] else Reverse(s[1..]) + [s[0]]
  }

  /** Reversing twice gives the sequence back. */
  lemma ReverseReverse<T>(s: seq<T>)
    ensures Reverse(Reverse(s)) == s
  {
    var r := Reverse(Reverse(s));
    assert forall i :: 0 <= i < |s| ==> r[i] == s[i];
  }

  /** The names of the reversed grid are the reversed names. */
  lemma NamesOfReverse(g: Grid)
    ensures Names(Reverse(g)) == Reverse(Names(g))
  {
    var a, b := Names(Reverse(g)), Reverse(Names(g));
    assert forall i :: 0 <= i < |g| ==> a[i] == b[i];
  }

  /** A sequence and its reverse hold the same elements. */
  lemma ReverseElems<T>(s: seq<T>)
    ensures forall x :: x in Reverse(s) <==> x in s
  {
    var r, n := Reverse(s), |s|;
    forall x | x in s ensures x in r {
      var i :| 0 <= i < n && s[i] == x;
      assert r[n - 1 - i] == s[i];
    }
  }

  /** Reversal keeps a sequence duplicate-free. */
  lemma DistinctReverse<T>(s: seq<T>)
    requires Distinct(s)
    ensures Distinct(Reverse(s))
  {
    var r, n := Reverse(s), |s|;
    forall i, j | 0 <= i < j < n ensures r[i] != r[j] {
      assert r[i] == s[n - 1 - i] && r[j] == s[n - 1 - j];
    }
  }

  /** Reversal keeps a grid well-formed. */
  lemma ReverseWellFormed(g: Grid)
    requires WellFormed(g)
    ensures WellFormed(Reverse(g))
  {
    NamesOfReverse(g);
    DistinctReverse(Names(g));
  }

  /** Reversal keeps the key set. */
  lemma ReverseKeys(g: Grid)
    ensures Keys(Reverse(g)) == Keys(g)
  {
    ReverseElems(g);
  }

  /** The entry at position `i` is found at the mirrored position of the
      reversed grid. */
  lemma ReverseLookupAt(g: Grid, i: int)
    requires WellFormed(g) && 0 <= i < |g|
    ensures Lookup(Reverse(g), g[i].name) == Lookup(g, g[i].name)
  {
    var n := |g|;
    ReverseWellFormed(g);
    assert Reverse(g)[n - 1 - i] == g[i];
    LookupAt(g, i);
    LookupAt(Reverse(g), n - 1 - i);
  }

  /** Reversal keeps every key's values. */
  lemma ReverseLookup(g: Grid)
    requires WellFormed(g)
    ensures Keys(Reverse(g)) == Keys(g)
    ensures forall k :: Lookup(Reverse(g), k) == Lookup(g, k)
  {
    ReverseKeys(g);
    forall k ensures Lookup(Reverse(g), k) == Lookup(g, k) {
      if k in Keys(g) {
        var x :| x in g && x.name == k;
        var i :| 0 <= i < |g| && g[i] == x;
        ReverseLookupAt(g, i);
      }
    }
  }

  /** Reversal keeps the grid's key-to-values map. */
  lemma ReverseAsMap(g: Grid)
    requires WellFormed(g)
    ensures AsMap(Reverse(g)) == AsMap(g)
  {
    ReverseLookup(g);
    var a, b := AsMap(Reverse(g)), AsMap(g);
    assert a.Keys == b.Keys;
    forall k | k in a ensures a[k] == b[k] {
      assert Lookup(Reverse(g), k) == Some(a[k]) && Lookup(g, k) == Some(b[k]);
    }
  }

  /** Reversal changes only the iteration order: it is an involution, keeps
      well-formedness, and keeps every key with the same values. */
  lemma ReverseKeepsContents(g: Grid)
    requires WellFormed(g)
    ensures Reverse(Reverse(g)) == g
    ensures WellFormed(Reverse(g))
    ensures Names(Reverse(g)) == Reverse(Names(g))
    ensures Keys(Reverse(g)) == Keys(g)
    ensures AsMap(Reverse(g)) == AsMap(g)
  {
    ReverseReverse(g);
    NamesOfReverse(g);
    ReverseWellFormed(g);
    ReverseKeys(g);
    ReverseAsMap(g);
  }
}
