/** Namespaced parameter names such as `classifier__min_samples_leaf`:
    Python's `name.split('__')`, scanning left to right, and the last segment
    of it, which is the name a setup records for the parameter. */
module Segments {

  const Separator := "__"

  /** True when `s` contains the separator somewhere. */
  predicate HasSeparator(s: string) {
    exists i :: 0 <= i < |s| - 1 && s[i] == '_' && s[i + 1] == '_'
  }

  /** `s.split('__')`: the pieces between non-overlapping separators found
      left to right ("a___b" splits into "a" and "_b"). */
  function Split(s: string): (parts: seq<string>)
    ensures |parts| >= 1
    decreases |s|
  {
    if |s| < 2 then [s]
    else if s[0] == '_' && s[1] == '_' then [""] + Split(s[2..])
    else
      var rest := Split(s[1..]);
      [[s[0]] + rest[0]] + rest[1..]
  }

  /** `Separator.join(parts)`. */
  function Join(parts: seq<string>): string
    requires |parts| >= 1
    decreases |parts|
  {
    if |parts| == 1 then parts[0] else parts[0] + Separator + Join(parts[1..])
  }

  /** One step of the join. */
  lemma JoinUnfold(parts: seq<string>)
    requires |parts| >= 2
    ensures Join(parts) == parts[0] + Separator + Join(parts[1..])
  {
  }

  /** Joining after an empty first piece starts with the separator. */
  lemma JoinEmptyFirst(rest: seq<string>)
    requires |rest| >= 1
    ensures Join([""] + rest) == Separator + Join(rest)
  {
    var parts := [""] + rest;
    JoinUnfold(parts);
    assert parts[1..] == rest;
    assert parts[0] == "";
  }

  /** Concatenation is associative. */
  lemma Assoc<T>(a: seq<T>, b: seq<T>, c: seq<T>)
    ensures (a + b) + c == a + (b + c)
  {
  }

  /** Joining after a character is put in front of the first piece, for
      `parts` that are `rest` with `c` in front of the first piece. */
  lemma JoinPrependAt(c: char, rest: seq<string>, parts: seq<string>)
    requires |rest| >= 2 && |parts| == |rest|
    requires parts[0] == [c] + rest[0] && parts[1..] == rest[1..]
    ensures Join(parts) == [c] + Join(rest)
  {
    JoinUnfold(parts);
    JoinUnfold(rest);
    assert Join(parts[1..]) == Join(rest[1..]);
    Assoc([c], rest[0], Separator + Join(rest[1..]));
  }

  /** Joining after a character is put in front of the first piece. */
  lemma JoinPrepend(c: char, rest: seq<string>)
    requires |rest| >= 1
    ensures Join([[c] + rest[0]] + rest[1..]) == [c] + Join(rest)
  {
    var parts := [[c] + rest[0]] + rest[1..];
    if |rest| > 1 {
      assert parts[1..] == rest[1..];
      JoinPrependAt(c, rest, parts);
    } else {
      assert parts == [[c] + rest[0]];
    }
  }

  /** Splitting loses nothing: joining the pieces gives the name back. */
  lemma {:induction false} JoinSplit(s: string)
    ensures Join(Split(s)) == s
    decreases |s|
  {
    if |s| < 2 {
    } else if s[0] == '_' && s[1] == '_' {
      JoinSplit(s[2..]);
      JoinEmptyFirst(Split(s[2..]));
      assert s == Separator + s[2..];
    } else {
      JoinSplit(s[1..]);
      JoinPrepend(s[0], Split(s[1..]));
      assert s == [s[0]] + s[1..];
    }
  }

  /** Whatever the split returns, the separator occurs in no piece. */
  lemma {:induction false} PiecesHaveNoSeparator(s: string)
    ensures forall i :: 0 <= i < |Split(s)| ==> !HasSeparator(Split(s)[i])
    decreases |s|
  {
    if |s| < 2 {
    } else if s[0] == '_' && s[1] == '_' {
      PiecesHaveNoSeparator(s[2..]);
      var rest := Split(s[2..]);
      assert forall i :: 1 <= i < |Split(s)| ==> Split(s)[i] == rest[i - 1];
    } else {
      PiecesHaveNoSeparator(s[1..]);
      JoinSplit(s[1..]);
      var rest := Split(s[1..]);
      var first := [s[0]] + rest[0];
      FirstPieceIsPrefix(s[1..]);
      assert !HasSeparator(first) by {
        if |rest[0]| > 0 {
          assert rest[0][0] == s[1];
        }
        forall i | 0 <= i < |first| - 1 ensures !(first[i] == '_' && first[i + 1] == '_') {
          if i > 0 {
            assert first[i] == rest[0][i - 1] && first[i + 1] == rest[0][i];
          }
        }
      }
      assert forall i :: 1 <= i < |Split(s)| ==> Split(s)[i] == rest[i];
    }
  }

  /** The first piece is where the name starts. */
  lemma {:induction false} FirstPieceIsPrefix(s: string)
    ensures Split(s)[0] <= s
    decreases |s|
  {
    if |s| >= 2 && !(s[0] == '_' && s[1] == '_') {
      FirstPieceIsPrefix(s[1..]);
    }
  }

  /** The piece ends with an underscore. */
  predicate EndsInUnderscore(p: string) {
    |p| > 0 && p[|p| - 1] == '_'
  }

  /** An empty first piece followed by others means the name starts with
      the separator. */
  lemma EmptyFirstPiece(s: string)
    requires |Split(s)| > 1 && Split(s)[0] == ""
    ensures |s| >= 2 && s[0] == '_' && s[1] == '_'
  {
  }

  /** The left-to-right scan cuts at the first separator it meets, so no
      piece but the last ends with an underscore. */
  lemma {:induction false} InnerPiecesDoNotEndInUnderscore(s: string)
    ensures forall i :: 0 <= i < |Split(s)| - 1 ==> !EndsInUnderscore(Split(s)[i])
    decreases |s|
  {
    if |s| < 2 {
    } else if s[0] == '_' && s[1] == '_' {
      InnerPiecesDoNotEndInUnderscore(s[2..]);
      var rest := Split(s[2..]);
      assert forall i :: 1 <= i < |Split(s)| ==> Split(s)[i] == rest[i - 1];
    } else {
      InnerPiecesDoNotEndInUnderscore(s[1..]);
      var rest := Split(s[1..]);
      var parts := Split(s);
      assert forall i :: 1 <= i < |parts| ==> parts[i] == rest[i];
      if |parts| > 1 {
        if rest[0] == "" {
          EmptyFirstPiece(s[1..]);
          assert parts[0] == [s[0]];
        } else {
          assert parts[0][|parts[0]| - 1] == rest[0][|rest[0]| - 1];
        }
      }
    }
  }

  /** A name without the separator is one piece. */
  lemma {:induction false} SplitWithoutSeparator(p: string)
    requires !HasSeparator(p)
    ensures Split(p) == [p]
    decreases |p|
  {
    if |p| >= 2 {
      assert !HasSeparator(p[1..]) by {
        forall i | 0 <= i < |p[1..]| - 1 ensures !(p[1..][i] == '_' && p[1..][i + 1] == '_') {
          assert p[1..][i] == p[i + 1] && p[1..][i + 1] == p[i + 2];
        }
      }
      SplitWithoutSeparator(p[1..]);
      assert [p[0]] + p[1..] == p;
    }
  }

  /** A first piece without the separator and not ending in an underscore is
      cut exactly at the separator that follows it. */
  lemma {:induction false} SplitAfterPiece(p: string, x: string)
    requires !HasSeparator(p) && !EndsInUnderscore(p)
    ensures Split(p + Separator + x) == [p] + Split(x)
    decreases |p|
  {
    var s := p + Separator + x;
    if |p| == 0 {
      assert s == "__" + x && s[2..] == x;
    } else {
      var q := p[1..];
      assert !HasSeparator(q) by {
        forall i | 0 <= i < |q| - 1 ensures !(q[i] == '_' && q[i + 1] == '_') {
          assert q[i] == p[i + 1] && q[i + 1] == p[i + 2];
        }
      }
      assert !EndsInUnderscore(q) by {
        if |q| > 0 {
          assert q[|q| - 1] == p[|p| - 1];
        }
      }
      assert s[1..] == q + Separator + x;
      assert !(s[0] == '_' && s[1] == '_') by {
        if |q| > 0 {
          assert s[1] == p[1];
          assert !(p[0] == '_' && p[1] == '_');
        }
      }
      SplitAfterPiece(q, x);
      assert [p[0]] + q == p;
    }
  }

  /** The split is the only list of pieces that joins back to the name,
      with no piece holding the separator and no piece but the last ending
      in an underscore: `"a___b"` splits into `"a"` and `"_b"`, never into
      `"a_"` and `"b"`. */
  lemma {:induction false} SplitCharacterised(s: string, parts: seq<string>)
    requires |parts| >= 1
    ensures Split(s) == parts <==>
      && Join(parts) == s
      && (forall i :: 0 <= i < |parts| ==> !HasSeparator(parts[i]))
      && (forall i :: 0 <= i < |parts| - 1 ==> !EndsInUnderscore(parts[i]))
  {
    JoinSplit(s);
    PiecesHaveNoSeparator(s);
    InnerPiecesDoNotEndInUnderscore(s);
    if && Join(parts) == s
       && (forall i :: 0 <= i < |parts| ==> !HasSeparator(parts[i]))
       && (forall i :: 0 <= i < |parts| - 1 ==> !EndsInUnderscore(parts[i])) {
      SplitOfJoin(parts);
    }
  }

  /** Splitting a join of well-formed pieces gives the pieces back. */
  lemma {:induction false} SplitOfJoin(parts: seq<string>)
    requires |parts| >= 1
    requires forall i :: 0 <= i < |parts| ==> !HasSeparator(parts[i])
    requires forall i :: 0 <= i < |parts| - 1 ==> !EndsInUnderscore(parts[i])
    ensures Split(Join(parts)) == parts
    decreases |parts|
  {
    if |parts| == 1 {
      SplitWithoutSeparator(parts[0]);
    } else {
      var rest := parts[1..];
      assert forall i :: 0 <= i < |rest| ==> rest[i] == parts[i + 1];
      SplitOfJoin(rest);
      JoinUnfold(parts);
      SplitAfterPiece(parts[0], Join(rest));
      assert [parts[0]] + rest == parts;
    }
  }

  /** `name.split('__')[-1]`: the last piece, a suffix of the name that holds
      no separator. */
  function LastSegment(name: string): (r: string)
    ensures !HasSeparator(r)
    ensures |r| <= |name| && r == name[|name| - |r|..]
  {
    var parts := Split(name);
    PiecesHaveNoSeparator(name);
    JoinSplit(name);
    JoinEndsWithLast(parts);
    parts[|parts| - 1]
  }

  /** An odd run of underscores: `"a___b".split('__')` is `["a", "_b"]`,
      so the last piece keeps the leftover underscore. */
  lemma LastSegmentOddRun()
    ensures LastSegment("a___b") == "_b"
  {
    var parts := ["a", "_b"];
    JoinUnfold(parts);
    assert parts[1..] == ["_b"];
    assert Join(parts) == "a" + "__" + "_b" == "a___b";
    assert !HasSeparator("_b");
    SplitCharacterised("a___b", parts);
  }

  /** A join ends with its last piece. */
  lemma {:induction false} JoinEndsWithLast(parts: seq<string>)
    requires |parts| >= 1
    ensures |parts[|parts| - 1]| <= |Join(parts)|
    ensures Join(parts)[|Join(parts)| - |parts[|parts| - 1]|..] == parts[|parts| - 1]
    decreases |parts|
  {
    if |parts| > 1 {
      var last := parts[|parts| - 1];
      JoinUnfold(parts);
      JoinEndsWithLast(parts[1..]);
      assert parts[1..][|parts| - 2] == last;
      var tail, j := Join(parts[1..]), Join(parts);
      assert j[|j| - |tail|..] == tail;
      assert j[|j| - |last|..] == tail[|tail| - |last|..];
    }
  }

  /** A name without `__` is its own last piece, and a leading
      `<piece>__` (the piece free of `__` and not ending in `_`) is skipped:
      the last piece of a nested name is the last piece of what follows its
      first separator. */
  lemma LastSegmentOfPlainAndNested(p: string, x: string)
    ensures !HasSeparator(p) ==> LastSegment(p) == p
    ensures !HasSeparator(p) && !EndsInUnderscore(p) ==> LastSegment(p + Separator + x) == LastSegment(x)
  {
    if !HasSeparator(p) {
      SplitWithoutSeparator(p);
      if !EndsInUnderscore(p) {
        SplitAfterPiece(p, x);
        var parts := Split(x);
        assert |parts| >= 1;
        assert ([p] + parts)[|parts|] == parts[|parts| - 1];
      }
    }
  }
}
