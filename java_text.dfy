/**
 * The piece of java.lang.String that the wagon relies on: `split` on a
 * single literal separator character, with the default limit of zero.
 *
 * Java's rule is: when the separator does not occur, the result is the
 * whole string as its only element (even when the string is empty);
 * otherwise the string is cut at every occurrence, a leading empty piece is
 * kept and every trailing empty piece is dropped.
 */
module JavaText {

  /** The pieces of `s` between occurrences of `sep`, all of them, empty ones included. */
  function Pieces(s: string, sep: char): (r: seq<string>)
    ensures |r| >= 1
    ensures forall i :: 0 <= i < |r| ==> sep !in r[i]
    decreases |s|
  {
    if s == [] then [[]]
    else
      var rest := Pieces(s[1..], sep);
      if s[0] == sep then [[]] + rest
      else [[s[0]] + rest[0]] + rest[1..]
  }

  /** Glues pieces back together with `sep` between neighbours: the inverse of Pieces. */
  function Join(parts: seq<string>, sep: char): string
    requires |parts| >= 1
    decreases |parts|
  {
    if |parts| == 1 then parts[0] else parts[0] + [sep] + Join(parts[1..], sep)
  }

  /** `k` copies of `c`. */
  function Repeat(c: char, k: nat): (r: string)
    ensures |r| == k && forall i :: 0 <= i < k ==> r[i] == c
  {
    seq(k, _ => c)
  }

  /** `k` empty strings. */
  function Empties(k: nat): (r: seq<string>)
    ensures |r| == k && forall i :: 0 <= i < k ==> r[i] == []
  {
    seq(k, _ => [])
  }

  /** Removes the empty strings at the end of `ps`, and only those. */
  function DropTrailingEmpty(ps: seq<string>): (r: seq<string>)
    ensures |r| <= |ps| && r == ps[..|r|]
    ensures forall i :: |r| <= i < |ps| ==> ps[i] == []
    ensures r == [] || r[|r| - 1] != []
    decreases |ps|
  {
    if ps != [] && ps[|ps| - 1] == [] then DropTrailingEmpty(ps[..|ps| - 1]) else ps
  }

  /** Java's `s.split(String.valueOf(sep))`, for a separator that is not a regex metacharacter, such as `/`. */
  function JavaSplit(s: string, sep: char): (r: seq<string>)
    ensures forall i :: 0 <= i < |r| ==> sep !in r[i]
    ensures sep !in s ==> r == [s]
    ensures sep in s ==> r == [] || r[|r| - 1] != []
  {
    if sep !in s then [s] else DropTrailingEmpty(Pieces(s, sep))
  }

  /** `t` occurs in `s` starting at index `i`. */
  predicate OccursAt(s: string, t: string, i: int)
  {
    0 <= i && i + |t| <= |s| && s[i..i + |t|] == t
  }

  /** Java's `s.contains(t)`. */
  predicate Contains(s: string, t: string)
  {
    exists i :: 0 <= i <= |s| && OccursAt(s, t, i)
  }

  /** Joining the pieces of a string gives the string back. */
  lemma {:induction false} JoinPieces(s: string, sep: char)
    ensures Join(Pieces(s, sep), sep) == s
    decreases |s|
  {
    if s != [] {
      var rest := Pieces(s[1..], sep);
      JoinPieces(s[1..], sep);
      if s[0] == sep {
        assert Pieces(s, sep)[1..] == rest;
      } else if |rest| == 1 {
        assert [s[0]] + s[1..] == s;
      } else {
        assert Pieces(s, sep)[1..] == rest[1..];
        assert Join(rest, sep) == rest[0] + [sep] + Join(rest[1..], sep);
        assert [s[0]] + s[1..] == s;
      }
    }
  }

  /** A separator-free prefix extends the first piece and leaves the others alone. */
  lemma {:induction false} PiecesPrefix(a: string, t: string, sep: char)
    requires sep !in a
    ensures Pieces(a + t, sep) == [a + Pieces(t, sep)[0]] + Pieces(t, sep)[1..]
    decreases |a|
  {
    var p := Pieces(t, sep);
    if a == [] {
      assert a + t == t;
      assert a + p[0] == p[0];
      assert [p[0]] + p[1..] == p;
    } else {
      assert (a + t)[1..] == a[1..] + t;
      PiecesPrefix(a[1..], t, sep);
      assert [a[0]] + (a[1..] + p[0]) == a + p[0];
    }
  }

  /** Splitting a join of separator-free pieces gives those pieces back. */
  lemma {:induction false} PiecesJoin(parts: seq<string>, sep: char)
    requires |parts| >= 1
    requires forall i :: 0 <= i < |parts| ==> sep !in parts[i]
    ensures Pieces(Join(parts, sep), sep) == parts
    decreases |parts|
  {
    if |parts| == 1 {
      PiecesPrefix(parts[0], [], sep);
      assert parts[0] + [] == parts[0];
    } else {
      var j := Join(parts[1..], sep);
      PiecesJoin(parts[1..], sep);
      var q := [sep] + j;
      assert q[1..] == j;
      assert Pieces(q, sep) == [[]] + parts[1..];
      PiecesPrefix(parts[0], q, sep);
      assert parts[0] + [sep] + j == parts[0] + q;
      assert parts[0] + [] == parts[0];
      assert [parts[0]] + parts[1..] == parts;
    }
  }

  /** Appending a piece to a join adds one separator and the piece. */
  lemma {:induction false} JoinSnoc(ps: seq<string>, x: string, sep: char)
    requires |ps| >= 1
    ensures Join(ps + [x], sep) == Join(ps, sep) + [sep] + x
    decreases |ps|
  {
    if |ps| == 1 {
      assert (ps + [x])[1..] == [x];
    } else {
      assert (ps + [x])[1..] == ps[1..] + [x];
      JoinSnoc(ps[1..], x, sep);
    }
  }

  /** Appending `k` empty pieces to a join appends `k` separators. */
  lemma {:induction false} JoinEmpties(ps: seq<string>, k: nat, sep: char)
    requires |ps| >= 1
    ensures Join(ps + Empties(k), sep) == Join(ps, sep) + Repeat(sep, k)
    decreases k
  {
    if k == 0 {
      assert ps + Empties(k) == ps;
      assert Join(ps, sep) + Repeat(sep, k) == Join(ps, sep);
    } else {
      assert ps + Empties(k) == (ps + [[]]) + Empties(k - 1);
      JoinEmpties(ps + [[]], k - 1, sep);
      JoinSnoc(ps, [], sep);
      assert Repeat(sep, k) == [sep] + Repeat(sep, k - 1);
    }
  }

  /** Trailing empty pieces after a non-empty last piece are exactly what Java drops. */
  lemma DropTrailingEmptyAfter(ps: seq<string>, k: nat)
    requires ps == [] || ps[|ps| - 1] != []
    ensures DropTrailingEmpty(ps + Empties(k)) == ps
  {
    var all := ps + Empties(k);
    var r := DropTrailingEmpty(all);
    if ps != [] {
      assert all[|ps| - 1] == ps[|ps| - 1];
    }
    assert |r| == |ps|;
    assert all[..|ps|] == ps;
  }

  /** The last piece is non-empty when the string does not end with the separator. */
  lemma {:induction false} LastPieceNonEmpty(s: string, sep: char)
    requires s != [] && s[|s| - 1] != sep
    ensures Pieces(s, sep)[|Pieces(s, sep)| - 1] != []
    decreases |s|
  {
    if |s| > 1 {
      LastPieceNonEmpty(s[1..], sep);
    }
  }

  /**
   * Splitting a string that does not end with the separator loses nothing:
   * joining Java's pieces gives the string back.
   */
  lemma JavaSplitJoin(s: string, sep: char)
    requires s == [] || s[|s| - 1] != sep
    ensures |JavaSplit(s, sep)| >= 1
    ensures Join(JavaSplit(s, sep), sep) == s
  {
    if sep in s {
      LastPieceNonEmpty(s, sep);
      var ps := Pieces(s, sep);
      DropTrailingEmptyAfter(ps, 0);
      assert ps + Empties(0) == ps;
      JoinPieces(s, sep);
    }
  }

  /** When the separator occurs, Java's pieces are all the pieces less some empty ones at the end. */
  lemma JavaSplitTrailing(s: string, sep: char)
    requires sep in s
    ensures exists k: nat :: Pieces(s, sep) == JavaSplit(s, sep) + Empties(k)
  {
    var ps, r := Pieces(s, sep), JavaSplit(s, sep);
    assert ps == r + Empties(|ps| - |r|);
  }

  /** Every separator-free list of pieces whose last piece is non-empty is what Java splits its join into. */
  lemma JavaSplitOfJoin(parts: seq<string>, sep: char)
    requires |parts| >= 2 && parts[|parts| - 1] != []
    requires forall i :: 0 <= i < |parts| ==> sep !in parts[i]
    ensures JavaSplit(Join(parts, sep), sep) == parts
  {
    var s := Join(parts, sep);
    assert s == parts[0] + [sep] + Join(parts[1..], sep);
    assert s[|parts[0]|] == sep;
    PiecesJoin(parts, sep);
    DropTrailingEmptyAfter(parts, 0);
    assert parts + Empties(0) == parts;
  }
}
