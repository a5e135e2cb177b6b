/** JavaScript's `String.prototype.split` with a one-character separator,
    together with its inverse `Join` (as `Array.prototype.join`). */
module Strings {

  /** Number of occurrences of `c` in `s`. */
  function Count(s: string, c: char): (n: nat)
    ensures n <= |s|
  {
    if |s| == 0 then 0 else (if s[0] == c then 1 else 0) + Count(s[1..], c)
  }

  /** `c` occurs in `s` exactly when its count is positive. */
  lemma {:induction false} CountPositive(s: string, c: char)
    ensures Count(s, c) > 0 <==> c in s
  {
    if |s| > 0 {
      CountPositive(s[1..], c);
      assert s == [s[0]] + s[1..];
    }
  }

  /** `parts.join(sep)`: the parts with one separator between neighbours. */
  function Join(parts: seq<string>, sep: char): (s: string)
  {
    if |parts| == 0 then ""
    else if |parts| == 1 then parts[0]
    else parts[0] + [sep] + Join(parts[1..], sep)
  }

  /** `s.split(sep)`: the maximal separator-free pieces of `s`, in order.
      An empty string splits into one empty piece, and a string with `k`
      separators into `k + 1` pieces. */
  function Split(s: string, sep: char): (parts: seq<string>)
    ensures |parts| == Count(s, sep) + 1
  {
    if |s| == 0 then [""]
    else
      var rest := Split(s[1..], sep);
      if s[0] == sep then
        assert s == [sep] + s[1..];
        [""] + rest
      else
        assert s == [s[0]] + s[1..];
        [[s[0]] + rest[0]] + rest[1..]
  }

  /** One step of `Split`: how the first character of a string joins the
      pieces of the remainder. */
  lemma SplitCons(c: char, t: string, sep: char)
    ensures Split([c] + t, sep) ==
      (if c == sep then [""] + Split(t, sep)
       else [[c] + Split(t, sep)[0]] + Split(t, sep)[1..])
  {
  }

  /** No piece contains the separator. */
  lemma {:induction false} SplitPiecesSeparatorFree(s: string, sep: char)
    ensures forall i :: 0 <= i < |Split(s, sep)| ==> sep !in Split(s, sep)[i]
  {
    if |s| > 0 {
      var rest := Split(s[1..], sep);
      SplitPiecesSeparatorFree(s[1..], sep);
      assert s == [s[0]] + s[1..];
      SplitCons(s[0], s[1..], sep);
      if s[0] != sep {
        assert sep !in [s[0]] + rest[0];
      }
    }
  }

  /** `Join` undoes `Split`: the pieces and the separators between them
      spell out the original string. */
  lemma {:induction false} JoinSplit(s: string, sep: char)
    ensures Join(Split(s, sep), sep) == s
  {
    if |s| > 0 {
      var c, rest := s[0], Split(s[1..], sep);
      JoinSplit(s[1..], sep);
      assert s == [c] + s[1..];
      SplitCons(c, s[1..], sep);
      if c == sep {
        assert ([""] + rest)[1..] == rest;
      } else if |rest| > 1 {
        assert ([[c] + rest[0]] + rest[1..])[1..] == rest[1..];
      }
    }
  }

  /** A character absent from `s` is absent from every piece of `s`. */
  lemma {:induction false} PiecesAvoid(s: string, sep: char, c: char)
    requires c !in s
    ensures forall i :: 0 <= i < |Split(s, sep)| ==> c !in Split(s, sep)[i]
  {
    if |s| > 0 {
      var rest := Split(s[1..], sep);
      assert s == [s[0]] + s[1..];
      PiecesAvoid(s[1..], sep, c);
      SplitCons(s[0], s[1..], sep);
      if s[0] != sep {
        assert c !in [s[0]] + rest[0];
      }
    }
  }

  /** A string without the separator is a single piece. */
  lemma SplitNoSeparator(x: string, sep: char)
    requires sep !in x
    ensures Split(x, sep) == [x]
  {
    CountPositive(x, sep);
    JoinSplit(x, sep);
  }

  /** Splitting distributes over a separator: the pieces of `x + sep + y`
      are the pieces of `x` followed by the pieces of `y`. */
  lemma {:induction false} SplitAtSeparator(x: string, y: string, sep: char)
    ensures Split(x + [sep] + y, sep) == Split(x, sep) + Split(y, sep)
  {
    if |x| == 0 {
      assert x + [sep] + y == [sep] + y;
      SplitCons(sep, y, sep);
    } else {
      var c, t := x[0], x[1..];
      assert x + [sep] + y == [c] + (t + [sep] + y);
      assert x == [c] + t;
      SplitAtSeparator(t, y, sep);
      SplitConsAppend(c, t, t + [sep] + y, Split(y, sep), sep);
    }
  }

  /** The inductive step of `SplitAtSeparator`: when the pieces
      of `u` are the pieces of `t` followed by `tail`, prefixing both strings
      with `c` keeps that relation. */
  lemma SplitConsAppend(c: char, t: string, u: string, tail: seq<string>, sep: char)
    requires Split(u, sep) == Split(t, sep) + tail
    ensures Split([c] + u, sep) == Split([c] + t, sep) + tail
  {
    var rt := Split(t, sep);
    SplitCons(c, u, sep);
    SplitCons(c, t, sep);
    if c != sep {
      ConsFirstPiece([c], rt, tail);
    } else {
      assert [""] + (rt + tail) == [""] + rt + tail;
    }
  }

  /** Sequence bookkeeping for `SplitConsAppend`: gluing `p` onto the first
      piece commutes with appending further pieces. */
  lemma ConsFirstPiece(p: string, rt: seq<string>, tail: seq<string>)
    requires |rt| >= 1
    ensures [p + (rt + tail)[0]] + (rt + tail)[1..] == [p + rt[0]] + rt[1..] + tail
  {
  }

  /** A separator-free prefix is glued onto the first piece of the rest. */
  lemma {:induction false} SplitSeparatorFreePrefix(x: string, y: string, sep: char)
    requires sep !in x
    ensures Split(x + y, sep) == [x + Split(y, sep)[0]] + Split(y, sep)[1..]
  {
    var ry := Split(y, sep);
    if |x| == 0 {
      assert x + y == y;
      assert x + ry[0] == ry[0];
      assert [ry[0]] + ry[1..] == ry;
    } else {
      var c, t := x[0], x[1..];
      assert x == [c] + t;
      assert x + y == [c] + (t + y);
      SplitSeparatorFreePrefix(t, y, sep);
      SplitCons(c, t + y, sep);
      assert [c] + (t + ry[0]) == x + ry[0];
    }
  }

  /** `Split` inverts `Join`: separator-free pieces are recovered exactly.
      Together with `JoinSplit`, this
      makes `Split` the unique separator-free decomposition of a string. */
  lemma {:induction false} SplitJoin(parts: seq<string>, sep: char)
    requires |parts| >= 1
    requires forall i :: 0 <= i < |parts| ==> sep !in parts[i]
    ensures Split(Join(parts, sep), sep) == parts
  {
    if |parts| == 1 {
      SplitNoSeparator(parts[0], sep);
      assert parts == [parts[0]];
    } else {
      SplitJoin(parts[1..], sep);
      SplitNoSeparator(parts[0], sep);
      SplitAtSeparator(parts[0], Join(parts[1..], sep), sep);
      assert [parts[0]] + parts[1..] == parts;
    }
  }

  /** Separator-free leading pieces survive a round trip through `Join`
      followed by more text. */
  lemma LeadingPieces(parts: seq<string>, q: string, sep: char)
    requires |parts| >= 1
    requires forall i :: 0 <= i < |parts| ==> sep !in parts[i]
    ensures Split(Join(parts, sep) + [sep] + q, sep) == parts + Split(q, sep)
  {
    SplitAtSeparator(Join(parts, sep), q, sep);
    SplitJoin(parts, sep);
  }
}
