/** Character classes, and the whitespace tokenisation that turns an
    argument string into the words the external tool receives. */
module Text {

  predicate IsDigit(c: char)
  {
    '0' <= c <= '9'
  }

  predicate AllDigits(s: string)
  {
    forall i :: 0 <= i < |s| ==> IsDigit(s[i])
  }

  /** Splits `s` at every occurrence of `sep`, keeping empty pieces. */
  function Split(s: string, sep: char): (r: seq<string>)
    ensures |r| >= 1
    decreases |s|
  {
    if s == [] then [[]]
    else
      var rest := Split(s[1..], sep);
      if s[0] == sep then [[]] + rest
      else [[s[0]] + rest[0]] + rest[1..]
  }

  /** Glues pieces back together with `sep` between neighbours. */
  function Join(parts: seq<string>, sep: char): string
    requires |parts| >= 1
    decreases |parts|
  {
    if |parts| == 1 then parts[0] else parts[0] + [sep] + Join(parts[1..], sep)
  }

  /** Splitting loses nothing: joining the pieces gives the string back. */
  lemma {:induction false} JoinSplit(s: string, sep: char)
    ensures Join(Split(s, sep), sep) == s
    decreases |s|
  {
    if s != [] {
      var rest := Split(s[1..], sep);
      JoinSplit(s[1..], sep);
      if s[0] == sep {
        assert Split(s, sep)[1..] == rest;
      } else {
        if |rest| == 1 {
          assert Split(s, sep) == [[s[0]] + rest[0]];
        } else {
          assert Split(s, sep)[1..] == rest[1..];
          assert Join(rest, sep) == rest[0] + [sep] + Join(rest[1..], sep);
        }
      }
    }
  }

  /** A string without the separator is one piece. */
  lemma {:induction false} SplitNoSep(s: string, sep: char)
    requires sep !in s
    ensures Split(s, sep) == [s]
    decreases |s|
  {
    if s != [] {
      SplitNoSep(s[1..], sep);
      assert [s[0]] + s[1..] == s;
    }
  }

  /** Splitting distributes over a separator placed between two strings. */
  lemma SplitAppend(a: string, b: string, sep: char)
    ensures Split(a + [sep] + b, sep) == Split(a, sep) + Split(b, sep)
  {
    var t := [sep] + b;
    assert a + [sep] + b == a + t;
    SplitConcat(a, t, sep);
    assert t[0] == sep && t[1..] == b;
    assert Split(t, sep) == [[]] + Split(b, sep);
    var x := Split(a, sep);
    assert x[|x| - 1] + [] == x[|x| - 1];
    assert x[..|x| - 1] + [x[|x| - 1]] == x;
  }

  /** No piece contains the separator. */
  lemma {:induction false} SplitPiecesFree(s: string, sep: char)
    ensures forall k :: 0 <= k < |Split(s, sep)| ==> sep !in Split(s, sep)[k]
    decreases |s|
  {
    if s != [] {
      SplitPiecesFree(s[1..], sep);
    }
  }

  /** The pieces of `x + y` from those of `x` and of `y`: the last piece
      of `x` and the first of `y` run together. */
  function Fuse(x: seq<string>, y: seq<string>): (r: seq<string>)
    requires |x| >= 1 && |y| >= 1
    ensures |r| == |x| + |y| - 1
  {
    x[..|x| - 1] + [x[|x| - 1] + y[0]] + y[1..]
  }

  lemma FuseCons(h: string, x: seq<string>, y: seq<string>)
    requires |x| >= 1 && |y| >= 1
    ensures Fuse([h] + x, y) == [h] + Fuse(x, y)
  {
    assert ([h] + x)[..|x|] == [h] + x[..|x| - 1];
  }

  lemma FuseExtend(c: char, x: seq<string>, y: seq<string>)
    requires |x| >= 1 && |y| >= 1
    ensures Fuse([[c] + x[0]] + x[1..], y) == [[c] + Fuse(x, y)[0]] + Fuse(x, y)[1..]
  {
    if |x| == 1 {
      assert [c] + (x[0] + y[0]) == [c] + x[0] + y[0];
    } else {
      FuseCons([c] + x[0], x[1..], y);
      FuseCons(x[0], x[1..], y);
      assert [x[0]] + x[1..] == x;
    }
  }

  /** Splitting a concatenation fuses the pieces of its two parts. */
  lemma {:induction false} SplitConcat(a: string, b: string, sep: char)
    ensures Split(a + b, sep) == Fuse(Split(a, sep), Split(b, sep))
    decreases |a|
  {
    if a == [] {
      assert a + b == b;
      var sb := Split(b, sep);
      assert [] + sb[0] == sb[0];
      assert Fuse([[]], sb) == [sb[0]] + sb[1..] == sb;
    } else {
      assert (a + b)[1..] == a[1..] + b;
      SplitConcat(a[1..], b, sep);
      if a[0] == sep {
        FuseCons([], Split(a[1..], sep), Split(b, sep));
      } else {
        FuseExtend(a[0], Split(a[1..], sep), Split(b, sep));
      }
    }
  }

  /** Joining pieces free of the separator and splitting again gives the
      pieces back. */
  lemma {:induction false} SplitJoin(parts: seq<string>, sep: char)
    requires |parts| >= 1
    requires forall k :: 0 <= k < |parts| ==> sep !in parts[k]
    ensures Split(Join(parts, sep), sep) == parts
    decreases |parts|
  {
    SplitNoSep(parts[0], sep);
    if |parts| > 1 {
      SplitJoin(parts[1..], sep);
      SplitAppend(parts[0], Join(parts[1..], sep), sep);
      assert [parts[0]] + parts[1..] == parts;
    }
  }

  /** The non-empty pieces, in order. */
  function NonEmpty(parts: seq<string>): seq<string>
  {
    if parts == [] then []
    else if parts[0] == [] then NonEmpty(parts[1..])
    else [parts[0]] + NonEmpty(parts[1..])
  }

  /** Each kept piece is a non-empty piece of the input. */
  lemma {:induction false} NonEmptyPieces(parts: seq<string>)
    ensures forall w :: w in NonEmpty(parts) ==> w != [] && w in parts
    decreases |parts|
  {
    if parts != [] {
      NonEmptyPieces(parts[1..]);
    }
  }

  lemma {:induction false} NonEmptyAppend(x: seq<string>, y: seq<string>)
    ensures NonEmpty(x + y) == NonEmpty(x) + NonEmpty(y)
    decreases |x|
  {
    if x == [] {
      assert x + y == y;
    } else {
      var xy := x + y;
      assert xy[0] == x[0] && xy[1..] == x[1..] + y;
      NonEmptyAppend(x[1..], y);
      if x[0] != [] {
        assert NonEmpty(xy) == [x[0]] + (NonEmpty(x[1..]) + NonEmpty(y));
        assert NonEmpty(x) == [x[0]] + NonEmpty(x[1..]);
      }
    }
  }

  /** The words of an argument string: the maximal runs of non-space
      characters, in order, as a command line is tokenised. */
  function Words(s: string): seq<string>
  {
    NonEmpty(Split(s, ' '))
  }

  /** A word followed by a space and a rest contributes exactly itself. */
  lemma WordsCons(w: string, rest: string)
    requires w != [] && ' ' !in w
    ensures Words(w + " " + rest) == [w] + Words(rest)
  {
    SplitAppend(w, rest, ' ');
    SplitNoSep(w, ' ');
    NonEmptyAppend([w], Split(rest, ' '));
  }

  /** Three words, each followed by a space, before a rest. */
  lemma WordsCons3(w1: string, w2: string, w3: string, rest: string)
    requires w1 != [] && ' ' !in w1 && w2 != [] && ' ' !in w2 && w3 != [] && ' ' !in w3
    ensures Words(w1 + " " + w2 + " " + w3 + " " + rest) == [w1, w2, w3] + Words(rest)
  {
    var tail3 := w3 + " " + rest;
    var tail2 := w2 + " " + tail3;
    assert w1 + " " + w2 + " " + w3 + " " + rest == w1 + " " + tail2;
    WordsCons(w1, tail2);
    WordsCons(w2, tail3);
    WordsCons(w3, rest);
  }

  /** A single word with no space in it tokenises to itself. */
  lemma WordsSingle(w: string)
    requires w != [] && ' ' !in w
    ensures Words(w) == [w]
  {
    SplitNoSep(w, ' ');
    assert Words(w) == NonEmpty([w]);
    assert [w][1..] == [];
    assert NonEmpty([w]) == [w] + NonEmpty([]);
  }

  /** In a string of digits and spaces every word is a non-empty run of
      digits: no word can carry an option flag or a shell metacharacter. */
  lemma WordsOfDigitList(s: string)
    requires forall i :: 0 <= i < |s| ==> IsDigit(s[i]) || s[i] == ' '
    ensures forall w :: w in Words(s) ==> w != [] && AllDigits(w)
  {
    var parts := Split(s, ' ');
    NonEmptyPieces(parts);
    JoinSplit(s, ' ');
    SplitPiecesFree(s, ' ');
    forall k | 0 <= k < |parts|
      ensures AllDigits(parts[k])
    {
      PieceChars(parts, ' ', k);
    }
  }

  /** Every character of a piece occurs in the joined string. */
  lemma {:induction false} PieceChars(parts: seq<string>, sep: char, k: nat)
    requires |parts| >= 1 && k < |parts|
    ensures forall i :: 0 <= i < |parts[k]| ==> parts[k][i] in Join(parts, sep)
    decreases |parts|
  {
    if k > 0 {
      PieceChars(parts[1..], sep, k - 1);
    }
  }

  /** A string of spaces only has no words. */
  lemma {:induction false} SplitBlank(s: string)
    requires forall i :: 0 <= i < |s| ==> s[i] == ' '
    ensures Words(s) == []
    decreases |s|
  {
    if s != [] {
      SplitBlank(s[1..]);
      assert Split(s, ' ') == [[]] + Split(s[1..], ' ');
    }
  }
}
