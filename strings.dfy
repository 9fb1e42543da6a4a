/**
  The three functions of Go's `strings` package the core relies on, for a
  one-character separator: Split, Join and Index.  Both separators the
  repository uses ("/" and "\n") and its comment marker ("#") are ASCII, so
  working on characters instead of UTF-8 bytes changes nothing.
 */
module Strings {

  /** strings.Split(s, string(sep)): the pieces of `s` between occurrences of
      `sep`.  The result is never empty (see also SplitCount). */
  function Split(s: string, sep: char): (parts: seq<string>)
    ensures |parts| >= 1
    decreases |s|
  {
    if s == [] then [[]]
    else
      var tail := Split(s[1..], sep);
      if s[0] == sep then [[]] + tail
      else [[s[0]] + tail[0]] + tail[1..]
  }

  /** Number of occurrences of `c` in `s`. */
  function Count(s: string, c: char): nat
    decreases |s|
  {
    if s == [] then 0 else (if s[0] == c then 1 else 0) + Count(s[1..], c)
  }

  /** strings.Join(parts, string(sep)). */
  function Join(parts: seq<string>, sep: char): string
    decreases |parts|
  {
    if |parts| == 0 then []
    else if |parts| == 1 then parts[0]
    else parts[0] + [sep] + Join(parts[1..], sep)
  }

  /** strings.Index(s, string(c)): the first position of `c`, or -1. */
  function Index(s: string, c: char): (i: int)
    ensures -1 <= i < |s|
    ensures i == -1 <==> c !in s
    ensures 0 <= i ==> s[i] == c && c !in s[..i]
    decreases |s|
  {
    if s == [] then -1
    else if s[0] == c then 0
    else
      var j := Index(s[1..], c);
      assert s[1..][..if j < 0 then 0 else j] == s[1..if j < 0 then 1 else j + 1];
      if j < 0 then -1 else j + 1
  }

  /** There is one piece more than there are separators. */
  lemma {:induction false} SplitCount(s: string, sep: char)
    ensures |Split(s, sep)| == Count(s, sep) + 1
    decreases |s|
  {
    if s != [] {
      SplitCount(s[1..], sep);
    }
  }

  /** No piece contains the separator. */
  lemma {:induction false} SplitPiecesAvoidSeparator(s: string, sep: char)
    ensures forall i :: 0 <= i < |Split(s, sep)| ==> sep !in Split(s, sep)[i]
    decreases |s|
  {
    if s != [] {
      SplitPiecesAvoidSeparator(s[1..], sep);
      var tail := Split(s[1..], sep);
      if s[0] != sep {
        assert sep !in [s[0]] + tail[0];
      }
    }
  }

  /** A piece without the separator splits to itself. */
  lemma {:induction false} SplitWithoutSeparator(s: string, sep: char)
    requires sep !in s
    ensures Split(s, sep) == [s]
    decreases |s|
  {
    if s != [] {
      SplitWithoutSeparator(s[1..], sep);
      assert [s[0]] + s[1..] == s;
    }
  }

  /** One step of Split: the first character either ends the first piece or
      joins it. */
  lemma SplitCons(c: char, rest: string, sep: char)
    ensures Split([c] + rest, sep) ==
              if c == sep then [[]] + Split(rest, sep)
              else [[c] + Split(rest, sep)[0]] + Split(rest, sep)[1..]
  {
    assert ([c] + rest)[0] == c && ([c] + rest)[1..] == rest;
  }

  /** The inductive step of SplitAppend: one more character in front. */
  lemma SplitAppendStep(a: string, b: string, sep: char)
    requires a != []
    requires Split(a[1..] + [sep] + b, sep) == Split(a[1..], sep) + Split(b, sep)
    ensures Split(a + [sep] + b, sep) == Split(a, sep) + Split(b, sep)
  {
    var rest := a[1..] + [sep] + b;
    assert a + [sep] + b == [a[0]] + rest;
    assert a == [a[0]] + a[1..];
    SplitConsAppend(a[0], a[1..], rest, Split(b, sep), sep);
  }

  /** Putting one character in front of two texts whose splits differ by a
      common tail keeps them differing by that tail. */
  lemma SplitConsAppend(c: char, x: string, y: string, tail: seq<string>, sep: char)
    requires Split(y, sep) == Split(x, sep) + tail
    ensures Split([c] + y, sep) == Split([c] + x, sep) + tail
  {
    SplitCons(c, y, sep);
    SplitCons(c, x, sep);
    if c == sep {
      SeqConsAppend([], Split(x, sep), tail);
    } else {
      var tx := Split(x, sep);
      assert Split(y, sep)[1..] == tx[1..] + tail;
      SeqConsAppend([c] + tx[0], tx[1..], tail);
    }
  }

  lemma SeqConsAppend(head: string, rest: seq<string>, tail: seq<string>)
    ensures [head] + (rest + tail) == ([head] + rest) + tail
  {
  }

  /** Splitting around one separator splits each side on its own. */
  lemma {:induction false} SplitAppend(a: string, b: string, sep: char)
    ensures Split(a + [sep] + b, sep) == Split(a, sep) + Split(b, sep)
    decreases |a|
  {
    if a == [] {
      SplitCons(sep, b, sep);
      assert a + [sep] + b == [sep] + b;
    } else {
      SplitAppend(a[1..], b, sep);
      SplitAppendStep(a, b, sep);
    }
  }

  /** Join undoes Split: splitting on a separator loses nothing. */
  lemma {:induction false} JoinSplit(s: string, sep: char)
    ensures Join(Split(s, sep), sep) == s
    decreases |s|
  {
    if s != [] {
      JoinSplit(s[1..], sep);
      var tail := Split(s[1..], sep);
      if s[0] == sep {
        assert Join([[]] + tail, sep) == [] + [sep] + Join(tail, sep);
      } else if |tail| == 1 {
        assert Join([[s[0]] + tail[0]], sep) == [s[0]] + tail[0];
      } else {
        var parts := [[s[0]] + tail[0]] + tail[1..];
        assert parts[1..] == tail[1..];
        assert Join(tail, sep) == tail[0] + [sep] + Join(tail[1..], sep);
      }
      assert [s[0]] + s[1..] == s;
    }
  }

  /** Split undoes Join, for pieces that do not contain the separator. */
  lemma {:induction false} SplitJoin(parts: seq<string>, sep: char)
    requires |parts| >= 1
    requires forall i :: 0 <= i < |parts| ==> sep !in parts[i]
    ensures Split(Join(parts, sep), sep) == parts
    decreases |parts|
  {
    SplitWithoutSeparator(parts[0], sep);
    if |parts| > 1 {
      SplitJoin(parts[1..], sep);
      SplitAppend(parts[0], Join(parts[1..], sep), sep);
      assert [parts[0]] + parts[1..] == parts;
    }
  }
}
