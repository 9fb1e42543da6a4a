/**
  The comment and blank-line stripper that json/pointer.go,
  src/config/jpath/config.go and config/config.go each run in their
  ParseFromString before decoding.

  The source text is split on "\n"; a line of length zero is dropped, a line
  containing "#" anywhere is dropped whole (even when the "#" sits inside a
  JSON string value), and every other line is written out, in order, followed
  by "\n".
 */
module CommentStrip {
  import opened Strings

  const LineSep: char := '\n'
  const Comment: char := '#'

  /** The lines the stripper keeps: non-empty and free of the comment marker. */
  predicate Kept(line: string) {
    |line| > 0 && Comment !in line
  }

  /** The kept lines, in their original order. */
  function KeptLines(lines: seq<string>): (kept: seq<string>)
    ensures |kept| <= |lines|
    ensures forall i :: 0 <= i < |kept| ==> Kept(kept[i])
    ensures forall l :: l in kept ==> l in lines
    decreases |lines|
  {
    if lines == [] then []
    else (if Kept(lines[0]) then [lines[0]] else []) + KeptLines(lines[1..])
  }

  /** Each line followed by "\n", concatenated. */
  function Terminated(lines: seq<string>): string
    decreases |lines|
  {
    if lines == [] then [] else lines[0] + [LineSep] + Terminated(lines[1..])
  }

  /** The text ParseFromString hands to the decoder. */
  function Strip(source: string): string {
    Terminated(KeptLines(Split(source, LineSep)))
  }

  /** The loop of ParseFromString that fills the bytes.Buffer. */
  method StripComments(source: string) returns (stripped: string)
    ensures stripped == Strip(source)
  {
    var lines := Split(source, LineSep);
    stripped := [];
    for i := 0 to |lines|
      invariant stripped == Terminated(KeptLines(lines[..i]))
    {
      var line := lines[i];
      assert lines[..i + 1] == lines[..i] + [line];
      KeptLinesAppend(lines[..i], [line]);
      assert KeptLines([line]) == if Kept(line) then [line] else [];
      if |line| <= 0 {
        assert KeptLines(lines[..i + 1]) == KeptLines(lines[..i]);
        continue;
      }
      var commentIdx := Index(line, Comment);
      if 0 <= commentIdx {
        assert KeptLines(lines[..i + 1]) == KeptLines(lines[..i]);
        continue;
      }
      assert Kept(line);
      TerminatedAppend(KeptLines(lines[..i]), [line]);
      assert Terminated([line]) == line + [LineSep] + Terminated([]);
      assert Terminated(KeptLines(lines[..i + 1])) == stripped + (line + [LineSep]);
      stripped := stripped + (line + [LineSep]);
    }
    assert lines[..|lines|] == lines;
  }

  // ---------------------------------------------------------------------
  // Algebra of the two building blocks.

  lemma {:induction false} KeptLinesAppend(a: seq<string>, b: seq<string>)
    ensures KeptLines(a + b) == KeptLines(a) + KeptLines(b)
    decreases |a|
  {
    if a != [] {
      KeptLinesAppend(a[1..], b);
      assert (a + b)[0] == a[0] && (a + b)[1..] == a[1..] + b;
    } else {
      assert a + b == b;
    }
  }

  lemma {:induction false} TerminatedAppend(a: seq<string>, b: seq<string>)
    ensures Terminated(a + b) == Terminated(a) + Terminated(b)
    decreases |a|
  {
    if a != [] {
      TerminatedAppend(a[1..], b);
      assert (a + b)[0] == a[0] && (a + b)[1..] == a[1..] + b;
    } else {
      assert a + b == b;
    }
  }

  /** Lines that are all kept are kept as they are. */
  lemma {:induction false} KeptLinesOfKept(lines: seq<string>)
    requires forall i :: 0 <= i < |lines| ==> Kept(lines[i])
    ensures KeptLines(lines) == lines
    decreases |lines|
  {
    if lines != [] {
      KeptLinesOfKept(lines[1..]);
    }
  }

  /** A character that no line holds, other than "\n", is absent from the
      terminated text. */
  lemma {:induction false} TerminatedAvoids(lines: seq<string>, c: char)
    requires c != LineSep
    requires forall i :: 0 <= i < |lines| ==> c !in lines[i]
    ensures c !in Terminated(lines)
    decreases |lines|
  {
    if lines != [] {
      TerminatedAvoids(lines[1..], c);
    }
  }

  /** Splitting terminated lines on "\n" gives the lines back, followed by the
      empty piece after the last "\n". */
  lemma {:induction false} SplitTerminated(lines: seq<string>)
    requires forall i :: 0 <= i < |lines| ==> LineSep !in lines[i]
    ensures Split(Terminated(lines), LineSep) == lines + [[]]
    decreases |lines|
  {
    if lines == [] {
    } else {
      SplitTerminated(lines[1..]);
      SplitAppend(lines[0], Terminated(lines[1..]), LineSep);
      SplitWithoutSeparator(lines[0], LineSep);
      assert [lines[0]] + (lines[1..] + [[]]) == lines + [[]];
    }
  }

  // ---------------------------------------------------------------------
  // What the stripped text looks like.

  /** The stripped text never contains the comment marker. */
  lemma StripHasNoComment(source: string)
    ensures Comment !in Strip(source)
  {
    TerminatedAvoids(KeptLines(Split(source, LineSep)), Comment);
  }

  /** The stripped text is empty or ends with "\n". */
  lemma {:induction false} TerminatedEndsWithNewline(lines: seq<string>)
    ensures var t := Terminated(lines); t == [] || t[|t| - 1] == LineSep
    decreases |lines|
  {
    if lines != [] {
      TerminatedEndsWithNewline(lines[1..]);
    }
  }

  lemma StripEndsWithNewline(source: string)
    ensures var t := Strip(source); t == [] || t[|t| - 1] == LineSep
  {
    TerminatedEndsWithNewline(KeptLines(Split(source, LineSep)));
  }

  /** The lines of the stripped text are exactly the kept lines of the source,
      in order, then the empty piece after the final "\n": so apart from that
      piece it has no empty line and no line with a comment marker. */
  lemma StripLines(source: string)
    ensures Split(Strip(source), LineSep) == KeptLines(Split(source, LineSep)) + [[]]
    ensures var out := Split(Strip(source), LineSep);
            forall i :: 0 <= i < |out| - 1 ==> Kept(out[i])
  {
    var kept := KeptLines(Split(source, LineSep));
    SplitPiecesAvoidSeparator(source, LineSep);
    forall i | 0 <= i < |kept| ensures LineSep !in kept[i] {
      assert kept[i] in Split(source, LineSep);
    }
    SplitTerminated(kept);
  }

  /** Text made of kept lines, each ended by "\n", is left as it is. */
  lemma StripOfTerminated(lines: seq<string>)
    requires forall i :: 0 <= i < |lines| ==> Kept(lines[i]) && LineSep !in lines[i]
    ensures Strip(Terminated(lines)) == Terminated(lines)
  {
    SplitTerminated(lines);
    KeptLinesAppend(lines, [[]]);
    KeptLinesOfKept(lines);
    assert KeptLines([[]]) == [];
    assert lines + [] == lines;
  }

  /** Stripping is idempotent. */
  lemma StripIdempotent(source: string)
    ensures Strip(Strip(source)) == Strip(source)
  {
    var kept := KeptLines(Split(source, LineSep));
    StripLines(source);
    KeptLinesAppend(kept, [[]]);
    KeptLinesOfKept(kept);
    assert KeptLines([[]]) == [];
    assert kept + [] == kept;
  }

  /** Stripping distributes over joining two texts with "\n". */
  lemma StripConcat(a: string, b: string)
    ensures Strip(a + [LineSep] + b) == Strip(a) + Strip(b)
  {
    SplitAppend(a, b, LineSep);
    KeptLinesAppend(Split(a, LineSep), Split(b, LineSep));
    TerminatedAppend(KeptLines(Split(a, LineSep)), KeptLines(Split(b, LineSep)));
  }

  /** A dropped line in front of a document changes nothing. */
  lemma StripDropsLine(line: string, doc: string)
    requires !Kept(line) && LineSep !in line
    ensures Strip(line + [LineSep] + doc) == Strip(doc)
  {
    StripConcat(line, doc);
    SplitWithoutSeparator(line, LineSep);
  }

  /** A kept line in front of a document survives, followed by "\n". */
  lemma StripKeepsLine(line: string, doc: string)
    requires Kept(line) && LineSep !in line
    ensures Strip(line + [LineSep] + doc) == line + [LineSep] + Strip(doc)
  {
    StripConcat(line, doc);
    SplitWithoutSeparator(line, LineSep);
    assert KeptLines([line]) == [line];
    assert Terminated([line]) == line + [LineSep];
  }

  /** Any number of comment lines and blank lines, in any order, in front of a
      document change nothing. */
  lemma {:induction false} StripDropsHeader(header: seq<string>, doc: string)
    requires forall i :: 0 <= i < |header| ==> !Kept(header[i]) && LineSep !in header[i]
    ensures Strip(Terminated(header) + doc) == Strip(doc)
    decreases |header|
  {
    if header == [] {
      assert Terminated(header) + doc == doc;
    } else {
      StripDropsHeader(header[1..], doc);
      StripDropsLine(header[0], Terminated(header[1..]) + doc);
      assert Terminated(header) + doc == header[0] + [LineSep] + (Terminated(header[1..]) + doc);
    }
  }

  /** The comment headers of TestLoadingCommentedConfig in
      config/config_test.go: "####\n", "####\n####\n" and " ####\n". */
  lemma StripIgnoresCommentHeaders(doc: string)
    ensures Strip("####\n" + doc) == Strip(doc)
    ensures Strip("####\n####\n" + doc) == Strip(doc)
    ensures Strip(" ####\n" + doc) == Strip(doc)
  {
    assert "####"[0] == Comment && " ####"[1] == Comment;
    StripDropsLine("####", doc);
    assert "####\n" + doc == "####" + [LineSep] + doc;
    StripDropsLine("####", "####\n" + doc);
    assert "####\n####\n" + doc == "####" + [LineSep] + ("####\n" + doc);
    StripDropsLine(" ####", doc);
    assert " ####\n" + doc == " ####" + [LineSep] + doc;
  }

  /** A blank line in front of a document changes nothing. */
  lemma StripDropsBlankLine(doc: string)
    ensures Strip([LineSep] + doc) == Strip(doc)
  {
    StripDropsLine([], doc);
    assert [] + [LineSep] + doc == [LineSep] + doc;
  }

  /** The blank headers of TestLoadingBlankConfig: "\n" and "\n\n". */
  lemma StripIgnoresBlankHeaders(doc: string)
    ensures Strip("\n" + doc) == Strip(doc)
    ensures Strip("\n\n" + doc) == Strip(doc)
  {
    StripDropsBlankLine(doc);
    assert "\n" + doc == [LineSep] + doc;
    StripDropsBlankLine([LineSep] + doc);
    assert "\n\n" + doc == [LineSep] + ([LineSep] + doc);
  }

  /** The header of TestLoadingCommentAndBlankConfig: "####\n\n". */
  lemma StripIgnoresCommentAndBlankHeader(doc: string)
    ensures Strip("####\n\n" + doc) == Strip(doc)
  {
    assert "####"[0] == Comment;
    StripDropsBlankLine(doc);
    StripDropsLine("####", [LineSep] + doc);
    assert "####\n\n" + doc == "####" + [LineSep] + ([LineSep] + doc);
  }

  /** A "#" inside a JSON string value drops the whole line: this one-line
      document, valid JSON, strips to nothing. */
  lemma HashInStringValueDropsLine()
    ensures Strip("{\"color\": \"#ff0000\"}") == ""
  {
    var doc := "{\"color\": \"#ff0000\"}";
    assert doc[11] == '#';
    assert LineSep !in doc;
    SplitWithoutSeparator(doc, LineSep);
  }
}
