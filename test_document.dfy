/**
  The document that json/pointer_test.go and config/parser_test.go load, and
  what the resolver answers about it.  The decoder is outside the model, so
  the document is given both as the test text and as the tree that
  encoding/json decodes it to.
 */
module TestDocument {
  import opened JsonValue
  import opened Strings
  import opened Resolver
  import CommentStrip

  /** The lines of TEST_CONFIG. */
  const TextLines: seq<string> := [
    "{",
    "    \"organizer\": {",
    "        \"name\": \"John Smith\",",
    "        \"age\": 33",
    "    }",
    "}"
  ]

  /** TEST_CONFIG: its six lines, each followed by "\n". */
  const Text: string := CommentStrip.Terminated(TextLines)

  lemma TextLinesAreKept()
    ensures forall i :: 0 <= i < |TextLines| ==>
              CommentStrip.Kept(TextLines[i]) && '\n' !in TextLines[i]
  {
  }

  /** TEST_CONFIG has no blank line and no "#", so stripping leaves it as it
      is: the plain Parser and the stripping loaders hand the decoder the
      same text. */
  lemma StripLeavesText()
    ensures CommentStrip.Strip(Text) == Text
  {
    TextLinesAreKept();
    CommentStrip.StripOfTerminated(TextLines);
  }

  /** The "organizer" object of TEST_CONFIG, decoded. */
  const Organizer: Json :=
    Obj(map["name" := Str("John Smith"), "age" := Num(Float64("33"))])

  /** TEST_CONFIG, decoded. */
  const Tree: Json := Obj(map["organizer" := Organizer])

  /** The simple document of TestLoadingSimplePointer / TestLoadingSimpleParser,
      decoded: {"name": "John Smith"}. */
  const SimpleTree: Json := Obj(map["name" := Str("John Smith")])

  /** The simple document of TestLoadingSimplePointer, TestLoadingSimpleParser
      and TestLoadingSimpleConfig, as text. */
  const SimpleText: string := "{\n\"name\": \"John Smith\"}"

  /** The headers config/config_test.go puts in front of TEST_CONFIG. */
  predicate TestHeader(header: string) {
    header == "####\n" || header == "####\n####\n" || header == " ####\n"
    || header == "\n" || header == "\n\n" || header == "####\n\n"
  }

  /** Each of those headers strips away entirely. */
  lemma TestHeaderStripsAway(header: string, doc: string)
    requires TestHeader(header)
    ensures CommentStrip.Strip(header + doc) == CommentStrip.Strip(doc)
  {
    CommentStrip.StripIgnoresCommentHeaders(doc);
    CommentStrip.StripIgnoresBlankHeaders(doc);
    CommentStrip.StripIgnoresCommentAndBlankHeader(doc);
  }

  lemma SplitAroundSlash(first: string, second: string)
    requires '/' !in first && '/' !in second
    ensures Split(first + ['/'] + second, '/') == [first, second]
  {
    SplitAppend(first, second, '/');
    SplitWithoutSeparator(first, '/');
    SplitWithoutSeparator(second, '/');
  }

  /** "organizer/<key>" splits into its two segments. */
  lemma SplitOrganizerPath(key: string)
    requires '/' !in key
    ensures Split("organizer/" + key, '/') == ["organizer", key]
  {
    assert '/' !in "organizer";
    SplitAroundSlash("organizer", key);
    assert "organizer" + ['/'] + key == "organizer/" + key;
  }

  lemma NameLookup()
    ensures KeyStringByPath("organizer/name", Tree) == Ok("John Smith")
  {
    assert KeyStringByPaths(["organizer", "name"], Tree) == Ok("John Smith");
    SplitOrganizerPath("name");
    assert "organizer/" + "name" == "organizer/name";
  }

  lemma AgeLookup()
    ensures KeyStringByPath("organizer/age", Tree) == Ok("33")
  {
    assert KeyStringByPaths(["organizer", "age"], Tree) == Ok("33");
    SplitOrganizerPath("age");
    assert "organizer/" + "age" == "organizer/age";
  }

  lemma MissingLookup()
    ensures KeyStringByPath("organizer/missing", Tree) == Err(KeyNotFound("missing"))
  {
    assert KeyStringByPaths(["organizer", "missing"], Tree) == Err(KeyNotFound("missing"));
    SplitOrganizerPath("missing");
    assert "organizer/" + "missing" == "organizer/missing";
  }

  /** A path without "/" is a single segment. */
  lemma SingleSegment(key: string, root: Json)
    requires '/' !in key
    ensures KeyObjectByPath(key, root) == ResolvePath([key], root)
    ensures KeyStringByPath(key, root) == KeyStringByPaths([key], root)
  {
    SplitWithoutSeparator(key, '/');
  }

  lemma OrganizerObjectLookup()
    ensures KeyObjectByPath("organizer", Tree) == Ok(Organizer)
  {
    assert '/' !in "organizer";
    SingleSegment("organizer", Tree);
    assert ResolvePath(["organizer"], Tree) == Ok(Organizer);
  }

  /** The string lookup of an object reports the whole path, with a leading
      "/". */
  lemma OrganizerSegmentIsNotString()
    ensures KeyStringByPaths(["organizer"], Tree) == Err(KeyTypeInvalid("/organizer"))
  {
    assert ResolvePath(["organizer"], Tree) == Ok(Organizer);
    assert ['/'] + Join(["organizer"], '/') == "/organizer";
  }

  lemma OrganizerIsOneSegment()
    ensures Split("organizer", '/') == ["organizer"]
  {
    assert '/' !in "organizer";
    SplitWithoutSeparator("organizer", '/');
  }

  lemma OrganizerStringLookupFails()
    ensures KeyStringByPath("organizer", Tree) == Err(KeyTypeInvalid("/organizer"))
  {
    OrganizerSegmentIsNotString();
    OrganizerIsOneSegment();
  }

  /** What CheckPointerMembers / CheckParserMembers expect, plus the error
      cases of the same document. */
  lemma OrganizerLookups()
    ensures KeyStringByPath("organizer/name", Tree) == Ok("John Smith")
    ensures KeyStringByPath("organizer/age", Tree) == Ok("33")
    ensures KeyStringByPath("organizer/missing", Tree) == Err(KeyNotFound("missing"))
    ensures KeyObjectByPath("organizer", Tree) == Ok(Organizer)
    ensures KeyStringByPath("organizer", Tree) == Err(KeyTypeInvalid("/organizer"))
  {
    NameLookup();
    AgeLookup();
    MissingLookup();
    OrganizerObjectLookup();
    OrganizerStringLookupFails();
  }

  lemma SplitAroundTwoSlashes(first: string, second: string, third: string)
    requires '/' !in first && '/' !in second && '/' !in third
    ensures Split(first + ['/'] + second + ['/'] + third, '/') == [first, second, third]
  {
    SplitAppend(first + ['/'] + second, third, '/');
    SplitAroundSlash(first, second);
    SplitWithoutSeparator(third, '/');
  }

  lemma PastNameSpelled()
    ensures "organizer/name/x" == "organizer" + ['/'] + "name" + ['/'] + "x"
    ensures '/' !in "organizer" && '/' !in "name" && '/' !in "x"
  {
  }

  lemma SplitPastName()
    ensures Split("organizer/name/x", '/') == ["organizer", "name", "x"]
  {
    PastNameSpelled();
    SplitAroundTwoSlashes("organizer", "name", "x");
  }

  lemma NameResolves()
    ensures ResolvePath(["organizer", "name"], Tree) == Ok(Str("John Smith"))
  {
  }

  lemma SegmentsPastString()
    ensures KeyStringByPaths(["organizer", "name", "x"], Tree) == Ok("")
  {
    var prefix := ["organizer", "name"];
    NameResolves();
    ResolvePastScalar(prefix, ["x"], Tree, Str("John Smith"));
    assert prefix + ["x"] == ["organizer", "name", "x"];
  }

  /** The quirk on the test document: a path that goes on past the string
      "John Smith" is not an error and yields "". */
  lemma PathPastStringYieldsEmpty()
    ensures KeyStringByPath("organizer/name/x", Tree) == Ok("")
  {
    SplitPastName();
    SegmentsPastString();
  }

  lemma DocumentedPathSpelled()
    ensures "/organizer/name" == [] + ['/'] + "organizer" + ['/'] + "name"
    ensures '/' !in "organizer" && '/' !in "name"
  {
  }

  lemma SplitDocumentedPath()
    ensures Split("/organizer/name", '/') == ["", "organizer", "name"]
  {
    DocumentedPathSpelled();
    SplitAroundTwoSlashes([], "organizer", "name");
  }

  /** The path of the package documentation, "/organizer/name", does not
      find the name: its first segment is the empty key. */
  lemma DocumentedPathIsNotFound()
    ensures KeyStringByPath("/organizer/name", Tree) == Err(KeyNotFound(""))
  {
    SplitDocumentedPath();
    assert ResolvePath(["", "organizer", "name"], Tree) == Err(KeyNotFound(""));
  }

  /** TestLoadingSimplePointer / TestLoadingSimpleParser. */
  lemma SimpleLookup()
    ensures KeyStringByPath("name", SimpleTree) == Ok("John Smith")
  {
    assert '/' !in "name";
    SingleSegment("name", SimpleTree);
  }
}
