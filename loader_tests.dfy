/**
  The repository's tests, as client methods: each loads a document through
  one of the classes and reads values back.  The decoder is a parameter, so
  each method states as its precondition what encoding/json makes of the
  text it is given.  TEST_CONFIG strips to itself (StripLeavesText), so every
  loader of it assumes the same of the decoder: that it decodes TEST_CONFIG
  to Tree.
 */
module LoaderTests {
  import opened JsonValue
  import opened TestDocument
  import CommentStrip
  import JsonParser
  import JsonPointer
  import Jpath
  import CommentedConfig

  /** ParseParserTest with CheckParserMembers: the plain Parser decodes
      TEST_CONFIG as it is. */
  method ParseParserTest(unmarshal: string -> Result<Json>) returns (name: Result<string>, age: Result<string>)
    requires unmarshal(Text) == Ok(Tree)
    ensures name == Ok("John Smith") && age == Ok("33")
  {
    var parser := new JsonParser.Parser();
    var err := parser.ParseFromString(Text, unmarshal);
    OrganizerLookups();
    name := parser.GetKeyStringByPath("organizer/name");
    age := parser.GetKeyStringByPath("organizer/age");
  }

  /** TestLoadingSimpleParser. */
  method SimpleParserTest(unmarshal: string -> Result<Json>) returns (value: Result<string>)
    requires unmarshal(SimpleText) == Ok(SimpleTree)
    ensures value == Ok("John Smith")
  {
    var parser := new JsonParser.Parser();
    var err := parser.ParseFromString(SimpleText, unmarshal);
    SimpleLookup();
    value := parser.GetKeyStringByPath("name");
  }

  /** ParsePointerTest with CheckPointerMembers: the Pointer decodes
      TEST_CONFIG once stripped. */
  method ParsePointerTest(unmarshal: string -> Result<Json>) returns (name: Result<string>, age: Result<string>)
    requires unmarshal(Text) == Ok(Tree)
    ensures name == Ok("John Smith") && age == Ok("33")
  {
    StripLeavesText();
    var pointer := new JsonPointer.Pointer();
    var err := pointer.ParseFromString(Text, unmarshal);
    OrganizerLookups();
    name := pointer.GetKeyStringByPath("organizer/name");
    age := pointer.GetKeyStringByPath("organizer/age");
  }

  /** TestLoadingSimplePointer. */
  method SimplePointerTest(unmarshal: string -> Result<Json>) returns (value: Result<string>)
    requires unmarshal(CommentStrip.Strip(SimpleText)) == Ok(SimpleTree)
    ensures value == Ok("John Smith")
  {
    var pointer := new JsonPointer.Pointer();
    var err := pointer.ParseFromString(SimpleText, unmarshal);
    SimpleLookup();
    value := pointer.GetKeyStringByPath("name");
  }

  /** The same checks through the `...ByXPath` entry points of the jpath
      Config. */
  method ParseJpathConfigTest(unmarshal: string -> Result<Json>) returns (name: Result<string>, age: Result<string>)
    requires unmarshal(Text) == Ok(Tree)
    ensures name == Ok("John Smith") && age == Ok("33")
  {
    StripLeavesText();
    var config := new Jpath.Config();
    var err := config.ParseFromString(Text, unmarshal);
    OrganizerLookups();
    name := config.GetKeyStringByXPath("organizer/name");
    age := config.GetKeyStringByXPath("organizer/age");
  }

  /** ParseConfigTest of config/config_test.go, for each header its tests put
      in front of TEST_CONFIG: the headers strip away, and the embedded
      Parser answers as for TEST_CONFIG alone. */
  method ParseConfigTest(header: string, unmarshal: string -> Result<Json>)
    returns (name: Result<string>, age: Result<string>)
    requires TestHeader(header)
    requires unmarshal(Text) == Ok(Tree)
    ensures name == Ok("John Smith") && age == Ok("33")
  {
    StripLeavesText();
    var config := new CommentedConfig.Config();
    TestHeaderStripsAway(header, Text);
    var err := config.ParseFromString(header + Text, unmarshal);
    OrganizerLookups();
    name := config.Parser.GetKeyStringByPath("organizer/name");
    age := config.Parser.GetKeyStringByPath("organizer/age");
  }
}
