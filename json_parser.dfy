/**
  json/parser.go: the plain Parser.  Its ParseFromString hands the text to
  the decoder as it is, with no comment stripping; its lookups are the
  shared resolver of module Resolver, reading the parsed root.

  json.Unmarshal is outside the model: each parsing method takes the decoder
  as a function `unmarshal` from the text to the tree it decodes to, or to
  the error it reports.
 */
module JsonParser {
  import opened JsonValue
  import opened Strings
  import Resolver

  class Parser {
    var FileName: string
    var rootObject: Json

    /** NewParser: a Parser with nothing parsed yet, so a nil root. */
    constructor()
      ensures FileName == [] && rootObject == Null
    {
      FileName := [];
      rootObject := Null;
    }

    /** NewParserFromString: a fresh Parser holding the decoded text, or no
        Parser at all and the decoder's error. */
    static method NewParserFromString(s: string, unmarshal: string -> Result<Json>)
      returns (parser: Parser?, err: Option<Error>)
      ensures unmarshal(s).Ok? ==>
                parser != null && fresh(parser) && parser.rootObject == unmarshal(s).value
                && parser.FileName == [] && err == None
      ensures unmarshal(s).Err? ==> parser == null && err == Some(unmarshal(s).error)
    {
      parser := new Parser();
      err := parser.ParseFromString(s, unmarshal);
      if err.Some? {
        parser := null;
      }
    }

    /** ParseFromBytes: json.Unmarshal into the root. */
    method ParseFromBytes(source: string, unmarshal: string -> Result<Json>) returns (err: Option<Error>)
      modifies this`rootObject
      ensures UnmarshalInto(unmarshal(source), old(rootObject), rootObject, err)
    {
      match unmarshal(source)
      case Ok(v) =>
        rootObject := v;
        err := None;
      case Err(e) =>
        err := Some(e);
    }

    /** ParseFromString: the text goes to the decoder unchanged. */
    method ParseFromString(source: string, unmarshal: string -> Result<Json>) returns (err: Option<Error>)
      modifies this`rootObject
      ensures UnmarshalInto(unmarshal(source), old(rootObject), rootObject, err)
    {
      err := ParseFromBytes(source, unmarshal);
    }

    /** getKeyObjectFromObject: one step of the walk. */
    function getKeyObjectFromObject(key: string, obj: Json): (r: Result<Json>)
      ensures r == Resolver.KeyObject(key, obj)
      ensures r.Ok? && obj.Obj? ==> key in obj.fields && r.value == obj.fields[key]
      ensures r.Ok? && !obj.Obj? ==> r.value == Str("")
    {
      Resolver.KeyObject(key, obj)
    }

    /** getPathObjectFromObject. */
    method getPathObjectFromObject(paths: seq<string>, rootObj: Json) returns (r: Result<Json>)
      ensures r == Resolver.ResolvePath(paths, rootObj)
    {
      r := Resolver.WalkPath(paths, rootObj);
    }

    /** GetKeyObjectByPaths: the walk from the parsed root. */
    method GetKeyObjectByPaths(paths: seq<string>) returns (r: Result<Json>)
      ensures r == Resolver.ResolvePath(paths, rootObject)
    {
      r := getPathObjectFromObject(paths, rootObject);
    }

    /** GetKeyStringByPaths: the walk, then the leaf as a string. */
    method GetKeyStringByPaths(paths: seq<string>) returns (r: Result<string>)
      ensures r == Resolver.KeyStringByPaths(paths, rootObject)
    {
      var keyObj := getPathObjectFromObject(paths, rootObject);
      if keyObj.Err? {
        return Err(keyObj.error);
      }
      r := Resolver.LeafString(paths, keyObj.value);
    }

    /** GetKeyObjectByPath: split on "/", then GetKeyObjectByPaths.  Split
        never returns an empty list, so the "Path is null" error cannot
        happen. */
    method GetKeyObjectByPath(path: string) returns (r: Result<Json>)
      ensures r == Resolver.KeyObjectByPath(path, rootObject)
    {
      var paths := Split(path, Resolver.PathSep);
      assert |paths| > 0;
      r := GetKeyObjectByPaths(paths);
    }

    /** GetKeyStringByPath: split on "/", then GetKeyStringByPaths. */
    method GetKeyStringByPath(path: string) returns (r: Result<string>)
      ensures r == Resolver.KeyStringByPath(path, rootObject)
    {
      var paths := Split(path, Resolver.PathSep);
      assert |paths| > 0;
      r := GetKeyStringByPaths(paths);
    }
  }
}
