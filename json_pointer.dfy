/**
  json/pointer.go: the Pointer.  Its ParseFromString strips comment lines
  and blank lines before decoding; its lookups are the shared resolver of
  module Resolver, reading the parsed root.

  json.Unmarshal is outside the model: each parsing method takes the decoder
  as a function `unmarshal` from the text to the tree it decodes to, or to
  the error it reports.
 */
module JsonPointer {
  import opened JsonValue
  import opened Strings
  import Resolver
  import CommentStrip

  class Pointer {
    var FileName: string
    var rootObject: Json

    /** NewPointer: a Pointer with nothing parsed yet, so a nil root. */
    constructor()
      ensures FileName == [] && rootObject == Null
    {
      FileName := [];
      rootObject := Null;
    }

    /** NewPointerFromString: a fresh Pointer holding the stripped and decoded
        text, or no Pointer at all and the decoder's error. */
    static method NewPointerFromString(s: string, unmarshal: string -> Result<Json>)
      returns (pointer: Pointer?, err: Option<Error>)
      ensures var d := unmarshal(CommentStrip.Strip(s));
              (d.Ok? ==> pointer != null && fresh(pointer) && pointer.rootObject == d.value
                         && pointer.FileName == [] && err == None)
              && (d.Err? ==> pointer == null && err == Some(d.error))
    {
      pointer := new Pointer();
      err := pointer.ParseFromString(s, unmarshal);
      if err.Some? {
        pointer := null;
      }
    }

    /** ParseFromString: strip, then json.Unmarshal into the root. */
    method ParseFromString(source: string, unmarshal: string -> Result<Json>) returns (err: Option<Error>)
      modifies this`rootObject
      ensures UnmarshalInto(unmarshal(CommentStrip.Strip(source)), old(rootObject), rootObject, err)
    {
      var strippedSource := CommentStrip.StripComments(source);
      match unmarshal(strippedSource)
      case Ok(v) =>
        rootObject := v;
        err := None;
      case Err(e) =>
        err := Some(e);
    }

    /** getKeyObjectFromObject: one step of the walk. */
    function getKeyObjectFromObject(key: string, obj: Json): (r: Result<Json>)
      ensures r == Resolver.KeyObject(key, obj)
      ensures r.Ok? && obj.Obj? ==> key in obj.fields && r.value == obj.fields[key]
      ensures r.Ok? && !obj.Obj? ==> r.value == Str("")
    {
      Resolver.KeyObject(key, obj)
    }

    /** getPathObjectFromObject. */
    method getPathObjectFromObject(paths: seq<string>, rootObj: Json) returns (r: Result<Json>)
      ensures r == Resolver.ResolvePath(paths, rootObj)
    {
      r := Resolver.WalkPath(paths, rootObj);
    }

    /** GetKeyObjectByPaths: the walk from the parsed root. */
    method GetKeyObjectByPaths(paths: seq<string>) returns (r: Result<Json>)
      ensures r == Resolver.ResolvePath(paths, rootObject)
    {
      r := getPathObjectFromObject(paths, rootObject);
    }

    /** GetKeyStringByPaths: the walk, then the leaf as a string. */
    method GetKeyStringByPaths(paths: seq<string>) returns (r: Result<string>)
      ensures r == Resolver.KeyStringByPaths(paths, rootObject)
    {
      var keyObj := getPathObjectFromObject(paths, rootObject);
      if keyObj.Err? {
        return Err(keyObj.error);
      }
      r := Resolver.LeafString(paths, keyObj.value);
    }

    /** GetKeyObjectByPath: split on "/", then GetKeyObjectByPaths.  Split
        never returns an empty list, so the "Path is null" error cannot
        happen. */
    method GetKeyObjectByPath(path: string) returns (r: Result<Json>)
      ensures r == Resolver.KeyObjectByPath(path, rootObject)
    {
      var paths := Split(path, Resolver.PathSep);
      assert |paths| > 0;
      r := GetKeyObjectByPaths(paths);
    }

    /** GetKeyStringByPath: split on "/", then GetKeyStringByPaths. */
    method GetKeyStringByPath(path: string) returns (r: Result<string>)
      ensures r == Resolver.KeyStringByPath(path, rootObject)
    {
      var paths := Split(path, Resolver.PathSep);
      assert |paths| > 0;
      r := GetKeyStringByPaths(paths);
    }
  }
}
