/**
  config/config.go: the Config of package config.  It embeds a Parser and
  overrides only ParseFromString, which strips comment lines and blank lines
  and hands the result to the embedded Parser's ParseFromBytes.  Every
  lookup is the embedded Parser's, reached as `config.Parser.GetKey...`.

  The config package's own Parser is not part of this model; the Parser of
  json/parser.go (module JsonParser) stands in for it, being the one whose
  API config/parser_test.go exercises.
 */
module CommentedConfig {
  import opened JsonValue
  import JsonParser
  import CommentStrip

  class Config {
    /** The embedded Parser: Go embeds it by value, so it is created with the
        Config and never replaced. */
    const Parser: JsonParser.Parser

    /** NewConfig: a Config whose Parser has nothing parsed yet. */
    constructor()
      ensures fresh(Parser)
      ensures Parser.FileName == [] && Parser.rootObject == Null
    {
      Parser := new JsonParser.Parser();
    }

    /** NewConfigFromString: a fresh Config holding the stripped and decoded
        text, or no Config at all and the decoder's error. */
    static method NewConfigFromString(s: string, unmarshal: string -> Result<Json>)
      returns (config: Config?, err: Option<Error>)
      ensures var d := unmarshal(CommentStrip.Strip(s));
              (d.Ok? ==> config != null && fresh(config) && fresh(config.Parser)
                         && config.Parser.rootObject == d.value
                         && config.Parser.FileName == [] && err == None)
              && (d.Err? ==> config == null && err == Some(d.error))
    {
      config := new Config();
      err := config.ParseFromString(s, unmarshal);
      if err.Some? {
        config := null;
      }
    }

    /** ParseFromString: strip, then the embedded Parser's ParseFromBytes. */
    method ParseFromString(source: string, unmarshal: string -> Result<Json>) returns (err: Option<Error>)
      modifies Parser`rootObject
      ensures UnmarshalInto(unmarshal(CommentStrip.Strip(source)), old(Parser.rootObject), Parser.rootObject, err)
    {
      var strippedSource := CommentStrip.StripComments(source);
      err := Parser.ParseFromBytes(strippedSource, unmarshal);
    }
  }
}
