# go-config path resolver and comment stripper, in Dafny

This project models the loaders of cybergarage/go-config. Each loader reads a
JSON configuration document and answers lookups by a `/`-separated path such
as `organizer/name`.

The model covers two pieces of logic:

- **The path resolver.** It walks the decoded tree one segment at a time.
  Each step moves into a string, number or object value, or fails with
  `KeyNotFound(segment)` or `KeyTypeInvalid(segment)`. The string lookups
  then print a string or number leaf, or fail with `KeyTypeInvalid` naming
  the whole path. The source's quirk is kept: when the current value is not
  an object, a step yields `""` and no error.
- **The comment and blank-line stripper** that `ParseFromString` runs before
  decoding. It splits the text on `"\n"`, drops empty lines and any line
  containing `#`, and ends every kept line with `"\n"`.

Three files repeat the same resolver: json/parser.go, json/pointer.go and
src/config/jpath/config.go. Two of them, plus config/config.go, repeat the
same stripper. Each piece is modelled once: the resolver in module
`Resolver`, the stripper in module `CommentStrip`.

Each source type is a class holding the `rootObject` field. That field is
written by parsing and only read by lookups. The classes are
`JsonParser.Parser`, `JsonPointer.Pointer`, `Jpath.Config` and
`CommentedConfig.Config` (which embeds a `JsonParser.Parser`). They keep the
Go method names and delegate to the shared modules.

The loop methods are proved against specification functions:

- `Resolver.WalkPath` against `Resolver.ResolvePath`;
- `CommentStrip.StripComments` against `CommentStrip.Strip`.

Lemmas then state what the source promises about those functions. The
decoder (`encoding/json.Unmarshal`) is a parameter `unmarshal` of the parsing
methods.

Modules, one per file:

| file | module | contents |
|---|---|---|
| json_value.dfy | JsonValue | the decoded tree, errors, results |
| strings.dfy | Strings | `strings.Split`, `strings.Join`, `strings.Index` |
| resolver.dfy | Resolver | the shared resolver |
| comment_strip.dfy | CommentStrip | the shared stripper |
| json_parser.dfy | JsonParser | json/parser.go |
| json_pointer.dfy | JsonPointer | json/pointer.go |
| jpath_config.dfy | Jpath | src/config/jpath/config.go |
| commented_config.dfy | CommentedConfig | config/config.go |
| test_document.dfy | TestDocument | the test document and what lookups give on it |
| loader_tests.dfy | LoaderTests | the repository's tests as client methods |

## Model

| member | source | states |
|---|---|---|
| JsonValue.FormatFloat | json/parser.go:183 | `strconv.FormatFloat(v, 'g', -1, 64)`, read off the number's carried text; definition, no contract; used by Resolver.KeyStringOfNamedValue |
| JsonValue.UnmarshalInto | json/parser.go:111 | what `json.Unmarshal(text, &root)` leaves: the decoded tree and nil, or the old root and the error; definition, no contract; stated by the ParseFrom… methods |
| Strings.Split | json/parser.go:193 | `strings.Split` on one separator never returns an empty list, so the "Path is null" branch is dead |
| Strings.Index | json/pointer.go:126 | `strings.Index` is -1 exactly when the character is absent; otherwise it is the first position of the character |
| Strings.Join | json/parser.go:185 | `strings.Join` with a one-character separator; definition, no contract; its properties are in Strings.JoinSplit and Strings.SplitJoin |
| Strings.SplitCount | json/parser.go:193 | there is one more segment than there are separators |
| Strings.JoinSplit | json/parser.go:185 | joining the split segments with "/" gives back the path string, so the whole-path error names the path as given |
| Strings.SplitJoin | json/parser.go:185 | splitting a join of separator-free segments gives the segments back |
| Resolver.KeyObject | json/parser.go:120-141 | a step either gives a string, number or object, or fails with KeyNotFound or KeyTypeInvalid naming the segment |
| Resolver.ResolvePath | json/parser.go:144-155 | after at least one step the result is a string, number or object; any error names one of the segments |
| Resolver.WalkPath | json/parser.go:144-155 | the loop equals ResolvePath; an empty segment list returns the root unchanged |
| Resolver.ResolveAppend | json/parser.go:146-152 | walking p + q is walking p, then q from where p ended, and an error in p is returned as is |
| Resolver.ResolveStopsAtMissingKey | json/parser.go:122-127 | a segment missing from the current object fails with KeyNotFound(segment); later segments are never looked at |
| Resolver.ResolveStopsAtInvalidType | json/parser.go:129-138 | a segment whose value is a bool, array or null fails with KeyTypeInvalid(segment); later segments are never looked at |
| Resolver.ResolveDescends | json/parser.go:129-135 | a string, number or object value becomes, unchanged, the current value for the rest of the path |
| Resolver.ResolveFromNonObject | json/parser.go:121-140 | from a value that is not an object, every non-empty path yields "" with no error |
| Resolver.ResolvePastScalar | json/parser.go:121-140 | a path that goes on past a string or number yields "" with no error |
| Resolver.FirstFailure | json/parser.go:146-151 | a failed walk failed at one segment: all segments before it resolved, that step returned exactly the error, and the error names that segment |
| Resolver.ResolveFindsNamedValue | json/parser.go:144-155 | a path naming a string, number or object in the tree resolves to exactly that value |
| Resolver.ResolveOkIsNamedOrEmpty | json/parser.go:144-155 | a successful walk found the value the path names, or it ran past a non-object and gave "" |
| Resolver.NotFoundMeansUnnamed | json/parser.go:122-127 | KeyNotFound is only reported for a path that names nothing in the tree |
| Resolver.KeyStringOfNamedValue | json/parser.go:170-189 | a string leaf is returned verbatim and a number leaf through FormatFloat; any other leaf (an object, or for the empty path a nil, bool or array root) fails with KeyTypeInvalid("/" + join(paths, "/")) |
| Resolver.EmptyPathsOnUnparsedRoot | json/parser.go:178-186 | GetKeyStringByPaths with no segments on a nil root fails with KeyTypeInvalid("/") |
| Resolver.KeyStringByPathNamesWholePath | json/parser.go:201-207 | through GetKeyStringByPath, an object leaf fails with KeyTypeInvalid("/" + path), with the path exactly as given |
| Resolver.UnparsedRootResolvesEmpty | json/parser.go:62-71 | on a nil root (nothing parsed), every path gives "" with no error |
| Resolver.LeadingSlashLooksUpEmptyKey | json/parser.go:20 | a leading "/" makes the first segment the empty key, which an object without that key reports as KeyNotFound("") |
| Resolver.EmptyPathIsOneEmptySegment | json/parser.go:192-198 | the empty path string is the single segment "" |
| Resolver.LeafString | json/parser.go:178-186 | the type switch on the leaf; definition, no contract; its properties are in Resolver.KeyStringOfNamedValue and Resolver.EmptyPathsOnUnparsedRoot |
| Resolver.KeyStringByPaths | json/parser.go:170-189 | the walk, then LeafString, an error passing through; definition, no contract; its properties are in Resolver.KeyStringOfNamedValue and Resolver.EmptyPathsOnUnparsedRoot |
| Resolver.KeyObjectByPath | json/parser.go:192-198 | split on "/", then the walk; definition, no contract; its properties are in Resolver.UnparsedRootResolvesEmpty, Resolver.LeadingSlashLooksUpEmptyKey and Resolver.EmptyPathIsOneEmptySegment |
| Resolver.KeyStringByPath | json/parser.go:201-207 | split on "/", then KeyStringByPaths; definition, no contract; its properties are in Resolver.KeyStringByPathNamesWholePath, Resolver.UnparsedRootResolvesEmpty and Resolver.LeadingSlashLooksUpEmptyKey |
| CommentStrip.KeptLines | json/pointer.go:122-131 | the kept lines are no more than the input lines; each is non-empty and free of "#"; each comes from the input |
| CommentStrip.Kept | json/pointer.go:123-129 | a line is kept when it is non-empty and has no "#"; definition, no contract; its properties are in CommentStrip.StripDropsLine and CommentStrip.StripKeepsLine |
| CommentStrip.Terminated | json/pointer.go:130 | each kept line written followed by "\n"; definition, no contract; its properties are in CommentStrip.StripEndsWithNewline, CommentStrip.StripLines and CommentStrip.StripOfTerminated |
| CommentStrip.Strip | json/pointer.go:118-133 | the text handed to the decoder; definition, no contract; its properties are in CommentStrip.StripComments, CommentStrip.StripLines, CommentStrip.StripIdempotent and CommentStrip.StripConcat |
| CommentStrip.StripComments | json/pointer.go:118-131 | the buffer-filling loop produces exactly Strip(source) |
| CommentStrip.StripHasNoComment | json/pointer.go:122-131 | the stripped text contains no "#" |
| CommentStrip.StripEndsWithNewline | json/pointer.go:130 | the stripped text is empty or ends with "\n" |
| CommentStrip.StripLines | json/pointer.go:118-131 | the lines of the stripped text are the source's non-empty, "#"-free lines in their original order, then the empty piece after the last "\n" |
| CommentStrip.StripOfTerminated | json/pointer.go:118-131 | text made of non-empty, "#"-free lines, each ended by "\n", strips to itself |
| CommentStrip.StripIdempotent | src/config/jpath/config.go:118-131 | stripping twice equals stripping once |
| CommentStrip.StripConcat | json/pointer.go:118-131 | stripping two texts joined by "\n" is stripping each and concatenating |
| CommentStrip.StripDropsLine | json/pointer.go:123-129 | an empty or "#"-containing line in front of a document changes nothing |
| CommentStrip.StripKeepsLine | json/pointer.go:123-130 | a non-empty, "#"-free line in front of a document survives, followed by "\n" |
| CommentStrip.StripDropsHeader | json/pointer.go:30-41 | any sequence of comment and blank lines in front of a document changes nothing |
| CommentStrip.StripIgnoresCommentHeaders | config/config_test.go:24-40 | the headers "####\n", "####\n####\n" and " ####\n" strip away |
| CommentStrip.StripDropsBlankLine | config/config.go:91-93 | a blank line in front of a document changes nothing |
| CommentStrip.StripIgnoresBlankHeaders | config/config_test.go:42-53 | the headers "\n" and "\n\n" strip away |
| CommentStrip.StripIgnoresCommentAndBlankHeader | config/config_test.go:55-61 | the header "####\n\n" strips away |
| CommentStrip.HashInStringValueDropsLine | json/pointer.go:126-129 | a "#" inside a JSON string value drops the whole line: `{"color": "#ff0000"}` strips to "" |
| JsonParser.Parser.constructor | json/parser.go:68-71 | NewParser: nothing parsed, nil root |
| JsonParser.Parser.NewParserFromString | json/parser.go:84-91 | on a decoder error, no Parser and that error; otherwise a fresh Parser holding the decoded text |
| JsonParser.Parser.ParseFromBytes | json/parser.go:110-112 | on success the root is the decoded tree; on error the root is unchanged and the error returned |
| JsonParser.Parser.ParseFromString | json/parser.go:115-117 | the text reaches the decoder unchanged (no stripping) |
| JsonParser.Parser.getKeyObjectFromObject | json/parser.go:120-141 | the shared step: on success from an object it is the value under the key; from a non-object it is "" |
| JsonParser.Parser.getPathObjectFromObject | json/parser.go:144-155 | the shared walk ResolvePath |
| JsonParser.Parser.GetKeyObjectByPaths | json/parser.go:158-167 | the walk from the parsed root; the root is not changed |
| JsonParser.Parser.GetKeyStringByPaths | json/parser.go:170-189 | the walk from the parsed root, then the string projection |
| JsonParser.Parser.GetKeyObjectByPath | json/parser.go:192-198 | split on "/", then GetKeyObjectByPaths |
| JsonParser.Parser.GetKeyStringByPath | json/parser.go:201-207 | split on "/", then GetKeyStringByPaths |
| JsonPointer.Pointer.constructor | json/pointer.go:75-78 | NewPointer: nothing parsed, nil root |
| JsonPointer.Pointer.NewPointerFromString | json/pointer.go:91-98 | on a decoder error, no Pointer and that error; otherwise a fresh Pointer holding the stripped, decoded text |
| JsonPointer.Pointer.ParseFromString | json/pointer.go:117-134 | the decoder receives Strip(source); the root is set on success and unchanged on error |
| JsonPointer.Pointer.getKeyObjectFromObject | json/pointer.go:137-158 | the shared step, as in json/parser.go |
| JsonPointer.Pointer.getPathObjectFromObject | json/pointer.go:161-172 | the shared walk ResolvePath |
| JsonPointer.Pointer.GetKeyObjectByPaths | json/pointer.go:175-184 | the walk from the parsed root |
| JsonPointer.Pointer.GetKeyStringByPaths | json/pointer.go:187-206 | the walk from the parsed root, then the string projection |
| JsonPointer.Pointer.GetKeyObjectByPath | json/pointer.go:209-215 | split on "/", then GetKeyObjectByPaths |
| JsonPointer.Pointer.GetKeyStringByPath | json/pointer.go:218-224 | split on "/", then GetKeyStringByPaths |
| Jpath.Config.constructor | src/config/jpath/config.go:75-78 | NewConfig: nothing parsed, nil root |
| Jpath.Config.NewConfigFromString | src/config/jpath/config.go:91-98 | on a decoder error, no Config and that error; otherwise a fresh Config holding the stripped, decoded text |
| Jpath.Config.ParseFromString | src/config/jpath/config.go:117-134 | the decoder receives Strip(source); the root is set on success and unchanged on error |
| Jpath.Config.getKeyObjectFromObject | src/config/jpath/config.go:137-158 | the shared step, as in json/parser.go |
| Jpath.Config.getPathObjectFromObject | src/config/jpath/config.go:161-172 | the shared walk ResolvePath |
| Jpath.Config.GetKeyObjectByPaths | src/config/jpath/config.go:175-184 | the walk from the parsed root |
| Jpath.Config.GetKeyStringByPaths | src/config/jpath/config.go:187-206 | the walk from the parsed root, then the string projection |
| Jpath.Config.GetKeyObjectByXPath | src/config/jpath/config.go:209-215 | split on "/", then GetKeyObjectByPaths |
| Jpath.Config.GetKeyStringByXPath | src/config/jpath/config.go:218-224 | split on "/", then GetKeyStringByPaths |
| CommentedConfig.Config.constructor | config/config.go:54-62 | NewConfig: a fresh embedded Parser with nothing parsed |
| CommentedConfig.Config.NewConfigFromString | config/config.go:75-82 | on a decoder error, no Config and that error; otherwise a fresh Config whose Parser holds the stripped, decoded text |
| CommentedConfig.Config.ParseFromString | config/config.go:85-102 | the embedded Parser's ParseFromBytes receives Strip(source); only that Parser's root changes |
| TestDocument.TestHeaderStripsAway | config/config_test.go:24-61 | each header the tests put in front of TEST_CONFIG strips away entirely |
| TestDocument.StripLeavesText | json/pointer_test.go:20-25 | TEST_CONFIG strips to itself, so the plain and the stripping loaders hand the decoder the same text |
| TestDocument.NameLookup | json/pointer_test.go:65-79 | on TEST_CONFIG, "organizer/name" gives "John Smith" |
| TestDocument.AgeLookup | json/pointer_test.go:81-95 | on TEST_CONFIG, "organizer/age" gives "33" |
| TestDocument.MissingLookup | json/parser.go:122-127 | on TEST_CONFIG, "organizer/missing" fails with KeyNotFound("missing") |
| TestDocument.OrganizerObjectLookup | json/parser.go:192-198 | on TEST_CONFIG, GetKeyObjectByPath("organizer") gives the organizer object |
| TestDocument.OrganizerStringLookupFails | json/parser.go:184-186 | on TEST_CONFIG, GetKeyStringByPath("organizer") fails with KeyTypeInvalid("/organizer") |
| TestDocument.OrganizerLookups | json/pointer_test.go:63-96 | the five lookups above together |
| TestDocument.PathPastStringYieldsEmpty | json/parser.go:121-140 | on TEST_CONFIG, "organizer/name/x" gives "" with no error |
| TestDocument.SplitDocumentedPath | json/pointer.go:20 | the documented path "/organizer/name" splits to "", "organizer", "name" |
| TestDocument.DocumentedPathIsNotFound | json/pointer.go:20 | on TEST_CONFIG, the documented path "/organizer/name" fails with KeyNotFound("") |
| TestDocument.SimpleLookup | json/pointer_test.go:28-61 | on the simple document, "name" gives "John Smith" |
| LoaderTests.ParseParserTest | config/parser_test.go:98-114 | a Parser given TEST_CONFIG answers "John Smith" and "33" |
| LoaderTests.SimpleParserTest | config/parser_test.go:28-61 | a Parser given the simple document answers "John Smith" |
| LoaderTests.ParsePointerTest | json/pointer_test.go:98-115 | a Pointer given TEST_CONFIG answers "John Smith" and "33" |
| LoaderTests.SimplePointerTest | json/pointer_test.go:28-61 | a Pointer given the simple document answers "John Smith" |
| LoaderTests.ParseJpathConfigTest | src/config/xjson/config_test.go:63-110 | a jpath Config given TEST_CONFIG answers "John Smith" and "33" through the XPath lookups |
| LoaderTests.ParseConfigTest | config/config_test.go:9-61 | a commented Config given TEST_CONFIG behind any of the test headers answers "John Smith" and "33" through its Parser |

## Left out

- File loading is not modelled: `ParseFromFile`, `NewParserFromFile`, `NewPointerFromFile` and `NewConfigFromFile`. These are `os.Stat`, `ioutil.ReadFile` and an assignment to `FileName`. `FileName` is kept as a field, which only the constructors set.
- The promoted `ParseFromFile` is not modelled. `NewConfigFromFile` (config/config.go:64-72) calls the embedded Parser's `ParseFromFile`. If that mirrors json/parser.go:94-107, it reaches the Parser's own `ParseFromString`, so a file loaded this way is not stripped. Go has no virtual dispatch through embedding.
- `encoding/json.Unmarshal` is a parameter `unmarshal` from the text to a tree or an error. On error the root is taken as unchanged. A decoder that writes part of the root before failing is not modelled.
- float64 and `strconv.FormatFloat` are not modelled. A number is carried as the text FormatFloat prints for it (`Float64.shortest`). The tests' 33 is `Float64("33")`.
- Error messages (`fmt.Sprintf` text) are not modelled. An error is a constructor carrying the key or path.
- The value Go returns next to a non-nil error (`""` or nil) is not modelled: a `Result` holds either a value or an error.
- Bytes are modelled as characters. The separators "/" and "\n" and the marker "#" are ASCII, so splitting and searching give the same pieces.
- The "Path is null" branch (`len(paths) <= 0`) is an assertion that `Split` returned at least one segment. The branch cannot be taken, so it is not modelled as code.
- The config package's own `Parser` source is not part of this model. `JsonParser.Parser` (json/parser.go) stands in for it; config/parser_test.go exercises the same API.
- The package `xjson` is not part of this model. Its test (src/config/xjson/config_test.go) is cited only as a client of the `...ByXPath` lookups.
- `LoaderTests` methods assume what the decoder makes of the test texts. Each states that assumption as a precondition on `unmarshal`; every loader of TEST_CONFIG assumes the same, that it decodes to the tree `TestDocument.Tree`.
