# Stream attribute resolution engine, modelled in Dafny

This project models the core of `xml_stream_parser`: the engine that turns one
stream record of an I/O configuration document (an element tag, `stream` or
`immutable_stream`, and its attribute map) into typed stream settings, using
the catalog of all stream records of the document.

The model has four parts.

- **Interval references.** An interval attribute may hold
  `stream:<target>:<attribute>` instead of a literal. The resolver replaces it
  by the named attribute of the target stream. It takes exactly one hop.
  - It rejects:
    - malformed references;
    - exact self-loops;
    - attributes other than `input_interval` and `output_interval`;
    - unknown streams;
    - targets that lack the attribute;
    - values that would need a second hop.
  - Lookup searches `immutable_stream` elements before `stream` elements, and
    the first match wins.
  - The repository holds this resolver twice, with the same checks in the same
    order. `src/parse.hpp` builds errors that carry the attribute and the
    target. `src/interval_resolver.hpp` builds errors without them. Module
    `Interval` models the first revision and module `IntervalResolver` the
    second. `IntervalResolver.RevisionsAgree` proves that they agree on every
    input.
- **Categorical parsers.** These map direction, clobber mode, io type,
  precision, reference time and record interval to codes or defaults. They are
  total, use case-sensitive substring tests and check in priority order. The
  clobber-mode, io-type and precision parsers are also written as priority
  tables (`Categorical.ClobberRules`, `IoTypeRules`, `PrecisionRules`), and
  lemmas prove that each of these three is the first-match classification by
  its table. Direction, reference time and record interval have no table:
  their contracts state the result directly.
- **Filename interval.** One non-empty token is derived from four inputs: the
  direction text, the resolved input and output intervals, and the explicit
  `filename_interval` value.
- **Assembly and output path.** `StreamLoader.LoadFromXml` models
  `Stream::load_from_xml`. `OutputPath` models the directory check. The
  filesystem is three oracle answers (`exists`, `create_directories`,
  `can_write`), as in the test mock, and each run records the calls it makes.

Modules, leaf first:

- `Wrappers`: `Option`, `Result`, `Outcome`.
- `Strings`: prefix and substring predicates, first and last index of a
  character.
- `Xml`: nodes, the catalog, `find_stream` and the lookup order.
- `References`: the reference syntax shared by both revisions. It holds the
  valid attribute names, the self-loop and final-value conditions, and the
  split at the first `:`.
- `Interval`, `IntervalResolver`: the two resolver revisions.
- `Categorical`: the six parsers and their priority tables.
- `FilenameInterval`: the deriver, plus the `parse.hpp` revision of
  `parse_filename_interval`, which resolves its inputs itself.
- `OutputPath`, `StreamLoader`: the output-path step and the assembler.
- `Scenarios`, `ParserCases`: the repository's documented cases, proved of the
  model.

Points where the model's shape follows particular details of the code:

- The self-loop check runs before the attribute-name check
  (`src/parse.hpp:101-103`, `src/interval_resolver.hpp:79-80`). The order shows
  only when the interval kind passed in is not itself a valid attribute name:
  an exact self-loop is then reported as a self-reference.
- Errors carry what each revision's messages carry. No message names the
  owning stream, so no error carries its id.
- `src/stream.hpp:25` calls a two-argument `parse_fields`. The model reads the
  record's attribute map directly. A missing key reads as `""`, as
  `operator[]` does. A referenced target is different: there `has_attribute`
  separates a missing attribute from an empty one.
- `src/stream.hpp:41-46` passes the raw intervals to the six-argument
  `parse_filename_interval`. The derivation never uses them, so
  `DeriveFilenameInterval` takes only the four inputs it depends on.
- The tests read the settings through getters (`get_type`, `get_precision`,
  …) that `src/stream.hpp` does not define. The model exposes the settings as
  the fields of the `Stream` datatype.

## Model

| member | source | states |
|---|---|---|
| Strings.IndexOf | src/parse.hpp:94-95 | the index of the first ':', or none exactly when the text has no ':' |
| Strings.LastIndexOf | src/parse.hpp:248-249 | the index of the last '/', with no '/' after it, or none exactly when the text has no '/' |
| Xml.FindStream | src/parse.hpp:59-68 | the first child with the given tag whose `name` attribute is present and equal to the name; none exactly when no child matches; a node without `name` never matches |
| Xml.LookupTarget | src/parse.hpp:70-78 | the index returned names a stream of one of the two tags; an immutable match always wins; a `stream` match is returned only when no `immutable_stream` matches; within its tag it is the first match; none exactly when neither tag matches |
| References.SplitReference | src/parse.hpp:92-99 | splits at the first ':': the target holds no ':' and target + ":" + attribute rebuilds the text; fails exactly when there is no ':' |
| References.SplitJoin | src/parse.hpp:98-99 | splitting inverts joining whenever the target holds no ':' |
| Interval.ExtractStreamInterval | src/parse.hpp:84-115 | text without the `stream:` prefix comes back unchanged whatever the catalog; "malformed" exactly when the prefix has no ':' after it; a resolved reference is final, never an interval name or another reference |
| Interval.ParseInterval | src/parse.hpp:117-126 | the empty text resolves to "" whatever the catalog; literal text is unchanged; no result is a reference |
| Interval.EmptyGuardRedundant | src/parse.hpp:122-125 | the empty-text guard agrees with plain extraction on every input |
| Interval.ResolveReference | src/parse.hpp:28-113 | for `stream:<target>:<attr>`, each error holds exactly when its condition holds: self-loop; then an invalid attribute; then no matching stream; then a missing attribute; then a non-final value. Each error carries the attribute and target its message names. The self-loop, attribute and final-value conditions are those of `ensure_not_recursive`, `ensure_valid_attribute` and `ensure_resolved_value_is_final`, defined once as `References.IsSelfLoop`, `IsIntervalName` and `IsFinal` |
| Interval.ResolveReferenceValue | src/parse.hpp:105-114 | resolution succeeds exactly when the reference is no self-loop, the attribute is valid, a stream matches, and that stream's value is present and final; the result is that value, taken from the stream found by the immutable-first lookup |
| Interval.SelfReferenceRejected | src/parse.hpp:38-45 | for an id without ':', `stream:<id>:<kind>` in interval `kind` of stream `id` is rejected as a self-reference whatever the catalog |
| Interval.ColonInIdIsInvalidAttribute | src/parse.hpp:94-103 | for an id `a:b` (with no ':' in `a`), the same self-reference is split at the first ':' and rejected as the invalid attribute `b:<kind>`, never as a self-reference |
| Interval.OtherIntervalOfSelfResolves | src/parse.hpp:42-44 | a stream's reference to its other interval is not a self-loop and resolves to that interval's value |
| Interval.SecondHopRejected | src/parse.hpp:47-53 | a target value that is an interval name or a reference gives the unresolvable error; no second hop is taken |
| Interval.ResolvedIsFixpoint | src/parse.hpp:112-114 | a resolved value resolves to itself for every stream, kind and catalog (idempotence) |
| IntervalResolver.ExtractStreamIntervalImpl | src/interval_resolver.hpp:58-89 | literal text is unchanged; "malformed" exactly when the prefix has no ':' after it; a resolved reference is final |
| IntervalResolver.RevisionsAgree | src/interval_resolver.hpp:20-89 | both revisions succeed together with the same value; their failures match once the detail is dropped |
| Categorical.ClassifyFrom | src/parse.hpp:199-240 | a priority table gives the code of its first firing rule, or the default when no rule fires |
| Categorical.ParseClobberMode | src/parse.hpp:199-206 | a code in 0..3; `never_modify` forces 0; 1, 2 and 3 each need their keyword |
| Categorical.ParseIoType | src/parse.hpp:208-214 | a code in 0..3; `pnetcdf,cdf5` forces 1, although the text then also contains `pnetcdf` and `netcdf` |
| Categorical.ParseDirection | src/parse.hpp:216-223 | a code in 1..4 whose input part (1 or 3) holds exactly when the text contains "input", and whose output part (2 or 3) exactly when it contains "output" |
| Categorical.ParseReferenceTime | src/parse.hpp:225-228 | never empty: "" becomes `initial_time`, any other text is kept verbatim |
| Categorical.ParseRecordInterval | src/parse.hpp:230-233 | never empty: "" becomes `none`, any other text is kept verbatim |
| Categorical.ParsePrecisionBytes | src/parse.hpp:235-240 | 0, 4 or 8; 0 exactly when neither `single` nor `double` occurs; `single` wins over `double` |
| Categorical.ClobberModeFollowsTable | src/parse.hpp:199-206 | the clobber parser is first-match classification by its four-row table, default 0 |
| Categorical.IoTypeFollowsTable | src/parse.hpp:208-214 | the io-type parser is first-match classification by its four-row table, default 0 |
| Categorical.PrecisionFollowsTable | src/parse.hpp:235-240 | the precision parser is first-match classification by its two-row table, default 0 |
| Categorical.IoTypeOverlap | src/parse.hpp:209-212 | io type 0 exactly when `netcdf` is absent, or when `pnetcdf` occurs without `pnetcdf,cdf5`; every non-zero code implies `netcdf` occurs |
| FilenameInterval.DeriveFilenameInterval | src/parse.hpp:155-192 | never empty; a non-empty explicit value other than the interval names is returned verbatim; otherwise a real resolved interval or `none`; an interval-name explicit value selects that interval; an empty one selects by the direction code of the direction parser, preferring input when both directions are present. "Real" is `FilenameInterval.IsReal`, the `is_real_interval` test of lines 155-159 |
| FilenameInterval.PickInterval | src/parse.hpp:171-175 | the result is empty or real; a non-empty result is one of the two arguments; a real first argument always wins; empty exactly when neither argument is real |
| FilenameInterval.SentinelsNeverChosen | src/parse.hpp:155-159 | when the token is selected, it is never `initial_only`, `final_only` or empty |
| FilenameInterval.InputPreferred | src/parse.hpp:171-179 | with both directions present and no explicit value, a real input interval wins |
| FilenameInterval.ParseFilenameInterval | src/parse.hpp:147-193 | succeeds exactly when both raw intervals resolve; the input's error is reported before the output's; an explicit literal does not mask a resolution error; the value is the derivation from the resolved intervals |
| OutputPath.ParentPath | src/parse.hpp:248-250 | empty exactly when the path has no '/'; otherwise a prefix of the path after which no '/' follows, ending right before a separator unless it is the root "/" |
| OutputPath.BuildStreamPath | src/parse.hpp:246-260 | no directory: success with zero calls; otherwise `exists` is asked first; `create_directories` is called exactly when the directory does not exist; `can_write` is asked exactly when the directory exists or was created; create failure and unwritable are the two errors, each exactly under its condition |
| OutputPath.HandleStreamOutputPath | src/parse.hpp:262-267 | direction codes other than 2 and 3 succeed with zero filesystem calls; codes 2 and 3 run the directory check |
| StreamLoader.LoadFromXml | src/stream.hpp:22-52 | a record without `name` fails; otherwise it loads exactly when both intervals resolve, whatever the direction, and an input error comes before an output error with no default substituted; `immutable` is 1 exactly for `immutable_stream`; the template is verbatim; the filename interval is non-empty and derived from the resolved intervals; every categorical field is its parser's output on the raw text |
| StreamLoader.AbsentActsAsEmpty | src/stream.hpp:27-51 | with the catalog unchanged, leaving out any attribute of the record but `name` loads exactly like setting it to "" |
| StreamLoader.NameRequired | src/stream.hpp:26 | an absent `name` always fails; a present but empty one loads whenever the intervals resolve |
| StreamLoader.FilenameIntervalRevisionsAgree | src/stream.hpp:41-46 | the assembler's filename interval equals what the resolving `parse_filename_interval` revision returns from the raw texts, and both fail together with the same error |
| Scenarios.AbsentTargetIsNotEmpty | src/parse.hpp:105-114 | with the record inside its own catalog, an absent attribute is not the empty text: a reference to its own absent `output_interval` fails with the missing-attribute error, and with `output_interval=""` the same stream loads |
| Scenarios.ScenarioS1 | test/parse_filename_interval.test.cpp:76-77 | s1 (literal 3h, input) gets 3h |
| Scenarios.ScenarioS2 | test/parse_filename_interval.test.cpp:79-83 | s2 (reference to s1's input interval, input) gets 3h |
| Scenarios.ScenarioS3 | test/parse_filename_interval.test.cpp:120-124 | s3 (input reference, output direction) gets none |
| Scenarios.ScenarioS4 | test/parse_filename_interval.test.cpp:96-97 | s4 (literal 6h, output) gets 6h |
| Scenarios.ScenarioS5 | test/parse_filename_interval.test.cpp:99-103 | s5 (reference to s4's output interval, output) gets 6h |
| Scenarios.ScenarioS6 | test/parse_filename_interval.test.cpp:129-133 | s6 (output reference, input direction) gets none |
| Scenarios.ScenarioS7 | test/parse_filename_interval.test.cpp:146-147 | s7 (output reference, input:output) gets 6h |
| Scenarios.ScenarioS8 | test/parse_filename_interval.test.cpp:149-150 | s8 (input reference, input:output) gets 3h |
| Scenarios.ScenarioS9 | test/parse_filename_interval.test.cpp:152-153 | s9 (output interval referring to s1's input interval, input:output) gets 3h |
| Scenarios.ScenarioS10 | test/parse_filename_interval.test.cpp:166-169 | s10 (no direction) gets none |
| Scenarios.ScenarioS11 | test/parse_filename_interval.test.cpp:178-181 | explicit input_interval over `initial_only` gets none |
| Scenarios.ScenarioS12 | test/parse_filename_interval.test.cpp:190-193 | explicit input_interval over `final_only` gets none |
| Scenarios.ScenarioS13 | test/parse_filename_interval.test.cpp:202-205 | explicit output_interval over `initial_only` gets none |
| Scenarios.ScenarioS14 | test/parse_filename_interval.test.cpp:214-217 | explicit output_interval over `final_only` gets none |
| Scenarios.ScenarioS15 | test/parse_filename_interval.test.cpp:226-229 | explicit output_interval over 4h gets 4h |
| Scenarios.ScenarioS16 | test/parse_filename_interval.test.cpp:238-241 | explicit input_interval over 4h gets 4h |
| Scenarios.ScenarioS17 | test/parse_filename_interval.test.cpp:250-253 | explicit output_interval over a reference to s4 gets 6h |
| Scenarios.ScenarioS18 | test/parse_filename_interval.test.cpp:262-265 | explicit input_interval over a reference to s1 gets 3h |
| ParserCases.DirectionCases | test/parse_direction.test.cpp:51-55 | input 1, output 2, "input output" 3, none 4, "" 4 |
| ParserCases.ClobberModeCases | test/parse_clobber_mode.test.cpp:56-66 | "" 0, never_modify 0, append 1 |
| ParserCases.ClobberModeTruncateCases | test/parse_clobber_mode.test.cpp:68-78 | truncate 2, replace_files 2 |
| ParserCases.ClobberModeOverwriteCase | test/parse_clobber_mode.test.cpp:72-74 | overwrite 3 |
| ParserCases.ClobberModeUnrecognizedCase | test/parse_clobber_mode.test.cpp:80-82 | nonsense_value 0 |
| ParserCases.IoTypeCases | test/parse_io_type.test.cpp:48-66 | pnetcdf,cdf5 1, pnetcdf 0, netcdf4 3, netcdf 2, "" 0 |
| ParserCases.PrecisionCases | test/parse_precision_bytes.test.cpp:40-50 | single 4, double 8, "" 0 |
| ParserCases.VerbatimCases | test/parse_record_interval.test.cpp:38-44 | record interval 100 kept, "" becomes none; reference time kept verbatim, "" becomes initial_time |
| ParserCases.SelfReferenceCase | src/parse.hpp:101-102 | a stream's input interval naming its own input interval is rejected |
| ParserCases.InvalidAttributeCase | src/parse.hpp:103 | a reference to attribute `type` is rejected, naming the attribute |
| ParserCases.StreamNotFoundCase | src/parse.hpp:76-77 | a reference to an unknown stream is rejected, naming the stream |
| ParserCases.MissingAttributeCase | src/parse.hpp:107-110 | a target without the attribute is rejected, naming attribute and target |
| ParserCases.DoubleIndirectionCases | src/parse.hpp:112-113 | targets holding a reference or an interval name are rejected as unresolvable |
| ParserCases.MalformedCase | src/parse.hpp:94-96 | `stream:s1` is malformed |
| ParserCases.BuildStreamPathCases | test/build_stream_path.test.cpp:16-72 | exists and writable: success with just `exists` and `can_write`; creatable: success; create failure, or unwritable: the matching error; `file.nc`: success with zero calls |
| ParserCases.HandleStreamOutputPathCases | test/handle_output_stream_path.test.cpp:12-62 | an output stream with a writable directory succeeds; an input-only stream makes zero calls; an unwritable directory fails |

## Left out

- XML parsing and the pugixml adapter (`src/pugi_xml_adapter.hpp`, `PugiXmlAdapter` in `src/xml_node.hpp`): a node is a tag plus an attribute map, and the catalog is the root's children in order.
- `src/parser_concepts.hpp`: a compile-time concept with no behaviour.
- The real filesystem (`XmlFileSystem` in `src/filesystem.hpp`, with its permission bits): the model uses three fixed oracle answers, as the test mock does. The same answer is given for every path, which is enough, because one directory is queried per run.
- OutputPath.ParentPath: models `std::filesystem::path::parent_path` as "everything before the last '/'", with "/" for a leading lone separator. It does not model root names or the normalisation of repeated separators.
- Error message text (`std::format`): errors are datatype variants. They carry the attribute and the target where the messages of `src/parse.hpp` name them.
- The exception kind thrown by `fields.at("name")`: it is the `MissingRequiredAttribute` error.
- The unit tests themselves: fixtures, `get_xml_stream` and Boost.UT. Their expectations are restated as the `Scenarios` and `ParserCases` lemmas.
- Nothing here reads a document or runs the program. Resolving a stream twice gives equal settings because `LoadFromXml` is a function. No caching is modelled.
- StreamLoader.LoadFromXml: `Stream::load_from_xml` updates the object in place. It assigns the id, type, reference time, record interval and precision (`src/stream.hpp:26-32`) before `parse_interval` can throw. After a resolution error the object is left half-updated. The model returns `Failure` and carries no partial stream.
- StreamLoader.AbsentActsAsEmpty: holds only with the catalog held fixed. A referenced target separates a missing attribute from an empty one (`has_attribute`, `src/parse.hpp:107`). `Scenarios.AbsentTargetIsNotEmpty` shows a stream in its own catalog for which the two differ.
