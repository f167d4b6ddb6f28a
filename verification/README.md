# openapi-to-rego, modelled in Dafny

openapi-to-rego turns an OpenAPI 3 document into a Rego policy for the Open
Policy Agent. For every operation (a path and an HTTP method) it reads four
vendor extensions:

- `x-security-rego-field-filter`
- `x-security-rego-list-filter`
- `x-security-rego-overwrite-filter`
- `x-security-rego-boolean-filter`

It builds `PolicySchema` records from them: one per (definition, scheme) pair
of a field filter, one per definition of the other three filters, plus a
default `allow` record when the operation has no boolean filter. It then renders
all records through one text template, after a fixed preamble (package
header, `default allow = false`, the decoded JWT `token`).

This project models the generator in `pkg/opa/generate.go`:

- **Path conversion** (`path_template.dfy`). `convertOASPathToParsedPath`
  works in three steps. First the path-parameter regular expression
  `{[.;?]?([^{}*]+)\*?}` is replaced by `:name`, using a leftmost-first scanner
  (`ParamAt`, `Substitute`) and the loop that applies it (`ReplaceParams`).
  Then leading slashes are trimmed and the rest is split at `/`. Finally the
  segments are listed between brackets, a marker segment as a bare variable and
  any other segment as a quoted string, with the root path special-cased.
- **Security requirements and mask fields** (`security.dfy`).
  `getSecuritySchemes` flattens requirements into one scheme-to-scopes map,
  where a later entry overrides an earlier one. `getFormattedMaskFields`
  produces the Rego array literal of quoted field names.
- **Operand compilation** (`expressions.dfy`). The type switch over
  operands is modelled in its three scoping contexts (list, overwrite,
  boolean). The operator symbol table is included. An operand of any other
  type aborts with `illegal type for operand`.
- **Record building** (`schema.dfy`). There is one loop per extension, with
  the same error conditions as the code:
  - a field filter on an operation without security fails;
  - a field filter naming an unknown scheme fails;
  - `null` becomes the overwrite value `null`;
  - overwrite helpers are named `allow1`, `allow2`, … per operation.
- **Rendering** (`render.dfy`). The template is modelled as one text function
  per record kind, and `generateRego` appends them to a growing buffer
  (`Buffer`, standing for `bytes.Buffer`).
- **Generate** (`generator.dfy`). Operations are processed in order, and the
  first error aborts with its message and no policy text.

Go's `strings` and `strconv` functions that the generator calls are modelled
in `text.dfy`: `HasPrefix`, `TrimLeft` with its cut-set semantics, `Split`,
`Join`, `TrimSpace`, `TrimSuffix`, `FormatInt`, `FormatBool` and `Quote`.
Go map iteration order is unspecified, so every map the code ranges over is
an input sequence in iteration order:

- the document's paths and methods;
- the operator entries of an operation;
- the schemes of a field-filter definition;
- a security requirement's schemes.

Three consequences of the code are worth stating, because the model keeps them:

- The default `allow` rule carries no scope checks. The record built at
  `pkg/opa/generate.go:391-397` has no scopes, and the template's default
  branch renders none.
- Overwrite helper names are numbered from `allow1` again in every operation
  (`pkg/opa/generate.go:273-317`). They are distinct within an operation
  (`Schema.HelperNamesDistinct`), not across the whole document.
- A field-filter record's scope list may be empty: nothing checks it, and the
  rule then has no scope checks.

## Model

| member | source | states |
|---|---|---|
| Text.TrimLeft | pkg/opa/generate.go:456 | the result is a suffix of the input; every dropped character is in the cut set; the result does not start with one |
| Text.TrimSuffix | pkg/opa/generate.go:470 | with the suffix present, result plus suffix is the input; otherwise the input is unchanged |
| Text.TrimLeftSpace | pkg/opa/generate.go:470 | the result is a suffix of the input that does not start with white space, and everything dropped is white space |
| Text.TrimRightSpace | pkg/opa/generate.go:470 | the result is a prefix of the input that does not end with white space, and everything dropped is white space |
| Text.TrimSpace | pkg/opa/generate.go:470 | `strings.TrimSpace`: the trailing white space of what is left after the leading white space is dropped; each of the two steps removes white space and nothing else |
| Text.HasPrefix | pkg/opa/generate.go:223 | `strings.HasPrefix`: the text starts with the prefix |
| Text.Join | pkg/opa/generate.go:243 | `strings.Join`: the parts with the separator between neighbours; inverted by Split (`Text.SplitJoin`) |
| Text.FormatBool | pkg/opa/generate.go:234 | `strconv.FormatBool`: `true` or `false` |
| Text.FormatInt | pkg/opa/generate.go:236 | `strconv.FormatInt(n, 10)`: a minus sign for negatives, then the decimal digits; reads back by `Text.ParseFormatInt` |
| Text.TrimSpaceOneBlank | pkg/opa/generate.go:470 | text bounded by visible characters loses exactly the one trailing blank |
| Text.Split | pkg/opa/generate.go:456 | at least one piece; no piece contains the separator; joining the pieces with it gives back the input |
| Text.SplitFirst | pkg/opa/generate.go:456 | splitting at the first separator gives the text before it, then the split of the rest |
| Text.SplitJoin | pkg/opa/generate.go:456 | Split inverts Join when no piece holds the separator |
| Text.NatText | pkg/opa/generate.go:236 | the decimal text of a natural number is non-empty and made of digits only |
| Text.DigitsValueNatText | pkg/opa/generate.go:236 | the decimal digits of a natural number read back as that number |
| Text.ParseFormatInt | pkg/opa/generate.go:236 | `strconv.FormatInt(n, 10)` loses nothing: it reads back as `n`, sign included |
| Text.FormatIntInjective | pkg/opa/generate.go:236 | distinct integers have distinct decimal texts |
| Text.QuotePlain | pkg/opa/generate.go:193 | quoting text without quotes, backslashes or control characters only adds the two quotes |
| Text.ReadEscapedChar | pkg/opa/generate.go:417 | every escape `strconv.Quote` writes for one character reads back as that character |
| Text.ReadQuotedEscape | pkg/opa/generate.go:417 | an escaped body and its closing quote read back as the original text, with the exact length consumed |
| Text.UnquoteQuote | pkg/opa/generate.go:193 | `strconv.Quote` is inverted by unquoting: quoting loses nothing |
| Text.Quote | pkg/opa/generate.go:193 | `strconv.Quote`: the text between double quotes, `"`, `\` and control characters escaped; inverted by `Text.UnquoteQuote` |
| Text.NamedUnescape | pkg/opa/generate.go:417 | an escape letter is read back only as the character that is escaped by that letter |
| PathTemplate.RunEndChars | pkg/opa/generate.go:16 | the name run from an index covers name characters `[^{}*]` only and stops at the first other character |
| PathTemplate.RunEndAt | pkg/opa/generate.go:16 | a run of name characters closed by another character ends exactly there |
| PathTemplate.NameRunChars | pkg/opa/generate.go:16 | the greedy `[^{}*]+` run holds only name characters and stops at the first non-name character |
| PathTemplate.NameRunPrefix | pkg/opa/generate.go:16 | the name run over a prefix of name characters stops exactly where the prefix ends |
| PathTemplate.NameGroupMatch | pkg/opa/generate.go:16 | a name-group match is a non-empty name closed by `}` or `*}` |
| PathTemplate.RunEnd | pkg/opa/generate.go:16 | the end of the greedy run of name characters `[^{}*]` from an index (`PathTemplate.RunEndChars`, `PathTemplate.RunEndAt`) |
| PathTemplate.NameRun | pkg/opa/generate.go:16 | the greedy `[^{}*]+` run at the start of a text |
| PathTemplate.NameGroup | pkg/opa/generate.go:16 | the capture group `([^{}*]+)` followed by the optional `*` and the closing `}`, with the regexp's backtracking when the run is followed by `*` but not `*}` |
| PathTemplate.ParamAt | pkg/opa/generate.go:16 | a match of the whole pattern at the start of a text: `{`, the optional operator when the rest still matches, then the name group; its name and length |
| PathTemplate.IsTemplate | pkg/opa/generate.go:443-453 | the documented parameter forms: `{`, an optional `.`, `;` or `?`, a name, an optional `*`, `}` |
| PathTemplate.NameGroupTemplate | pkg/opa/generate.go:16 | a valid name closed by `}` or `*}` matches and yields that name, whatever follows |
| PathTemplate.ParamAtMatches | pkg/opa/generate.go:16 | whatever the pattern matches is a parameter template `{op? name *?}` of the name it yields |
| PathTemplate.ParamAtTemplate | pkg/opa/generate.go:443-453 | each of the eight documented forms `{p}`, `{p*}`, `{.p}`, … matches, yields `p` and consumes the whole form |
| PathTemplate.ParamAtStarInside | pkg/opa/generate.go:16 | a brace group whose `*` is not right before `}` does not match |
| PathTemplate.SubstituteMatch | pkg/opa/generate.go:455 | a match is replaced by `:name` and scanning resumes after it |
| PathTemplate.SubstituteCopy | pkg/opa/generate.go:455 | where nothing matches the character is copied and scanning moves one on |
| PathTemplate.NextPiece | pkg/opa/generate.go:455 | one scan step emits what the replacement emits at that position and advances past it |
| PathTemplate.ReplaceParams | pkg/opa/generate.go:455 | the scanning loop computes `ReplaceAllString(path, ":$1")` |
| PathTemplate.SubstituteNoBrace | pkg/opa/generate.go:455 | text without `{` is left unchanged |
| PathTemplate.SubstituteLiteralPrefix | pkg/opa/generate.go:455 | a brace-free prefix is copied and the replacement continues after it |
| PathTemplate.SubstituteTemplate | pkg/opa/generate.go:455 | every template form is replaced by the marker `:name`, the rest replaced on its own |
| PathTemplate.Substitute | pkg/opa/generate.go:455 | `ReplaceAllString(path, ":$1")`: leftmost matches replaced by `:` and the name, everything else copied |
| PathTemplate.Segments | pkg/opa/generate.go:455-456 | the replaced path with leading slashes trimmed, split at `/` |
| PathTemplate.SegmentText | pkg/opa/generate.go:460-467 | a segment starting with `:` loses its leading colons and stays bare; any other is quoted |
| PathTemplate.Listed | pkg/opa/generate.go:459-467 | the text the loop builds: `[` then each segment text followed by `, ` |
| PathTemplate.SegmentsLiteral | pkg/opa/generate.go:458-476 | the trimmed list closed by `]`, and `["/"]` in place of `[""]` |
| PathTemplate.PathLiteral | pkg/opa/generate.go:454-477 | the path-array literal of a path: segments of the replaced path, listed |
| PathTemplate.SegmentTexts | pkg/opa/generate.go:460-467 | one text per segment, in order: a `:` segment becomes a bare name, anything else a quoted string |
| PathTemplate.ListedJoin | pkg/opa/generate.go:459-467 | the loop's text is `[` followed by the segment texts joined by `, ` and a trailing `, ` |
| PathTemplate.ListedTrim | pkg/opa/generate.go:470 | trimming the trailing blank and comma and closing the bracket gives the segment texts joined by `, ` between brackets |
| PathTemplate.ListSegments | pkg/opa/generate.go:458-476 | the listing loop and the trim produce the bracketed segment list, `["/"]` for a lone empty segment |
| PathTemplate.SplitPath | pkg/opa/generate.go:455-456 | replacement then left-trim of `/` then split at `/` yields at least one segment |
| PathTemplate.ConvertPath | pkg/opa/generate.go:454-477 | `convertOASPathToParsedPath` computes the path literal |
| PathTemplate.RootPath | pkg/opa/generate.go:472-475 | a path of slashes only, `/` among them, becomes `["/"]` |
| PathTemplate.TrimLeftSlash | pkg/opa/generate.go:456 | one leading slash before a non-slash character is all that is trimmed |
| PathTemplate.SubstituteLiteralThenParameter | pkg/opa/generate.go:455 | in `/lit/{…}` the parameter becomes `:name` and the literal and slashes stay |
| PathTemplate.SplitLiteralThenMarker | pkg/opa/generate.go:456 | a literal and a marker separated by one slash split into exactly those two segments |
| PathTemplate.ListLiteralThenMarker | pkg/opa/generate.go:459-470 | a literal segment and a marker list as `["lit", name]` |
| PathTemplate.TrimLeftColon | pkg/opa/generate.go:463 | the marker colon is dropped and the name kept |
| PathTemplate.LiteralThenParameter | pkg/opa/generate.go:454-477 | `/users/{id}` and every other operator/star form of the parameter converts to `["users", id]` |
| PathTemplate.StarInsideSubstitute | pkg/opa/generate.go:455 | a brace group with an inner `*`, like `{a*b}`, is no parameter and is left as is |
| PathTemplate.StarInsideStaysLiteral | pkg/opa/generate.go:454-477 | such a group becomes one quoted literal segment |
| Security.RequirementMap | pkg/opa/generate.go:406-408 | the map of one requirement has exactly that requirement's scheme names as keys |
| Security.SecuritySchemes | pkg/opa/generate.go:403-411 | the nested loop builds the requirements' union map, a later entry overriding an earlier one |
| Security.Schemes | pkg/opa/generate.go:403-411 | the requirements' maps merged in order, a later requirement overriding an earlier one |
| Security.RequirementMapLast | pkg/opa/generate.go:406-408 | within a requirement a scheme keeps the scopes of its last entry |
| Security.SchemesKeys | pkg/opa/generate.go:403-411 | a scheme is in the map exactly when some requirement names it |
| Security.SchemesLast | pkg/opa/generate.go:403-411 | a scheme maps to its scopes in the last requirement that names it |
| Security.QuoteAll | pkg/opa/generate.go:414-418 | one quoted field per field, in order |
| Security.FormattedMaskFields | pkg/opa/generate.go:413-421 | `getFormattedMaskFields` builds `[` + quoted fields joined by `,` + `]` |
| Security.MaskFieldList | pkg/opa/generate.go:413-421 | `[`, the quoted fields joined by `,`, `]` |
| Security.ParseItemsQuoted | pkg/opa/generate.go:417 | a quoted field followed by `]` or by `,` and more items reads back as that field first |
| Security.ParseItemsJoin | pkg/opa/generate.go:420 | the comma-joined quoted fields and the closing bracket read back as the fields |
| Security.MaskFieldsRoundTrip | pkg/opa/generate.go:413-421 | the mask-field literal loses nothing: it reads back as exactly the fields, in order |
| Security.MaskFieldsEmpty | pkg/opa/generate.go:420 | the literal is always bracketed, and it is `[]` exactly for no fields |
| Expressions.Symbol | pkg/opa/generate.go:17-23 | known operators get their table symbol; an unknown one joins with the empty string, and only an unknown one does |
| Expressions.ScopeString | pkg/opa/generate.go:221-231 | the string case of the type switch in each context (list here, overwrite at lines 282-291, boolean at 352-359); stated by `ListScope`, `OverwriteScope`, `BooleanScope`, `ScopeDollar` |
| Expressions.CompileOperand | pkg/opa/generate.go:221-241 | the type switch: a string scoped, a boolean and a number formatted, any other type the illegal-operand error naming it |
| Expressions.CompileOperands | pkg/opa/generate.go:220-241 | operands compile exactly when none is of an illegal type, one text per operand in order |
| Expressions.CompileOperandsFirstError | pkg/opa/generate.go:239-240 | the first operand of an illegal type decides the error, which names its type |
| Expressions.CompileExpression | pkg/opa/generate.go:219-243 | the operand loop computes the operator entry's expression, stopping at the first illegal operand |
| Expressions.Expression | pkg/opa/generate.go:219-243 | the operands compiled in order and joined with the operator's symbol, or the first illegal-operand error |
| Expressions.EntryExpressions | pkg/opa/generate.go:218-244 | one expression per operator entry, in order, the first error winning |
| Expressions.OperationsExpressions | pkg/opa/generate.go:216-245 | the expressions of all entries of all operations, one operation after the other |
| Expressions.RulesExpressions | pkg/opa/generate.go:274-307 | one expression list per rule, the first error winning |
| Expressions.NumberOperand | pkg/opa/generate.go:235-238 | a number operand always compiles, to text that reads back as the number |
| Expressions.BinaryExpression | pkg/opa/generate.go:243 | two legal operands compile to `left symbol right` |
| Expressions.IllegalOperandFails | pkg/opa/generate.go:239-240 | one operand of an illegal type fails the whole expression, naming the first such type |
| Expressions.EntryExpressionsElements | pkg/opa/generate.go:217-245 | successful operator entries give one expression per entry, in order |
| Expressions.EntryExpressionsAppend | pkg/opa/generate.go:217-245 | compiling two runs of entries one after the other: the first error wins, else the expressions concatenate |
| Expressions.RulesExpressionsElements | pkg/opa/generate.go:275-307 | successful rules give one expression list per rule, in order |
| Expressions.CompileOperation | pkg/opa/generate.go:218-244 | the loop over one operation's entries computes their expressions or the first error |
| Expressions.CompileOperations | pkg/opa/generate.go:216-245 | the loop over a list filter's operations computes all entries' expressions or the first error |
| Expressions.CompileRules | pkg/opa/generate.go:274-307 | the loop over an overwrite or boolean filter's rules computes one expression list per rule or the first error |
| Expressions.ScopeDollar | pkg/opa/generate.go:223-224 | in every context a `$` reference loses all leading `$` and nothing else |
| Expressions.ListScope | pkg/opa/generate.go:222-231 | in a list filter a string gets `x.` exactly when it is no token or input reference; otherwise `[_]` is added for membership only |
| Expressions.OverwriteScope | pkg/opa/generate.go:282-291 | in an overwrite filter a string gets `input.object.` exactly when it is no token reference or quoted literal; otherwise `[_]` is added for membership only |
| Expressions.BooleanScope | pkg/opa/generate.go:352-359 | in a boolean filter membership appends `[_]`, negation prefixes `not `, and any other operator keeps the string |
| Expressions.ScopeInjective | pkg/opa/generate.go:222-231 | in each of the three contexts (also lines 282-291 and 352-359) distinct non-`$` strings stay distinct |
| Schema.PairRecords | pkg/opa/generate.go:183-198 | records exist exactly when every scheme is known, one per pair carrying that scheme's scopes and fields |
| Schema.KindOf | pkg/opa/generate.go:49-108 | which branch of the template renders a record: field filter, then list, overwrite, boolean, else default |
| Schema.FieldRecord | pkg/opa/generate.go:191-196 | a field-filter record: path, method, the scheme's scopes and the mask-field literal |
| Schema.ListRecord | pkg/opa/generate.go:251-255 | a list-filter record with the definition's source and compiled expressions |
| Schema.HelperName | pkg/opa/generate.go:317 | `allow` followed by the decimal definition number counted from 1 |
| Schema.ValueText | pkg/opa/generate.go:309-311 | the overwrite value, `null` when it is missing |
| Schema.OverwriteRecord | pkg/opa/generate.go:313-325 | an overwrite record: field, value, negation, helper name and compiled rules |
| Schema.BooleanRecord | pkg/opa/generate.go:377-385 | a boolean-filter record with the compiled rules |
| Schema.DefaultRecord | pkg/opa/generate.go:392-395 | a record with path and method only, no scopes |
| Schema.Pairs | pkg/opa/generate.go:182-183 | the (scheme, fields) pairs of all field-filter definitions, definition by definition |
| Schema.FieldRecords | pkg/opa/generate.go:182-199 | the records of all field-filter definitions, the first unknown scheme failing |
| Schema.OverwriteRecords | pkg/opa/generate.go:273-327 | one record per overwrite definition numbered from a start index, the first compile error failing |
| Schema.PairRecordsFirstError | pkg/opa/generate.go:187-189 | the first unknown scheme decides the error, which names it |
| Schema.PairRecordsAppend | pkg/opa/generate.go:182-199 | the records of two runs of pairs: the first error wins, else they concatenate |
| Schema.DefinitionRecords | pkg/opa/generate.go:183-198 | the loop over one definition's schemes computes its records or the unknown-scheme error |
| Schema.FieldFilterRecords | pkg/opa/generate.go:182-199 | the loop over the field-filter definitions computes all their records or the first error |
| Schema.ListRecords | pkg/opa/generate.go:215-257 | records exist exactly when every definition compiles, one per definition with its source and expressions |
| Schema.ListFilterRecords | pkg/opa/generate.go:215-257 | the list-filter loop computes those records or the first error |
| Schema.OverwriteRecordsOk | pkg/opa/generate.go:273-307 | the overwrite records exist exactly when every definition's rules compile |
| Schema.OverwriteRecordsLength | pkg/opa/generate.go:273-327 | one record per overwrite definition |
| Schema.OverwriteRecordAt | pkg/opa/generate.go:309-326 | the record at `i` carries definition `i`'s field, value (`null` when absent), negation, compiled rules and helper number |
| Schema.OverwriteRecordsShape | pkg/opa/generate.go:273-327 | every successful overwrite record belongs to its definition, numbered by position |
| Schema.OverwriteFilterRecords | pkg/opa/generate.go:273-327 | the overwrite-filter loop computes those records, numbering helpers from `allow1`, or the first error |
| Schema.BooleanRecords | pkg/opa/generate.go:343-387 | records exist exactly when every definition's rules compile, one per definition with its expressions |
| Schema.BooleanFilterRecords | pkg/opa/generate.go:343-387 | the boolean-filter loop computes those records or the first error |
| Schema.FieldSchemas | pkg/opa/generate.go:161-200 | the field-filter extension fails without security requirements, else yields its definitions' records |
| Schema.ExtensionSchemas | pkg/opa/generate.go:160-397 | the four extension checks and the default rule append their records in order, the first error aborting |
| Schema.OperationSchemas | pkg/opa/generate.go:158-397 | one operation's records, with its path converted and its method quoted |
| Schema.FieldPart | pkg/opa/generate.go:161-200 | no records without the extension; the missing-security error without requirements; else the field records |
| Schema.ListPart | pkg/opa/generate.go:203-258 | the list-filter records, or none without the extension |
| Schema.OverwritePart | pkg/opa/generate.go:261-328 | the overwrite records numbered from `allow1`, or none without the extension |
| Schema.BooleanPart | pkg/opa/generate.go:331-388 | the boolean-filter records, or none without the extension |
| Schema.DefaultPart | pkg/opa/generate.go:391-397 | one default record exactly when the boolean-filter extension is absent |
| Schema.RecordsFor | pkg/opa/generate.go:160-397 | the five parts of one operation concatenated in order, the first error aborting |
| Schema.OperationRecords | pkg/opa/generate.go:158-397 | the records of one operation with its path converted and its method quoted |
| Schema.Records | pkg/opa/generate.go:155-399 | all operations' records exist exactly when every operation succeeds |
| Schema.MissingSecurityFails | pkg/opa/generate.go:166-167 | a field filter on an operation without security requirements fails with the missing-security error |
| Schema.FieldFilterSchemes | pkg/opa/generate.go:182-189 | with security present, the field filter fails exactly when a pair names a scheme the requirements lack |
| Schema.FieldPartKinds | pkg/opa/generate.go:191-196 | field-filter records are field records that set only the field filter |
| Schema.ListPartKinds | pkg/opa/generate.go:251-255 | list-filter records set only the list filter |
| Schema.OverwritePartKinds | pkg/opa/generate.go:321-325 | overwrite records set only the overwrite filter |
| Schema.BooleanPartKinds | pkg/opa/generate.go:381-385 | boolean records set only the boolean filter |
| Schema.OperationParts | pkg/opa/generate.go:160-397 | a successful operation's records are its five parts in order, each of its own kind and setting one filter |
| Schema.OperationRecordCounts | pkg/opa/generate.go:160-397 | one field record per (definition, scheme) pair, one record per list, overwrite and boolean definition, and a default record exactly when there is no boolean filter |
| Schema.OperationRecordsSingle | pkg/opa/generate.go:160-397 | every record sets at most one filter, so the template's priority hides none |
| Schema.OperationRecordsOrdered | pkg/opa/generate.go:160-397 | records come grouped by kind: field, list, overwrite, boolean, default |
| Schema.HelperNamesDistinct | pkg/opa/generate.go:317 | within an operation the `i`-th overwrite record's helper is `allow{i+1}`, so no two share a helper |
| Render.Buffer.constructor | pkg/opa/generate.go:433 | a new buffer is empty |
| Render.Preamble | pkg/opa/generate.go:46-49 | `package` and the package name, `default allow = false` and the decoded-token rule |
| Render.Location | pkg/opa/generate.go:52-53 | the two lines that match the request's path and method |
| Render.ScopeLines | pkg/opa/generate.go:54-58 | one `token.payload.scopes["…"]` line per scope |
| Render.ExpressionLines | pkg/opa/generate.go:90-92 | one indented line per expression |
| Render.FieldText | pkg/opa/generate.go:49-59 | the `filter` rule with the mask-field literal, location and scope checks |
| Render.ListHead | pkg/opa/generate.go:61-64 | the `list_filter[x]` head with location and the element binding over the source |
| Render.ListText | pkg/opa/generate.go:59-70 | the `list_filter` rule with one line per expression |
| Render.ResponseRules | pkg/opa/generate.go:71-85 | the two `response` rules in template order, the value guarded by the helper or its negation as `negated` selects |
| Render.ResponseRuleText | pkg/opa/generate.go:72-84 | one `response` rule: field, value and guard |
| Render.ResponsePair | pkg/opa/generate.go:71-85 | the two `response` rules as the template lays them out |
| Render.HelperHead | pkg/opa/generate.go:87-89 | the helper rule head with location |
| Render.HelperRules | pkg/opa/generate.go:86-94 | one helper rule per compiled rule |
| Render.OverwriteText | pkg/opa/generate.go:70-94 | the `response` pair followed by the helper rules |
| Render.AllowHead | pkg/opa/generate.go:97-99 | the `allow = true` head with location |
| Render.AllowRules | pkg/opa/generate.go:95-103 | one `allow` rule per compiled rule |
| Render.BooleanText | pkg/opa/generate.go:94-103 | the boolean filter's `allow` rules |
| Render.DefaultText | pkg/opa/generate.go:103-108 | the `allow` rule with location only |
| Render.RecordText | pkg/opa/generate.go:49-108 | one record's text, the branch chosen in the template's priority |
| Render.RecordsText | pkg/opa/generate.go:49-108 | every record's text, in order (the template's `range`) |
| Render.PolicyText | pkg/opa/generate.go:46-108 | the preamble followed by the records' text |
| Render.Buffer.WriteString | pkg/opa/generate.go:433 | writing appends to the buffer's text and changes nothing else |
| Render.WriteRule | pkg/opa/generate.go:86-93 | a rule head, one indented line per expression, then the closing text are appended |
| Render.WriteField | pkg/opa/generate.go:49-59 | appends the field-filter rule with one scope check per scope |
| Render.WriteOverwrite | pkg/opa/generate.go:70-94 | appends the two `response` rules and one helper rule per rule of the definition |
| Render.WriteBoolean | pkg/opa/generate.go:94-103 | appends one `allow` rule per rule of the definition |
| Render.WriteRecord | pkg/opa/generate.go:49-108 | appends the record's text, chosen in the template's priority field, list, overwrite, boolean, default |
| Render.GenerateRego | pkg/opa/generate.go:423-441 | `generateRego` yields the preamble followed by every record's text in order |
| Render.OverwriteGuards | pkg/opa/generate.go:71-85 | of the two `response` rules exactly one applies, and it writes the value exactly when the helper's outcome differs from `negated`, the object's own field otherwise |
| Render.RecordsTextAppend | pkg/opa/generate.go:49-108 | rendering distributes over concatenation of record lists |
| Common.MessageInjective | pkg/opa/generate.go:166-240 | the three hard errors have distinct messages: the message tells which error and which name it was |
| Common.Message | pkg/opa/generate.go:166-240 | the error texts of lines 167, 188 and 240, the scheme or type name inserted |
| Generator.Generate | pkg/opa/generate.go:153-401 | returns the policy and no error, or the empty text and the first error's message |
| Generator.Policy | pkg/opa/generate.go:153-401 | the policy text of all operations' records, or the first error |
| Generator.OperationsText | pkg/opa/generate.go:155-400 | each operation's rendered records, one operation after the other |
| Generator.RecordsTextOperations | pkg/opa/generate.go:155-400 | when every operation succeeds, the rendered records are each operation's rules, in operation order |
| Generator.PolicyOperations | pkg/opa/generate.go:153-401 | a successful policy is the preamble followed by each operation's rules in order |
| Generator.FirstFailure | pkg/opa/generate.go:157-400 | the first failing operation's error is the result, and no policy is produced |
| Generator.MissingSecurityAborts | pkg/opa/generate.go:166-167 | a field filter without security requirements on any operation aborts the whole generation |

## Left out

- Loading and validating the OpenAPI document, and the command-line program in `cmd/openapi-to-rego/main.go` (flags, file output) are not part of this model.
- JSON decoding of the extension payloads, with its "type assertion error" and unmarshalling errors, is left out: operations arrive with their extensions already decoded.
- Go's map iteration order is unspecified, so the model takes every iterated map as a sequence in iteration order instead.
- The `text/template` engine is not modelled: the template's output is written out as one text function per record kind. Template parse and execute errors are left out. A package name holding template delimiters would be parsed as template actions, and the model does not cover that.
- The overwrite value is printed by the template with `%v`, whatever JSON value it is; the model takes that printed text as given, with a missing value as `null`.
- JSON numbers decode to `float64`, which the code truncates with `int64(val)`. The model's number operand is that integer, so floating point and the `int64` range are not modelled.
- The Go type name (`%T`) that an illegal operand's error names is taken as given with the operand.
- Quoting treats every non-ASCII character as printable: `strconv.Quote`'s `\u` escapes of non-printable Unicode are not modelled.
- The regular-expression engine is not modelled in general: only the one path-parameter pattern is, through its own scanner.
- Some parts of the code are separate methods that run the same steps in the same order: the inner loops `DefinitionRecords` (over one field-filter definition's schemes) and `CompileOperation` (over one operation's entries); the bodies of the extension `if` blocks, `FieldSchemas` and `ExtensionSchemas`; and `NextPiece`, one scan step of `ReplaceAllString` inside `convertOASPathToParsedPath`.
