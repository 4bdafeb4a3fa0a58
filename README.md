# Meadow filter parser, modelled in Dafny

Meadow takes filters as one string of `~`-separated tokens in groups of four:
`INSTRUCTION~FIELD~OPERATOR~VALUE`. For example, `FBV~Category~EQ~Books` keeps
rows whose `Category` equals `Books`, and `FSF~PublishedYear~DESC~0` sorts on
`PublishedYear`. `doParseFilter` cuts the string into tokens and collects each
group of four into a *stanza* record. It hands each record to
`addFilterStanzaToQuery`, which turns the record into calls on a query
builder: `addFilter`, `addSort` or `setDistinct`.

Instructions fall into four families:

- value, list and date filters: `FBV`, `FBL`, `FBD`;
- JSON filters and sorts: `FBJV`, `FBJL`, `FBJD`, `FSJF`;
- a plain sort (`FSF`) and parentheses (`FOP`, `FCP`);
- distinct (`FDST`).

Each value, list and date filter has an `OR` form (`FBVOR`, `FBLOR`, `FBDOR`),
and so do the JSON value and list filters (`FBJVOR`, `FBJLOR`) and the open
parenthesis (`FOPOR`). The JSON date filter `FBJD` has no `OR` form.

The helpers are modelled as well:

- mapping comparison mnemonics to SQL comparators (`getFilterComparisonOperator`);
- mapping cast mnemonics to SQL types (`getDataType`);
- quote escaping (`prepareQueryValues`);
- splitting a `Column.json.path` reference (`parseJSONFieldAndPath`);
- the four-call JSON predicate group, with its numeric coercion (`addFilterJSONToQuery`).

Modules:

- `Wrappers`: `Option` and `Result`. A `Failure` stands for a thrown error.
- `JsText`: the JavaScript string built-ins the parser uses (`indexOf`, `split`,
  `replaceAll` for a one-character pattern). Each comes with the lemmas that pin
  it down; for example, `Split` is the inverse of `Join`.
- `Lookups`: the two mnemonic tables.
- `Escaping`: `prepareQueryValues` and `parseJSONFieldAndPath`.
- `Query`: the query builder. It is a class whose state is the log of the calls
  made on it. `hasSetDistinct` says whether the builder offers `setDistinct`.
- `StanzaTranslator` models `addFilterStanzaToQuery` twice:
  - as a pure specification: `Translate` maps one record to its outcome, which is
    calls made, nothing done, or an error thrown;
  - as the imperative method `AddFilterStanzaToQuery`, which is proved to make
    exactly those calls on the builder and to clear the record's instruction.
- `FilterParse` models `doParseFilter` in the same two forms:
  - the specification `ParseFilter` groups the tokens into records, translates
    each one, and runs the outcomes in order until the first throw;
  - the method `DoParseFilter` has the loop and the mutable record of the source.
    It is proved to produce the log and the result of `ParseFilter`.

## Model

| member | source | states |
|---|---|---|
| JsText.IndexOf | source/Meadow-Filter-Parse.js:184 | `indexOf` gives -1 exactly when the character is absent; otherwise it gives an index holding the character with no earlier occurrence |
| JsText.Split | source/Meadow-Filter-Parse.js:375 | `split` on one character gives one piece more than the number of separators, and no piece contains the separator |
| JsText.JoinSplit | source/Meadow-Filter-Parse.js:375 | joining the pieces of a split with the separator gives the string back |
| JsText.SplitJoin | source/Meadow-Filter-Parse.js:375 | splitting a join of separator-free pieces gives the pieces back |
| JsText.SplitPiece | source/Meadow-Filter-Parse.js:375 | a separator-free string splits into itself alone |
| JsText.SplitPrefixed | source/Meadow-Filter-Parse.js:375 | a separator-free prefix in front of a text that starts with the separator is glued onto the first piece; the other pieces are unchanged |
| JsText.CountAppend | source/Meadow-Filter-Parse.js:375 | the number of separators in a concatenation is the sum of the two counts |
| JsText.CountAbsent | source/Meadow-Filter-Parse.js:375 | a character is absent exactly when its count is zero |
| JsText.ReplaceAll | source/Meadow-Filter-Parse.js:173 | `replaceAll` for a one-character pattern; specified by `ReplaceAllAppend`, `ReplaceAllAbsent` and, for the two passes of line 173, `Escaping.EscapeQuotesIsPerChar` |
| JsText.ReplaceAllAppend | source/Meadow-Filter-Parse.js:173 | `replaceAll` distributes over concatenation |
| JsText.ReplaceAllAbsent | source/Meadow-Filter-Parse.js:173 | replacing a character that does not occur changes nothing |
| Lookups.ComparisonOperator | source/Meadow-Filter-Parse.js:82-132 | each of the 15 mnemonics gives its comparator; every other mnemonic gives `=`; the result is always a comparator of the table |
| Lookups.EqualsComparator | source/Meadow-Filter-Parse.js:84-131 | the comparator is `=` exactly for `EQ` and for mnemonics outside the table |
| Lookups.DataType | source/Meadow-Filter-Parse.js:139-161 | `SINT`, `UINT`, `DD` and `DATE` cast to their SQL types; everything else casts to `CHAR` |
| Escaping.EscapeQuotes | source/Meadow-Filter-Parse.js:173 | the two `replaceAll` passes on one value; what they mean is stated by `EscapeQuotesSpec` and `EscapeQuotesIsPerChar` |
| Escaping.EscapeQuotesIsPerChar | source/Meadow-Filter-Parse.js:173 | the two `replaceAll` passes equal a one-pass escape of every quote |
| Escaping.EscapeEachLength | source/Meadow-Filter-Parse.js:173 | escaping adds exactly one character per quote |
| Escaping.EscapeEachHead | source/Meadow-Filter-Parse.js:173 | an escaped string starts with a backslash when the input starts with a quote, and with the input's first character otherwise |
| Escaping.EscapeEachGuarded | source/Meadow-Filter-Parse.js:173 | every quote in an escaped string directly follows a backslash |
| Escaping.UnescapeEscapeEach | source/Meadow-Filter-Parse.js:173 | unescaping an escaped string gives the input back |
| Escaping.EscapeEachNoChange | source/Meadow-Filter-Parse.js:173 | a quote-free string is left unchanged |
| Escaping.EscapeEachKeeps | source/Meadow-Filter-Parse.js:173 | a character that is neither a quote nor a backslash is in the output exactly when it is in the input |
| Escaping.EscapeQuotesSpec | source/Meadow-Filter-Parse.js:168-175 | escaping a value adds one character per quote, guards every quote with a backslash, can be undone by unescaping, leaves quote-free values unchanged, and keeps all other characters |
| Escaping.PrepareQueryValues | source/Meadow-Filter-Parse.js:168-175 | the result has one entry per value, in order, each one that value escaped |
| Escaping.ParseJSONFieldAndPath | source/Meadow-Filter-Parse.js:182-199 | the cut of a field at its first `.`; specified by `ParseJSONFieldAndPathSpec` |
| Escaping.ParseJSONFieldAndPathSpec | source/Meadow-Filter-Parse.js:182-199 | the split throws the "Invalid format for Field[…]" error exactly when the field has no `.` or begins with one; otherwise the column is the quote-escaped text before the first `.` and the path is the quote-escaped text from it on, so every quote in either sits behind a backslash; the column is non-empty and dot-free, the path begins with the dot, and the unescaped halves glue back to the field |
| Query.QueryBuilder.constructor | source/Meadow-Filter-Parse.js:208 | stand-in for the `pQuery` builder the parser receives: a new builder has made no calls and has the given `setDistinct` capability |
| Query.QueryBuilder.AddFilter | source/Meadow-Filter-Parse.js:252-253 | `addFilter` appends exactly its own call to the log |
| Query.QueryBuilder.AddSort | source/Meadow-Filter-Parse.js:278-281 | `addSort` appends exactly its own call to the log |
| Query.QueryBuilder.SetDistinct | source/Meadow-Filter-Parse.js:350-356 | `setDistinct` is callable only on a builder that offers it, and appends exactly its own call |
| StanzaTranslator.SortDirection | source/Meadow-Filter-Parse.js:279 | the direction is descending exactly when the operator is `DESC` |
| StanzaTranslator.FindNaN | source/Meadow-Filter-Parse.js:224 | `find` gives nothing exactly when every entry is a number; otherwise it gives the first entry of the list that is not a number, every entry before it being a number |
| StanzaTranslator.CoerceValue | source/Meadow-Filter-Parse.js:217-236 | the choice of `finalValue`; specified by `CoerceValueSpec` |
| StanzaTranslator.CoerceValueSpec | source/Meadow-Filter-Parse.js:217-236 | a list becomes a number list exactly when every entry is a number, and a string becomes a number exactly when it is one; otherwise the value is passed on unchanged |
| StanzaTranslator.JsonFilterCalls | source/Meadow-Filter-Parse.js:211-241 | the calls `addFilterJSONToQuery` makes; specified by `JsonFilterCallsSpec` |
| StanzaTranslator.JsonFilterCallsSpec | source/Meadow-Filter-Parse.js:211-241 | the JSON group is exactly: open paren, `JSON_VALID(column) = 1` AND-connected, the comparison on the extracted value with the given comparator and connector, close paren; the extracted value is compared as numbers exactly when the value is numeric throughout, and otherwise against the value unchanged |
| StanzaTranslator.ParseInstruction | source/Meadow-Filter-Parse.js:250-361 | the `switch` recognises exactly the 17 mnemonics, and a recognised instruction has the mnemonic it was read from |
| StanzaTranslator.ParseMnemonic | source/Meadow-Filter-Parse.js:250-361 | reading an instruction's own mnemonic gives that instruction back |
| StanzaTranslator.Translate | source/Meadow-Filter-Parse.js:243-366 | the outcome of one record; specified by `TranslateOutcome` and the per-instruction lemmas `ValueFilterDispatch`, `SortDispatch`, `GroupAndDistinctDispatch`, `JsonValueDispatch` and `JsonDateAndSortDispatch` |
| StanzaTranslator.Dispatch | source/Meadow-Filter-Parse.js:250-361 | the `switch` once the instruction is known; specified by `DispatchOutcome` |
| StanzaTranslator.TranslateOutcome | source/Meadow-Filter-Parse.js:243-366 | a record with no instruction or an unknown one does nothing and gives `false`; a record throws exactly when it has a JSON instruction and a field that does not split, and the error names the field; every other record makes as many calls as its instruction makes (none for `FDST` on a builder without `setDistinct`) |
| StanzaTranslator.DispatchOutcome | source/Meadow-Filter-Parse.js:250-361 | every one of the 17 cases is handled; a case throws exactly when it is a JSON case and the field does not split, and then with the split's error |
| StanzaTranslator.JsonOutcome | source/Meadow-Filter-Parse.js:283-336 | the six JSON cases: the field split at lines 285, 292, 299, 307, 315 and 328 throws its error, or the case's calls follow; specified by `JsonOutcomeKind`, `JsonValueDispatch` and `JsonDateAndSortDispatch` |
| StanzaTranslator.JsonCalls | source/Meadow-Filter-Parse.js:283-336 | the calls of each JSON case once the field is split, built from the templates `ValidJsonFilter` (lines 215, 318, 332), `JsonExtractCast` (216), `JsonExtractDate` (321) and `JsonSortColumn` (334); specified by `JsonValueDispatch` and `JsonDateAndSortDispatch` |
| StanzaTranslator.JsonOutcomeKind | source/Meadow-Filter-Parse.js:283-335 | a JSON case throws exactly when its field does not split; otherwise it makes 4 calls, or 2 for `FSJF` |
| StanzaTranslator.TranslateDispatches | source/Meadow-Filter-Parse.js:250 | a record naming an instruction by its mnemonic goes to that instruction's case |
| StanzaTranslator.ConnectorOfMnemonic | source/Meadow-Filter-Parse.js:256-343 | the instructions connected by OR are exactly `FBVOR`, `FBLOR`, `FBDOR`, `FBJVOR`, `FBJLOR` and `FOPOR` |
| StanzaTranslator.ValueFilterDispatch | source/Meadow-Filter-Parse.js:252-276 | `FBV`, `FBL`, `FBD` and their OR forms make one `addFilter` with the operator's comparator, OR exactly for the OR forms. `FBV` filters on the field with the value as it is. `FBL` and `FBD` pass exactly `split(',')` of the value: at least one comma-free piece, so an empty value gives `['']`, and the pieces join back to the value; and `FBD` filters on `DATE(field)` tagged with the field |
| StanzaTranslator.SortDispatch | source/Meadow-Filter-Parse.js:278-281 | `FSF` makes one sort on the field, descending exactly when the operator is `DESC` |
| StanzaTranslator.GroupAndDistinctDispatch | source/Meadow-Filter-Parse.js:338-357 | `FOP`, `FOPOR` and `FCP` make exactly their parenthesis call; `FDST` sets distinct when the builder can, and otherwise makes no call but still succeeds |
| StanzaTranslator.JsonValueDispatch | source/Meadow-Filter-Parse.js:283-311 | `FBJV`, `FBJVOR`, `FBJL` and `FBJLOR` on a splittable field make exactly the JSON group over the escaped column and path: on the value for the `V` forms, on the comma-cut value for the `L` forms, OR exactly for the OR forms |
| StanzaTranslator.JsonDateAndSortDispatch | source/Meadow-Filter-Parse.js:313-336 | `FBJD` makes its own four-call group on the extracted date with the comma-cut value and no numeric coercion. `FSJF` makes the validity test, then a sort on the value cast to `getDataType` of the value mnemonic, descending exactly for `DESC` |
| StanzaTranslator.FilterStanza.constructor | source/Meadow-Filter-Parse.js:382 | a new record has the given instruction and empty field, operator and value |
| StanzaTranslator.AddFilterJSONToQuery | source/Meadow-Filter-Parse.js:211-241 | the builder's log grows by exactly the JSON group |
| StanzaTranslator.AddFilterStanzaToQuery | source/Meadow-Filter-Parse.js:243-366 | the builder's log grows by exactly the calls of the record's outcome; the result is that outcome's (`false`, `true` or the thrown error); the instruction is cleared exactly when the instruction is handled (result `true`, which includes `FDST` on a builder without `setDistinct`) |
| StanzaTranslator.SwitchOnInstruction | source/Meadow-Filter-Parse.js:250-361 | the `switch`, once the instruction is known: log and result are those of that instruction's case |
| StanzaTranslator.JsonCaseToQuery | source/Meadow-Filter-Parse.js:283-335 | a JSON case: the field split's error is thrown before any call; otherwise the case's calls are made |
| StanzaTranslator.JsonCallsToQuery | source/Meadow-Filter-Parse.js:283-335 | the calls of a JSON case on an already split field, appended to the log exactly |
| FilterParse.Stanzas | source/Meadow-Filter-Parse.js:384-417 | the tokens make one record per started group of four |
| FilterParse.StanzaIndex | source/Meadow-Filter-Parse.js:384-414 | record `k` holds tokens `4k` to `4k+3`, with '' for tokens past the end |
| FilterParse.FlattenLength | source/Meadow-Filter-Parse.js:384-414 | a list of records has four fields per record |
| FilterParse.FlattenStanzas | source/Meadow-Filter-Parse.js:384-417 | the records' fields, read in order, are exactly the tokens, padded with '' to a multiple of four; nothing is lost or reordered |
| FilterParse.Outcomes | source/Meadow-Filter-Parse.js:388-417 | there is one outcome per record |
| FilterParse.OutcomeIndex | source/Meadow-Filter-Parse.js:388-417 | outcome `k` is the translation of record `k` |
| FilterParse.Run | source/Meadow-Filter-Parse.js:384-419 | the records' outcomes taken in order until the first throw; specified by `RunInOrder`, `RunStops` and `RunWithoutThrow` |
| FilterParse.RunSnoc | source/Meadow-Filter-Parse.js:384-417 | running one more outcome is one more step |
| FilterParse.AllCallsSnoc | source/Meadow-Filter-Parse.js:384-417 | the calls of one more outcome come after the earlier calls |
| FilterParse.RunInOrder | source/Meadow-Filter-Parse.js:384-417 | up to the first throw the records' calls are made in input order; the first throw ends the run with its error |
| FilterParse.RunStops | source/Meadow-Filter-Parse.js:384-417 | nothing after a throw has any effect |
| FilterParse.RunWithoutThrow | source/Meadow-Filter-Parse.js:384-419 | when no record throws, all records' calls are made in order and no error remains |
| FilterParse.ParseFilter | source/Meadow-Filter-Parse.js:368-420 | `doParseFilter` as a function; specified by `ParseFilterSpec` |
| FilterParse.ParseFilterSpec | source/Meadow-Filter-Parse.js:368-420 | a non-string gives `false` and no calls; fewer than three `~` give `true` and no calls; a string never gives `false`; otherwise all records' calls in order and `true`, or, at the first record that throws, the calls before it and that error |
| FilterParse.SplitFour | source/Meadow-Filter-Parse.js:375 | four `~`-free tokens joined by `~` split back into exactly those four |
| FilterParse.OneStanza | test/test.js:20-40 | a one-record filter string makes exactly that record's calls and gives `true`, or throws its error |
| FilterParse.ReadFirst | source/Meadow-Filter-Parse.js:382-398 | the initial record, which has no instruction, does nothing, so reading starts clean |
| FilterParse.ReadField | source/Meadow-Filter-Parse.js:400-413 | tokens 1, 2 and 3 of a group fill the field, operator and value of the current record |
| FilterParse.ReadComplete | source/Meadow-Filter-Parse.js:388-417 | at a group boundary or at the end, the current record is the next record of the specification |
| FilterParse.ReadOutcome | source/Meadow-Filter-Parse.js:388-417 | the translation of the current record at a flush is the next outcome of the specification |
| FilterParse.ReadInstruction | source/Meadow-Filter-Parse.js:388-398 | flushing in the loop extends the calls made; on a throw the whole run ends with that error |
| FilterParse.ReadLast | source/Meadow-Filter-Parse.js:417 | the final flush completes the run |
| FilterParse.FlushRecord | source/Meadow-Filter-Parse.js:388-398 | case 0 of the loop: the previous record is flushed, and on success a fresh record holds the instruction token |
| FilterParse.FlushLast | source/Meadow-Filter-Parse.js:417 | the final flush leaves the builder with the calls of the whole run, and throws exactly when the run ends in an error |
| FilterParse.FlushFirst | source/Meadow-Filter-Parse.js:382-398 | token 0: the initial record is flushed without effect, and a record holding the first instruction starts |
| FilterParse.ReadToken | source/Meadow-Filter-Parse.js:386-413 | one pass of the loop keeps the builder's log equal to the specification's calls so far |
| FilterParse.ReadTokens | source/Meadow-Filter-Parse.js:384-414 | the loop over tokens 1 onwards keeps the reading invariant, and a throw inside it ends the run with that throw's error |
| FilterParse.DoParseFilter | source/Meadow-Filter-Parse.js:368-420 | the builder's log grows by exactly the calls of `ParseFilter`, and the result is `ParseFilter`'s result |

## Left out

- `Number()`: JavaScript's conversion of strings to numbers is a parameter,
  `isNumber`. The proofs assume one fact about it: the empty string is a number,
  as it is in JavaScript. Lists and strings turned into numbers are tagged
  (`NumberList`, `Number`) and keep their text; the numeric values are not
  computed.
- Only two kinds of argument are modelled: a string, or a value that is not a
  string. Other falsy instruction values (`0`, `null`, `undefined`) cannot arise
  from a string filter, so they are not modelled. The record's instruction is an
  `Option`: `None` stands for `false` and `Some("")` for the empty token.
- Query builder: only the calls made on it are modelled, as a log. Nothing about
  the SQL it would produce is modelled, so the model makes no claim about
  SQL injection; escaping is proved only as stated above. The `addSort` object
  argument is modelled as two arguments. The check `if (pQuery.setDistinct)` is
  the builder's `hasSetDistinct` flag.
- `addFilterJSONToQuery` returning `pQuery` for chaining is not modelled, since
  the caller never uses that value.
- StanzaTranslator.AddFilterStanzaToQuery: the `switch` on strings reads the
  mnemonic into an `Instruction` value first. The switch is then split into the
  methods `SwitchOnInstruction`, `JsonCaseToQuery` and `JsonCallsToQuery`, so
  that each one can be verified separately. The branches, calls and order are
  those of the source.
- FilterParse.DoParseFilter: the loop body is split the same way, into
  `FlushFirst`, `ReadToken`, `FlushRecord`, `ReadTokens` and `FlushLast`. The
  initial record `{ Instruction: false }` has '' for the fields it lacks, which
  changes nothing because a record with no instruction is never read.
- The compound filter strings of the test suite (`test/test.js:46-51`) are not
  proved as concrete instances. The single-stanza tests follow from `OneStanza`
  together with `ValueFilterDispatch`.
- Logging (`console.log`) and Meadow's other modules are not part of this
  model.
- Text is Dafny `string`, a sequence of Unicode scalar values, while JavaScript
  strings are UTF-16 code units, so a lone surrogate cannot be represented. Every
  split, search and replace in the parser is on an ASCII character (`~`, `,`,
  `.`, `'`, `"`), so the results are the same for every string the model can
  represent.
- Two behaviours of the code worth stating:
  - A trailing partial group is always flushed by the final call at line 417,
    with '' for the tokens it never got.
  - A JSON field error is thrown out of `doParseFilter`, after the calls of the
    earlier records have been made. A `false` from an unknown instruction is
    ignored and parsing continues.
