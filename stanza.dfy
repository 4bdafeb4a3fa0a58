/**
 * The stanza translator: one `INSTRUCTION~FIELD~OPERATOR~VALUE` record becomes the
 * calls it makes on the query builder (addFilterStanzaToQuery), with the JSON
 * predicate group and its numeric coercion (addFilterJSONToQuery).
 *
 * `isNumber(t)` stands for JavaScript's `!isNaN(Number(t))`; it is a parameter
 * because the model does not define `Number()`. The one fact about it that some
 * lemmas assume is `isNumber("")`, as `Number("")` is 0.
 */
module StanzaTranslator {
  import opened Wrappers
  import opened JsText
  import opened Lookups
  import opened Escaping
  import opened Query

  /** A filter record. `instruction == None` is the source's `Instruction: false`. */
  datatype Stanza = Stanza(instruction: Option<string>, field: string, operator: string, value: string)

  /** JavaScript truthiness of `Instruction`: neither `false` nor the empty string. */
  predicate HasInstruction(instruction: Option<string>)
  {
    instruction.Some? && instruction.value != ""
  }

  /** What one dispatch does: calls made and `true` returned, `false` returned, or a throw. */
  datatype Outcome = Emitted(calls: seq<Call>) | Unparsable | Thrown(error: string)

  /** The calls an outcome leaves in the builder's log. */
  function CallsOf(o: Outcome): seq<Call>
  {
    if o.Emitted? then o.calls else []
  }

  /** What `addFilterStanzaToQuery` hands back: its boolean, or the error it throws. */
  function ResultOf(o: Outcome): Result<bool, string>
  {
    match o
    case Emitted(_) => Success(true)
    case Unparsable => Success(false)
    case Thrown(e) => Failure(e)
  }

  /** Every mnemonic the translator's `switch` has a case for. */
  const Mnemonics: set<string> := {
    "FBV", "FBVOR", "FBL", "FBLOR", "FBD", "FBDOR", "FSF",
    "FBJV", "FBJVOR", "FBJL", "FBJLOR", "FBJD", "FSJF",
    "FOP", "FOPOR", "FCP", "FDST"}

  /** The mnemonics whose predicate is left-side OR connected: they end in `OR`. */
  predicate EndsWithOr(instruction: string)
  {
    |instruction| >= 2 && instruction[|instruction| - 2..] == "OR"
  }

  /** `Operator === 'DESC'` sorts descending, anything else ascending. */
  function SortDirection(operator: string): (d: Direction)
    ensures d == Descending <==> operator == "DESC"
  {
    if operator == "DESC" then Descending else Ascending
  }

  /** `value.find((v) => isNaN(Number(v)))`: the first entry that is not a number. */
  function FindNaN(items: seq<string>, isNumber: string -> bool): (r: Option<string>)
    ensures r.None? <==> forall i :: 0 <= i < |items| ==> isNumber(items[i])
    ensures r.Some? ==> !isNumber(r.value) && r.value in items
    ensures r.Some? ==>
      exists j :: 0 <= j < |items| && items[j] == r.value && (forall i :: 0 <= i < j ==> isNumber(items[i]))
  {
    if items == [] then None
    else if !isNumber(items[0]) then Some(items[0])
    else FindNaN(items[1..], isNumber)
  }

  /**
   * The value the JSON value predicate compares against: a list goes to numbers
   * when `find` finds no non-number (`!nanFound`), a string when it is a number.
   * Any other value is a number already, and `Number()` leaves it as it is.
   */
  function CoerceValue(value: FilterValue, isNumber: string -> bool): FilterValue
  {
    match value
    case TextList(items) =>
      var nanFound := FindNaN(items, isNumber);
      if nanFound.None? || nanFound.value == "" then NumberList(items) else value
    case Text(s) => if isNumber(s) then Number(s) else value
    case _ => value
  }

  /**
   * Numeric coercion: a list becomes numbers exactly when every entry is a number,
   * a string exactly when it is one; otherwise the value is passed on unchanged.
   */
  lemma {:induction false} CoerceValueSpec(value: FilterValue, isNumber: string -> bool)
    requires isNumber("")
    ensures value.TextList? ==>
      CoerceValue(value, isNumber) ==
        if forall i :: 0 <= i < |value.items| ==> isNumber(value.items[i])
        then NumberList(value.items) else value
    ensures value.Text? ==>
      CoerceValue(value, isNumber) == if isNumber(value.text) then Number(value.text) else value
  {
    if value.TextList? {
      var nanFound := FindNaN(value.items, isNumber);
      assert nanFound.Some? ==> nanFound.value != "";
    }
  }

  /** `JSON_VALID(column) = 1`, AND connected, tagged `validJson`. */
  function ValidJsonFilter(fieldColumn: string): Call
  {
    AddFilter("JSON_VALID(" + fieldColumn + ")", Int(1), "=", Some(And), Some("validJson"))
  }

  /** The text of a JSON value extraction, as `CHAR`. */
  function JsonExtractCast(fieldColumn: string, jsonPath: string): string
  {
    "CAST(JSON_UNQUOTE(JSON_EXTRACT(" + fieldColumn + ", '$" + jsonPath + "')) AS CHAR)"
  }

  /** The text of a JSON date extraction. */
  function JsonExtractDate(fieldColumn: string, jsonPath: string): string
  {
    "DATE(JSON_UNQUOTE(JSON_EXTRACT(" + fieldColumn + ", '$" + jsonPath + "')))"
  }

  /** The sort column of `FSJF`: the JSON value cast to the sort's data type. */
  function JsonSortColumn(fieldColumn: string, jsonPath: string, sortingType: string): string
  {
    "CAST(" + fieldColumn + " ->> '$" + jsonPath + "' AS " + sortingType + ")"
  }

  /** The four calls of `addFilterJSONToQuery`. */
  function JsonFilterCalls(fieldColumn: string, jsonPath: string, value: FilterValue,
                           comparisonOperator: string, connector: Connector,
                           isNumber: string -> bool): seq<Call>
  {
    [ OpenParen,
      ValidJsonFilter(fieldColumn),
      AddFilter(JsonExtractCast(fieldColumn, jsonPath), CoerceValue(value, isNumber),
                comparisonOperator, Some(connector), Some("jsonExtracted")),
      CloseParen ]
  }

  /**
   * The JSON predicate group: an open paren, the validity test of the column, the
   * comparison on the extracted value, a close paren; the extracted value is
   * compared as numbers exactly when the value is numeric throughout, and
   * otherwise against the value as it came in.
   */
  lemma JsonFilterCallsSpec(fieldColumn: string, jsonPath: string, value: FilterValue,
                            comparisonOperator: string, connector: Connector,
                            isNumber: string -> bool)
    requires isNumber("")
    ensures var r := JsonFilterCalls(fieldColumn, jsonPath, value, comparisonOperator, connector, isNumber);
      && |r| == 4 && r[0] == OpenParen && r[3] == CloseParen
      && r[1] == ValidJsonFilter(fieldColumn)
      && r[2].AddFilter? && r[2].column == JsonExtractCast(fieldColumn, jsonPath)
      && r[2].operator == comparisonOperator && r[2].connector == Some(connector)
      && r[2].tag == Some("jsonExtracted")
      && (value.TextList? ==>
            (r[2].value == NumberList(value.items) <==> forall i :: 0 <= i < |value.items| ==> isNumber(value.items[i]))
            && (!(forall i :: 0 <= i < |value.items| ==> isNumber(value.items[i])) ==> r[2].value == value))
      && (value.Text? ==>
            (r[2].value == Number(value.text) <==> isNumber(value.text))
            && (!isNumber(value.text) ==> r[2].value == value))
      && (!value.TextList? && !value.Text? ==> r[2].value == value)
  {
    CoerceValueSpec(value, isNumber);
  }

  /** The instruction mnemonics of the grammar, one constructor each. */
  datatype Instruction =
    | FBV | FBVOR | FBL | FBLOR | FBD | FBDOR | FSF
    | FBJV | FBJVOR | FBJL | FBJLOR | FBJD | FSJF
    | FOP | FOPOR | FCP | FDST

  /** The mnemonic that names an instruction in a filter string. */
  function Mnemonic(k: Instruction): string
  {
    match k
    case FBV => "FBV"       case FBVOR => "FBVOR"   case FBL => "FBL"     case FBLOR => "FBLOR"
    case FBD => "FBD"       case FBDOR => "FBDOR"   case FSF => "FSF"
    case FBJV => "FBJV"     case FBJVOR => "FBJVOR" case FBJL => "FBJL"   case FBJLOR => "FBJLOR"
    case FBJD => "FBJD"     case FSJF => "FSJF"
    case FOP => "FOP"       case FOPOR => "FOPOR"   case FCP => "FCP"     case FDST => "FDST"
  }

  /**
   * The case label of the translator's `switch` that a mnemonic selects, if any:
   * exactly the recognised mnemonics select one, and the one named by the mnemonic.
   */
  function ParseInstruction(mnemonic: string): (r: Option<Instruction>)
    ensures r.Some? <==> mnemonic in Mnemonics
    ensures r.Some? ==> Mnemonic(r.value) == mnemonic
  {
    match mnemonic
    case "FBV" => Some(FBV)       case "FBVOR" => Some(FBVOR)   case "FBL" => Some(FBL)
    case "FBLOR" => Some(FBLOR)   case "FBD" => Some(FBD)       case "FBDOR" => Some(FBDOR)
    case "FSF" => Some(FSF)       case "FBJV" => Some(FBJV)     case "FBJVOR" => Some(FBJVOR)
    case "FBJL" => Some(FBJL)     case "FBJLOR" => Some(FBJLOR) case "FBJD" => Some(FBJD)
    case "FSJF" => Some(FSJF)     case "FOP" => Some(FOP)       case "FOPOR" => Some(FOPOR)
    case "FCP" => Some(FCP)       case "FDST" => Some(FDST)
    case _ => None
  }

  /** Every instruction's mnemonic leads back to it. */
  lemma ParseMnemonic(k: Instruction)
    ensures ParseInstruction(Mnemonic(k)) == Some(k)
  {
  }

  const ValueInstructions: set<Instruction> := {FBV, FBVOR, FBL, FBLOR, FBD, FBDOR}
  /** The instructions that split a JSON field reference first. */
  const JsonInstructions: set<Instruction> := {FBJV, FBJVOR, FBJL, FBJLOR, FBJD, FSJF}

  /** How many calls each instruction makes (`FDST`: when the builder can). */
  function CallCount(k: Instruction): nat
  {
    match k
    case FBJV => 4 case FBJVOR => 4 case FBJL => 4 case FBJLOR => 4 case FBJD => 4
    case FSJF => 2
    case _ => 1
  }

  /** The outcome of a JSON instruction: the field error, or the calls made on its halves. */
  function JsonOutcome(k: Instruction, s: Stanza, cmp: string, isNumber: string -> bool): Outcome
  {
    match ParseJSONFieldAndPath(s.field)
    case Failure(e) => Thrown(e)
    case Success(fp) => Emitted(JsonCalls(k, fp.fieldColumn, fp.jsonPath, s, cmp, isNumber))
  }

  /** The calls of a JSON instruction on the escaped column and path of its field. */
  function JsonCalls(k: Instruction, fieldColumn: string, jsonPath: string, s: Stanza, cmp: string,
                     isNumber: string -> bool): seq<Call>
  {
    match k
    case FBJV => JsonFilterCalls(fieldColumn, jsonPath, Text(s.value), cmp, And, isNumber)
    case FBJVOR => JsonFilterCalls(fieldColumn, jsonPath, Text(s.value), cmp, Or, isNumber)
    case FBJL => JsonFilterCalls(fieldColumn, jsonPath, TextList(Split(s.value, ',')), cmp, And, isNumber)
    case FBJLOR => JsonFilterCalls(fieldColumn, jsonPath, TextList(Split(s.value, ',')), cmp, Or, isNumber)
    case FBJD =>
      [ OpenParen,
        ValidJsonFilter(fieldColumn),
        AddFilter(JsonExtractDate(fieldColumn, jsonPath), TextList(Split(s.value, ',')), cmp,
                  Some(And), Some(fieldColumn)),
        CloseParen ]
    case _ =>
      [ ValidJsonFilter(fieldColumn),
        AddSort(JsonSortColumn(fieldColumn, jsonPath, DataType(s.value)), SortDirection(s.operator)) ]
  }

  /** `addFilterStanzaToQuery` as a function of the record and the builder's capability. */
  function Translate(s: Stanza, canSetDistinct: bool, isNumber: string -> bool): Outcome
  {
    if !HasInstruction(s.instruction) then Unparsable
    else match ParseInstruction(s.instruction.value)
      case None => Unparsable
      case Some(k) => Dispatch(k, s, canSetDistinct, isNumber)
  }

  /** The case of the translator's `switch` that an instruction selects. */
  function Dispatch(k: Instruction, s: Stanza, canSetDistinct: bool, isNumber: string -> bool): Outcome
  {
    var cmp := ComparisonOperator(s.operator);
    match k
    case FBV => Emitted([AddFilter(s.field, Text(s.value), cmp, Some(And), None)])
    case FBVOR => Emitted([AddFilter(s.field, Text(s.value), cmp, Some(Or), None)])
    case FBL => Emitted([AddFilter(s.field, TextList(Split(s.value, ',')), cmp, Some(And), None)])
    case FBLOR => Emitted([AddFilter(s.field, TextList(Split(s.value, ',')), cmp, Some(Or), None)])
    case FBD =>
      Emitted([AddFilter("DATE(" + s.field + ")", TextList(Split(s.value, ',')), cmp, Some(And), Some(s.field))])
    case FBDOR =>
      Emitted([AddFilter("DATE(" + s.field + ")", TextList(Split(s.value, ',')), cmp, Some(Or), Some(s.field))])
    case FSF => Emitted([AddSort(s.field, SortDirection(s.operator))])
    case FBJV => JsonOutcome(k, s, cmp, isNumber)
    case FBJVOR => JsonOutcome(k, s, cmp, isNumber)
    case FBJL => JsonOutcome(k, s, cmp, isNumber)
    case FBJLOR => JsonOutcome(k, s, cmp, isNumber)
    case FBJD => JsonOutcome(k, s, cmp, isNumber)
    case FSJF => JsonOutcome(k, s, cmp, isNumber)
    case FOP => Emitted([OpenParen])
    case FOPOR => Emitted([OpenParenOr])
    case FCP => Emitted([CloseParen])
    case FDST => Emitted(if canSetDistinct then [SetDistinct(true)] else [])
  }

  /**
   * Which of the three outcomes a record has: nothing happens for a missing or
   * unknown instruction, a throw happens exactly for a JSON instruction whose
   * field does not split, and every other record makes its calls, as many as
   * its instruction makes.
   */
  lemma TranslateOutcome(s: Stanza, canSetDistinct: bool, isNumber: string -> bool)
    ensures Translate(s, canSetDistinct, isNumber).Unparsable? <==>
      !HasInstruction(s.instruction) || s.instruction.value !in Mnemonics
    ensures Translate(s, canSetDistinct, isNumber).Thrown? <==>
      && HasInstruction(s.instruction) && s.instruction.value in Mnemonics
      && ParseInstruction(s.instruction.value).value in JsonInstructions
      && ('.' !in s.field || s.field[0] == '.')
    ensures Translate(s, canSetDistinct, isNumber).Thrown? ==>
      Translate(s, canSetDistinct, isNumber).error == InvalidFieldMessage(s.field)
    ensures Translate(s, canSetDistinct, isNumber).Emitted? ==>
      var k := ParseInstruction(s.instruction.value).value;
      |Translate(s, canSetDistinct, isNumber).calls| == if k == FDST && !canSetDistinct then 0 else CallCount(k)
  {
    if HasInstruction(s.instruction) {
      var p := ParseInstruction(s.instruction.value);
      if p.Some? {
        assert Translate(s, canSetDistinct, isNumber) == Dispatch(p.value, s, canSetDistinct, isNumber);
        DispatchOutcome(p.value, s, canSetDistinct, isNumber);
        ParseJSONFieldAndPathSpec(s.field);
      }
    }
  }

  /**
   * Every case of the `switch` is handled; only a JSON instruction can throw, and
   * it throws the field error exactly when its field does not split.
   */
  lemma DispatchOutcome(k: Instruction, s: Stanza, canSetDistinct: bool, isNumber: string -> bool)
    ensures !Dispatch(k, s, canSetDistinct, isNumber).Unparsable?
    ensures Dispatch(k, s, canSetDistinct, isNumber).Thrown? <==>
      k in JsonInstructions && ParseJSONFieldAndPath(s.field).Failure?
    ensures Dispatch(k, s, canSetDistinct, isNumber).Thrown? ==>
      Dispatch(k, s, canSetDistinct, isNumber).error == ParseJSONFieldAndPath(s.field).error
    ensures Dispatch(k, s, canSetDistinct, isNumber).Emitted? ==>
      |Dispatch(k, s, canSetDistinct, isNumber).calls| == if k == FDST && !canSetDistinct then 0 else CallCount(k)
  {
    match k
    case FBJV | FBJVOR | FBJL | FBJLOR | FBJD | FSJF =>
      JsonOutcomeKind(k, s, ComparisonOperator(s.operator), isNumber);
    case FBV | FBVOR | FBL | FBLOR | FBD | FBDOR | FSF =>
    case FOP | FOPOR | FCP | FDST =>
  }

  lemma JsonOutcomeKind(k: Instruction, s: Stanza, cmp: string, isNumber: string -> bool)
    requires k in JsonInstructions
    ensures !JsonOutcome(k, s, cmp, isNumber).Unparsable?
    ensures JsonOutcome(k, s, cmp, isNumber).Thrown? <==> ParseJSONFieldAndPath(s.field).Failure?
    ensures JsonOutcome(k, s, cmp, isNumber).Thrown? ==>
      JsonOutcome(k, s, cmp, isNumber).error == ParseJSONFieldAndPath(s.field).error
    ensures JsonOutcome(k, s, cmp, isNumber).Emitted? ==> |JsonOutcome(k, s, cmp, isNumber).calls| == CallCount(k)
  {
    var parsed := ParseJSONFieldAndPath(s.field);
    if parsed.Success? {
      match k
      case FBJV =>
      case FBJVOR =>
      case FBJL =>
      case FBJLOR =>
      case FBJD =>
      case FSJF =>
    }
  }

  /** The connector an instruction's predicate carries. */
  function ConnectorOf(instruction: string): Connector
  {
    if EndsWithOr(instruction) then Or else And
  }

  /** A record naming an instruction by its mnemonic goes to that instruction's case. */
  lemma TranslateDispatches(s: Stanza, k: Instruction, canSetDistinct: bool, isNumber: string -> bool)
    requires s.instruction == Some(Mnemonic(k))
    ensures Translate(s, canSetDistinct, isNumber) == Dispatch(k, s, canSetDistinct, isNumber)
  {
    ParseMnemonic(k);
  }

  /** The `OR` forms are exactly the instructions whose mnemonic ends in `OR`. */
  lemma ConnectorOfMnemonic(k: Instruction)
    ensures ConnectorOf(Mnemonic(k)) == Or <==> k in {FBVOR, FBLOR, FBDOR, FBJVOR, FBJLOR, FOPOR}
  {
    match k
    case FBV => case FBVOR => case FBL => case FBLOR => case FBD => case FBDOR => case FSF =>
    case FBJV => case FBJVOR => case FBJL => case FBJLOR => case FBJD => case FSJF =>
    case FOP => case FOPOR => case FCP => case FDST =>
  }

  /**
   * `FBV`, `FBL`, `FBD` and their `OR` forms make one predicate on the field (on
   * `DATE(field)` for the date forms, tagged with the bare field), with the
   * operator's comparator and OR exactly for the `OR` forms. The list and date
   * forms pass the value cut at every comma: at least one comma-free piece (the
   * empty value gives one empty piece), and the pieces join back to it.
   */
  lemma ValueFilterDispatch(s: Stanza, k: Instruction, canSetDistinct: bool, isNumber: string -> bool)
    requires k in ValueInstructions && s.instruction == Some(Mnemonic(k))
    ensures var o := Translate(s, canSetDistinct, isNumber);
      && o.Emitted? && |o.calls| == 1 && o.calls[0].AddFilter?
      && o.calls[0].operator == ComparisonOperator(s.operator)
      && o.calls[0].connector == Some(ConnectorOf(Mnemonic(k)))
      && (o.calls[0].connector == Some(Or) <==> k in {FBVOR, FBLOR, FBDOR})
      && (k in {FBV, FBVOR} ==>
            o.calls[0].column == s.field && o.calls[0].value == Text(s.value) && o.calls[0].tag == None)
      && (k !in {FBV, FBVOR} ==>
            && o.calls[0].value == TextList(Split(s.value, ','))
            && |o.calls[0].value.items| >= 1
            && Join(o.calls[0].value.items, ',') == s.value
            && (forall i :: 0 <= i < |o.calls[0].value.items| ==> ',' !in o.calls[0].value.items[i]))
      && (k in {FBL, FBLOR} ==> o.calls[0].column == s.field && o.calls[0].tag == None)
      && (k in {FBD, FBDOR} ==>
            o.calls[0].column == "DATE(" + s.field + ")" && o.calls[0].tag == Some(s.field))
  {
    TranslateDispatches(s, k, canSetDistinct, isNumber);
    ConnectorOfMnemonic(k);
    JoinSplit(s.value, ',');
  }

  /** `FSF` sorts on the field, descending exactly when the operator is `DESC`. */
  lemma SortDispatch(s: Stanza, canSetDistinct: bool, isNumber: string -> bool)
    requires s.instruction == Some("FSF")
    ensures var o := Translate(s, canSetDistinct, isNumber);
      && o.Emitted? && |o.calls| == 1 && o.calls[0].AddSort? && o.calls[0].sortColumn == s.field
      && (o.calls[0].direction == Descending <==> s.operator == "DESC")
  {
    TranslateDispatches(s, FSF, canSetDistinct, isNumber);
  }

  /**
   * Grouping and distinct: `FOP` opens a group, `FOPOR` opens one OR connected,
   * `FCP` closes it, whatever the other fields say; `FDST` sets distinct when the
   * builder can and otherwise does nothing, and is handled either way.
   */
  lemma GroupAndDistinctDispatch(s: Stanza, k: Instruction, canSetDistinct: bool, isNumber: string -> bool)
    requires k in {FOP, FOPOR, FCP, FDST} && s.instruction == Some(Mnemonic(k))
    ensures var o := Translate(s, canSetDistinct, isNumber);
      && o.Emitted?
      && (k == FOP ==> o.calls == [OpenParen])
      && (k == FOPOR ==> o.calls == [OpenParenOr])
      && (k == FCP ==> o.calls == [CloseParen])
      && (k == FDST ==> o.calls == if canSetDistinct then [SetDistinct(true)] else [])
  {
    TranslateDispatches(s, k, canSetDistinct, isNumber);
  }

  /**
   * `FBJV`, `FBJVOR`, `FBJL` and `FBJLOR` on a splittable field make exactly the
   * JSON predicate group over the escaped column and path, on the value as it is
   * (`V` forms) or cut at commas (`L` forms), AND or OR connected by the form.
   */
  lemma JsonValueDispatch(s: Stanza, k: Instruction, canSetDistinct: bool, isNumber: string -> bool)
    requires k in {FBJV, FBJVOR, FBJL, FBJLOR} && s.instruction == Some(Mnemonic(k))
    requires ParseJSONFieldAndPath(s.field).Success?
    ensures var o := Translate(s, canSetDistinct, isNumber);
      var fp := ParseJSONFieldAndPath(s.field).value;
      var v := if k in {FBJV, FBJVOR} then Text(s.value) else TextList(Split(s.value, ','));
      && o.Emitted?
      && o.calls == JsonFilterCalls(fp.fieldColumn, fp.jsonPath, v, ComparisonOperator(s.operator),
                                    ConnectorOf(Mnemonic(k)), isNumber)
      && (ConnectorOf(Mnemonic(k)) == Or <==> k in {FBJVOR, FBJLOR})
  {
    TranslateDispatches(s, k, canSetDistinct, isNumber);
    ConnectorOfMnemonic(k);
  }

  /**
   * `FBJD` makes its own group without numeric coercion: open paren, validity
   * test, the extracted date against the comma-cut value (AND, tagged with the
   * column), close paren. `FSJF` makes the validity test outside any group and
   * then sorts on the value cast to the type the value mnemonic names.
   */
  lemma JsonDateAndSortDispatch(s: Stanza, k: Instruction, canSetDistinct: bool, isNumber: string -> bool)
    requires k in {FBJD, FSJF} && s.instruction == Some(Mnemonic(k))
    requires ParseJSONFieldAndPath(s.field).Success?
    ensures var o := Translate(s, canSetDistinct, isNumber);
      var fp := ParseJSONFieldAndPath(s.field).value;
      && o.Emitted?
      && (k == FBJD ==>
            o.calls == [ OpenParen, ValidJsonFilter(fp.fieldColumn),
                         AddFilter(JsonExtractDate(fp.fieldColumn, fp.jsonPath), TextList(Split(s.value, ',')),
                                   ComparisonOperator(s.operator), Some(And), Some(fp.fieldColumn)),
                         CloseParen ])
      && (k == FSJF ==>
            && |o.calls| == 2 && o.calls[0] == ValidJsonFilter(fp.fieldColumn)
            && o.calls[1] == AddSort(JsonSortColumn(fp.fieldColumn, fp.jsonPath, DataType(s.value)),
                                     SortDirection(s.operator)))
  {
    TranslateDispatches(s, k, canSetDistinct, isNumber);
  }

  /** The mutable record the driver fills in and the translator clears. */
  class FilterStanza {
    var instruction: Option<string>
    var field: string
    var operator: string
    var value: string

    /** The record's current contents. */
    function Value(): Stanza
      reads this
    {
      Stanza(instruction, field, operator, value)
    }

    /** A record with only its instruction set; the other fields start out ''. */
    constructor (instruction: Option<string>)
      ensures Value() == Stanza(instruction, "", "", "")
    {
      this.instruction := instruction;
      field, operator, value := "", "", "";
    }
  }

  /** `addFilterJSONToQuery`: the four calls of the JSON predicate group, in order. */
  method AddFilterJSONToQuery(fieldColumn: string, jsonPath: string, value: FilterValue,
                              comparisonOperator: string, connector: Connector,
                              q: QueryBuilder, isNumber: string -> bool)
    modifies q
    ensures q.log == old(q.log) + JsonFilterCalls(fieldColumn, jsonPath, value, comparisonOperator,
                                                  connector, isNumber)
  {
    q.AddFilter("", Text(""), "(", None, None);
    q.AddFilter("JSON_VALID(" + fieldColumn + ")", Int(1), "=", Some(And), Some("validJson"));
    var command := "CAST(JSON_UNQUOTE(JSON_EXTRACT(" + fieldColumn + ", '$" + jsonPath + "')) AS CHAR)";
    var finalValue := value;
    match value {
      case TextList(items) =>
        var nanFound := FindNaN(items, isNumber);
        if nanFound.None? || nanFound.value == "" {
          finalValue := NumberList(items);
        }
      case Text(s) =>
        if isNumber(s) {
          finalValue := Number(s);
        }
      case _ =>
    }
    q.AddFilter(command, finalValue, comparisonOperator, Some(connector), Some("jsonExtracted"));
    q.AddFilter("", Text(""), ")", None, None);
  }

  /**
   * `addFilterStanzaToQuery`: make the record's calls on the builder, return whether
   * it was handled (or fail with the field error, before any call of that record),
   * and clear the instruction of a handled record. No other field of the record changes.
   */
  method AddFilterStanzaToQuery(st: FilterStanza, q: QueryBuilder, isNumber: string -> bool)
    returns (r: Result<bool, string>)
    modifies st, q
    ensures var o := Translate(old(st.Value()), q.hasSetDistinct, isNumber);
      && q.log == old(q.log) + CallsOf(o)
      && r == ResultOf(o)
      && st.Value() == if o.Emitted? then old(st.Value()).(instruction := None) else old(st.Value())
  {
    if !HasInstruction(st.instruction) {
      return Success(false);
    }
    var instruction := ParseInstruction(st.instruction.value);
    if instruction.None? {
      return Success(false);
    }
    DispatchOutcome(instruction.value, st.Value(), q.hasSetDistinct, isNumber);
    r := SwitchOnInstruction(instruction.value, st.Value(), q, isNumber);
    if r.Failure? {
      return r;
    }
    st.instruction := None;
  }

  /** The `switch` of `addFilterStanzaToQuery`: the calls of one case, in order. */
  method SwitchOnInstruction(k: Instruction, s: Stanza, q: QueryBuilder, isNumber: string -> bool)
    returns (r: Result<bool, string>)
    modifies q
    ensures q.log == old(q.log) + CallsOf(Dispatch(k, s, q.hasSetDistinct, isNumber))
    ensures r == ResultOf(Dispatch(k, s, q.hasSetDistinct, isNumber))
  {
    var cmp := ComparisonOperator(s.operator);
    r := Success(true);
    match k {
      case FBV =>
        q.AddFilter(s.field, Text(s.value), cmp, Some(And), None);
      case FBVOR =>
        q.AddFilter(s.field, Text(s.value), cmp, Some(Or), None);
      case FBL =>
        q.AddFilter(s.field, TextList(Split(s.value, ',')), cmp, Some(And), None);
      case FBLOR =>
        q.AddFilter(s.field, TextList(Split(s.value, ',')), cmp, Some(Or), None);
      case FBD =>
        q.AddFilter("DATE(" + s.field + ")", TextList(Split(s.value, ',')), cmp, Some(And), Some(s.field));
      case FBDOR =>
        q.AddFilter("DATE(" + s.field + ")", TextList(Split(s.value, ',')), cmp, Some(Or), Some(s.field));
      case FSF =>
        var sortDirection := if s.operator == "DESC" then Descending else Ascending;
        q.AddSort(s.field, sortDirection);
      case FOP =>
        q.AddFilter("", Text(""), "(", None, None);
      case FOPOR =>
        q.AddFilter("", Text(""), "(", Some(Or), None);
      case FCP =>
        q.AddFilter("", Text(""), ")", None, None);
      case FDST =>
        if q.hasSetDistinct {
          q.SetDistinct(true);
        }
      case _ =>
        r := JsonCaseToQuery(k, s, cmp, q, isNumber);
    }
  }

  /**
   * The JSON cases of the `switch`: each one first splits the field, which throws
   * before any call when the field is not `Column.Key…`.
   */
  method JsonCaseToQuery(k: Instruction, s: Stanza, cmp: string, q: QueryBuilder, isNumber: string -> bool)
    returns (r: Result<bool, string>)
    requires k in JsonInstructions
    modifies q
    ensures q.log == old(q.log) + CallsOf(JsonOutcome(k, s, cmp, isNumber))
    ensures r == ResultOf(JsonOutcome(k, s, cmp, isNumber))
  {
    var parsed := ParseJSONFieldAndPath(s.field);
    if parsed.Failure? {
      return Failure(parsed.error);
    }
    JsonCallsToQuery(k, parsed.value.fieldColumn, parsed.value.jsonPath, s, cmp, q, isNumber);
    return Success(true);
  }

  /** The calls of one JSON case once the field has split into column and path. */
  method JsonCallsToQuery(k: Instruction, fieldColumn: string, jsonPath: string, s: Stanza, cmp: string,
                          q: QueryBuilder, isNumber: string -> bool)
    requires k in JsonInstructions
    modifies q
    ensures q.log == old(q.log) + JsonCalls(k, fieldColumn, jsonPath, s, cmp, isNumber)
  {
    match k {
      case FBJV =>
        AddFilterJSONToQuery(fieldColumn, jsonPath, Text(s.value), cmp, And, q, isNumber);
      case FBJVOR =>
        AddFilterJSONToQuery(fieldColumn, jsonPath, Text(s.value), cmp, Or, q, isNumber);
      case FBJL =>
        AddFilterJSONToQuery(fieldColumn, jsonPath, TextList(Split(s.value, ',')), cmp, And, q, isNumber);
      case FBJLOR =>
        AddFilterJSONToQuery(fieldColumn, jsonPath, TextList(Split(s.value, ',')), cmp, Or, q, isNumber);
      case FBJD =>
        q.AddFilter("", Text(""), "(", None, None);
        q.AddFilter("JSON_VALID(" + fieldColumn + ")", Int(1), "=", Some(And), Some("validJson"));
        q.AddFilter(JsonExtractDate(fieldColumn, jsonPath), TextList(Split(s.value, ',')), cmp,
                    Some(And), Some(fieldColumn));
        q.AddFilter("", Text(""), ")", None, None);
      case FSJF =>
        var sortDirection := if s.operator == "DESC" then Descending else Ascending;
        var sortingType := DataType(s.value);
        q.AddFilter("JSON_VALID(" + fieldColumn + ")", Int(1), "=", Some(And), Some("validJson"));
        q.AddSort(JsonSortColumn(fieldColumn, jsonPath, sortingType), sortDirection);
    }
  }
}
