/**
 * The driver (doParseFilter): split the filter string on `~`, fill a record from
 * every four tokens by position, hand the previous record to the translator at
 * every instruction position and the last one after the loop.
 */
module FilterParse {
  import opened Wrappers
  import opened JsText
  import opened Query
  import opened StanzaTranslator

  /** The first argument of `doParseFilter`: a string, or any other JavaScript value. */
  datatype FilterArgument = FilterString(text: string) | NotAString

  /** Token `i`, or '' past the end (a field the driver never assigned). */
  function Token(tokens: seq<string>, i: nat): string
  {
    if i < |tokens| then tokens[i] else ""
  }

  /** The record of stanza `k`: token `4k` is its instruction, the next three its fields. */
  function StanzaAt(tokens: seq<string>, k: nat): Stanza
    requires 4 * k < |tokens|
  {
    Stanza(Some(tokens[4 * k]), Token(tokens, 4 * k + 1), Token(tokens, 4 * k + 2), Token(tokens, 4 * k + 3))
  }

  /** Every stanza of the token list, in order; a trailing partial one is padded with ''. */
  function Stanzas(tokens: seq<string>): (r: seq<Stanza>)
    ensures |r| == (|tokens| + 3) / 4
    decreases |tokens|
  {
    if tokens == [] then []
    else if |tokens| <= 4 then [StanzaAt(tokens, 0)]
    else [StanzaAt(tokens, 0)] + Stanzas(tokens[4..])
  }

  /** Stanza `k` is read from tokens `4k` to `4k + 3`. */
  lemma {:induction false} StanzaIndex(tokens: seq<string>, k: nat)
    requires 4 * k < |tokens|
    ensures Stanzas(tokens)[k] == StanzaAt(tokens, k)
  {
    if k > 0 {
      StanzaIndex(tokens[4..], k - 1);
      assert tokens[4..][4 * (k - 1)..] == tokens[4 * k..];
    }
  }

  /** The four tokens a record was read from. */
  function Fields(s: Stanza): seq<string>
  {
    [if s.instruction.Some? then s.instruction.value else "", s.field, s.operator, s.value]
  }

  /** The tokens of a list of records, back to back. */
  function Flatten(ss: seq<Stanza>): seq<string>
  {
    if ss == [] then [] else Fields(ss[0]) + Flatten(ss[1..])
  }

  lemma {:induction false} FlattenLength(ss: seq<Stanza>)
    ensures |Flatten(ss)| == 4 * |ss|
  {
    if ss != [] {
      FlattenLength(ss[1..]);
    }
  }

  /**
   * Grouping loses no token and invents none: the records' fields, back to back,
   * are the tokens followed by '' for the fields of a trailing partial stanza;
   * for a token count that is a multiple of 4 there are exactly count / 4 records
   * and their fields are exactly the tokens.
   */
  lemma {:induction false} FlattenStanzas(tokens: seq<string>)
    ensures |Flatten(Stanzas(tokens))| == 4 * ((|tokens| + 3) / 4)
    ensures Flatten(Stanzas(tokens))[..|tokens|] == tokens
    ensures forall i :: |tokens| <= i < |Flatten(Stanzas(tokens))| ==> Flatten(Stanzas(tokens))[i] == ""
    ensures |tokens| % 4 == 0 ==> |Stanzas(tokens)| == |tokens| / 4 && Flatten(Stanzas(tokens)) == tokens
  {
    var ss := Stanzas(tokens);
    FlattenLength(ss);
    if |tokens| >= 4 {
      FlattenStanzas(tokens[4..]);
      assert ss == [ss[0]] + ss[1..];
      assert Fields(ss[0]) == tokens[..4];
      assert Flatten(ss) == tokens[..4] + Flatten(Stanzas(tokens[4..]));
      assert tokens == tokens[..4] + tokens[4..];
    } else if tokens != [] {
      assert |ss| == 1 && ss[1..] == [];
      assert Flatten(ss) == Fields(ss[0]);
    }
  }

  /** What the calls made so far are, and the error that stopped them, if any. */
  datatype Trace = Trace(calls: seq<Call>, error: Option<string>)

  /** What the translator does with each record, in order. */
  function Outcomes(ss: seq<Stanza>, canSetDistinct: bool, isNumber: string -> bool): (os: seq<Outcome>)
    ensures |os| == |ss|
  {
    if ss == [] then [] else [Translate(ss[0], canSetDistinct, isNumber)] + Outcomes(ss[1..], canSetDistinct, isNumber)
  }

  lemma {:induction false} OutcomeIndex(ss: seq<Stanza>, canSetDistinct: bool, isNumber: string -> bool, k: nat)
    requires k < |ss|
    ensures Outcomes(ss, canSetDistinct, isNumber)[k] == Translate(ss[k], canSetDistinct, isNumber)
  {
    if k > 0 {
      OutcomeIndex(ss[1..], canSetDistinct, isNumber, k - 1);
    }
  }

  /**
   * Records handed to the translator one after another, as the driver's loop
   * does: calls pile up until a record throws, and nothing after it runs.
   */
  function Run(os: seq<Outcome>): Trace
  {
    if os == [] then Trace([], None) else Step(Run(os[..|os| - 1]), os[|os| - 1])
  }

  /** One more record handed to the translator, unless an earlier one threw. */
  function Step(t: Trace, o: Outcome): Trace
  {
    if t.error.Some? then t
    else match o
      case Emitted(c) => Trace(t.calls + c, None)
      case Unparsable => t
      case Thrown(e) => Trace(t.calls, Some(e))
  }

  lemma RunSnoc(os: seq<Outcome>, k: nat)
    requires k < |os|
    ensures Run(os[..k + 1]) == Step(Run(os[..k]), os[k])
  {
    assert os[..k + 1][..k] == os[..k];
  }

  /** Reference order: every record's calls, first record first. */
  function AllCalls(os: seq<Outcome>): seq<Call>
  {
    if os == [] then [] else CallsOf(os[0]) + AllCalls(os[1..])
  }

  lemma {:induction false} AllCallsSnoc(os: seq<Outcome>, o: Outcome)
    ensures AllCalls(os + [o]) == AllCalls(os) + CallsOf(o)
  {
    if os == [] {
      assert os + [o] == [o];
    } else {
      assert (os + [o])[1..] == os[1..] + [o];
      AllCallsSnoc(os[1..], o);
    }
  }

  /**
   * Records are dispatched in input order: when the first `j` records do not
   * throw, their calls are those of each record in turn; the first record that
   * throws stops the run with its error, keeping the calls of the ones before it.
   */
  lemma {:induction false} RunInOrder(os: seq<Outcome>, j: nat)
    requires j <= |os|
    requires forall i :: 0 <= i < j ==> !os[i].Thrown?
    ensures Run(os[..j]) == Trace(AllCalls(os[..j]), None)
    ensures j < |os| && os[j].Thrown? ==> Run(os) == Trace(AllCalls(os[..j]), Some(os[j].error))
  {
    if j > 0 {
      RunInOrder(os, j - 1);
      assert os[..j][..j - 1] == os[..j - 1];
      assert os[..j] == os[..j - 1] + [os[j - 1]];
      AllCallsSnoc(os[..j - 1], os[j - 1]);
    }
    if j < |os| && os[j].Thrown? {
      assert os[..j + 1][..j] == os[..j];
      RunStops(os, j + 1);
    }
  }

  /** Once a prefix of the records has thrown, the rest changes nothing. */
  lemma {:induction false} RunStops(os: seq<Outcome>, j: nat)
    requires j <= |os|
    requires Run(os[..j]).error.Some?
    ensures Run(os) == Run(os[..j])
    decreases |os| - j
  {
    if j < |os| {
      assert os[..j + 1][..j] == os[..j];
      RunStops(os, j + 1);
    } else {
      assert os[..j] == os;
    }
  }

  /** When no record throws, the run makes every record's calls in order. */
  lemma RunWithoutThrow(os: seq<Outcome>)
    requires forall i :: 0 <= i < |os| ==> !os[i].Thrown?
    ensures Run(os) == Trace(AllCalls(os), None)
  {
    RunInOrder(os, |os|);
    assert os[..|os|] == os;
  }

  /** What `doParseFilter` does: the calls it makes, and what it returns or throws. */
  datatype ParseOutcome = ParseOutcome(calls: seq<Call>, result: Result<bool, string>)

  /** `doParseFilter` as a function of its argument and the builder's capability. */
  function ParseFilter(arg: FilterArgument, canSetDistinct: bool, isNumber: string -> bool): ParseOutcome
  {
    match arg
    case NotAString => ParseOutcome([], Success(false))
    case FilterString(text) =>
      var tokens := Split(text, '~');
      if |tokens| < 4 then ParseOutcome([], Success(true))
      else
        var t := Run(Outcomes(Stanzas(tokens), canSetDistinct, isNumber));
        ParseOutcome(t.calls, if t.error.Some? then Failure(t.error.value) else Success(true))
  }

  /**
   * The driver's contract: a non-string gives `false` and no calls; fewer than
   * four tokens give `true` and no calls; otherwise every stanza's calls in input
   * order and `true`, unless a stanza throws, in which case the error comes out
   * after the calls of the stanzas before it. `false` never comes from a string.
   */
  lemma ParseFilterSpec(arg: FilterArgument, canSetDistinct: bool, isNumber: string -> bool)
    ensures arg.NotAString? ==> ParseFilter(arg, canSetDistinct, isNumber) == ParseOutcome([], Success(false))
    ensures arg.FilterString? && Count(arg.text, '~') < 3 ==>
      ParseFilter(arg, canSetDistinct, isNumber) == ParseOutcome([], Success(true))
    ensures arg.FilterString? ==> ParseFilter(arg, canSetDistinct, isNumber).result != Success(false)
    ensures arg.FilterString? && Count(arg.text, '~') >= 3 ==>
      var os := Outcomes(Stanzas(Split(arg.text, '~')), canSetDistinct, isNumber);
      var p := ParseFilter(arg, canSetDistinct, isNumber);
      && ((forall i :: 0 <= i < |os| ==> !os[i].Thrown?) ==> p == ParseOutcome(AllCalls(os), Success(true)))
      && (forall j :: 0 <= j < |os| && os[j].Thrown? && (forall i :: 0 <= i < j ==> !os[i].Thrown?) ==>
            p == ParseOutcome(AllCalls(os[..j]), Failure(os[j].error)))
  {
    if arg.FilterString? && Count(arg.text, '~') >= 3 {
      var os := Outcomes(Stanzas(Split(arg.text, '~')), canSetDistinct, isNumber);
      if forall i :: 0 <= i < |os| ==> !os[i].Thrown? {
        RunWithoutThrow(os);
      }
      forall j | 0 <= j < |os| && os[j].Thrown? && (forall i :: 0 <= i < j ==> !os[i].Thrown?)
        ensures ParseFilter(arg, canSetDistinct, isNumber) == ParseOutcome(AllCalls(os[..j]), Failure(os[j].error))
      {
        RunInOrder(os, j);
      }
    }
  }

  /** Four `~`-free tokens joined by `~` split back into those four. */
  lemma SplitFour(instruction: string, field: string, operator: string, value: string)
    requires '~' !in instruction && '~' !in field && '~' !in operator && '~' !in value
    ensures Split(instruction + "~" + field + "~" + operator + "~" + value, '~') == [instruction, field, operator, value]
  {
    var tokens := [instruction, field, operator, value];
    assert Join(tokens, '~') == instruction + "~" + field + "~" + operator + "~" + value by {
      assert Join(tokens[3..], '~') == value;
      assert Join(tokens[2..], '~') == operator + "~" + value;
      assert Join(tokens[1..], '~') == field + "~" + operator + "~" + value;
    }
    SplitJoin(tokens, '~');
  }

  /**
   * Four `~`-free tokens make exactly one stanza: the driver does what the
   * translator does with that record, and returns `true` unless it throws.
   */
  lemma OneStanza(instruction: string, field: string, operator: string, value: string,
                  canSetDistinct: bool, isNumber: string -> bool)
    requires '~' !in instruction && '~' !in field && '~' !in operator && '~' !in value
    ensures var o := Translate(Stanza(Some(instruction), field, operator, value), canSetDistinct, isNumber);
      ParseFilter(FilterString(instruction + "~" + field + "~" + operator + "~" + value), canSetDistinct, isNumber)
        == ParseOutcome(CallsOf(o), if o.Thrown? then Failure(o.error) else Success(true))
  {
    SplitFour(instruction, field, operator, value);
    var tokens := [instruction, field, operator, value];
    var s := Stanza(Some(instruction), field, operator, value);
    assert Stanzas(tokens) == [s];
    var o := Translate(s, canSetDistinct, isNumber);
    assert Outcomes([s], canSetDistinct, isNumber) == [o];
    assert Run([o]) == Step(Trace([], None), o) by {
      assert [o][..0] == [];
    }
  }

  /** A record with `t` stored at field position `p` (1 field, 2 operator, 3 value). */
  function SetField(v: Stanza, p: nat, t: string): Stanza
  {
    if p == 1 then v.(field := t) else if p == 2 then v.(operator := t) else v.(value := t)
  }

  /**
   * The driver's state after reading the first `i` tokens: `v` is the record of
   * stanza `k`, being filled, and `done` is the run over the `k` records before it,
   * none of which threw.
   */
  ghost predicate Reading(tokens: seq<string>, os: seq<Outcome>, i: nat, k: nat, v: Stanza, done: Trace)
  {
    && 4 * k < i <= |tokens|
    && i <= 4 * k + 4
    && |os| == (|tokens| + 3) / 4
    && v == StanzaAt(tokens[..i], k)
    && done == Run(os[..k])
    && done.error.None?
  }

  /** The first flush hands over the initial record, which has no instruction and does nothing. */
  lemma ReadFirst(tokens: seq<string>, os: seq<Outcome>, canSetDistinct: bool, isNumber: string -> bool)
    requires |tokens| > 0 && os == Outcomes(Stanzas(tokens), canSetDistinct, isNumber)
    ensures var o := Translate(Stanza(None, "", "", ""), canSetDistinct, isNumber);
      && CallsOf(o) == [] && ResultOf(o).Success?
      && Reading(tokens, os, 1, 0, Stanza(Some(tokens[0]), "", "", ""), Trace([], None))
  {
    assert tokens[..1] == [tokens[0]];
  }

  /** A field position fills in one field of the record being read. */
  lemma ReadField(tokens: seq<string>, os: seq<Outcome>, i: nat, k: nat, v: Stanza, done: Trace)
    requires Reading(tokens, os, i, k, v, done) && i < |tokens| && i % 4 != 0
    ensures Reading(tokens, os, i + 1, k, SetField(v, i % 4, tokens[i]), done)
  {
    assert i < 4 * k + 4;
    assert i % 4 == i - 4 * k;
  }

  /** At an instruction position, and after the last token, the record read so far is a whole stanza. */
  lemma ReadComplete(tokens: seq<string>, os: seq<Outcome>, i: nat, k: nat, v: Stanza, done: Trace)
    requires Reading(tokens, os, i, k, v, done) && (i == |tokens| || i % 4 == 0)
    ensures k < |os| && v == Stanzas(tokens)[k]
    ensures i < |tokens| ==> i == 4 * k + 4
    ensures i == |tokens| ==> k == |os| - 1
  {
    if i == |tokens| {
      assert tokens[..i] == tokens;
      var m := (|tokens| + 3) / 4;
      assert 4 * m <= |tokens| + 3 < 4 * m + 4;
      assert m == k + 1;
    } else {
      var m := i / 4;
      assert i == 4 * m;
      assert m == k + 1;
      var t := tokens[..i];
      assert t[4 * k] == tokens[4 * k] && t[4 * k + 1] == tokens[4 * k + 1];
      assert t[4 * k + 2] == tokens[4 * k + 2] && t[4 * k + 3] == tokens[4 * k + 3];
    }
    StanzaIndex(tokens, k);
  }

  /** The record handed over at an instruction position, or after the loop, has the stanza's outcome. */
  lemma ReadOutcome(tokens: seq<string>, canSetDistinct: bool, isNumber: string -> bool, i: nat, k: nat,
                    v: Stanza, done: Trace)
    requires Reading(tokens, Outcomes(Stanzas(tokens), canSetDistinct, isNumber), i, k, v, done)
    requires i == |tokens| || i % 4 == 0
    ensures k < |Stanzas(tokens)| && Outcomes(Stanzas(tokens), canSetDistinct, isNumber)[k] == Translate(v, canSetDistinct, isNumber)
  {
    ReadComplete(tokens, Outcomes(Stanzas(tokens), canSetDistinct, isNumber), i, k, v, done);
    OutcomeIndex(Stanzas(tokens), canSetDistinct, isNumber, k);
  }

  /**
   * An instruction position hands over the record read so far: the run takes one
   * more step; without a throw a new record starts with this token as its
   * instruction, and a throw is where the whole run ends.
   */
  lemma ReadInstruction(tokens: seq<string>, os: seq<Outcome>, i: nat, k: nat, v: Stanza, done: Trace, o: Outcome)
    requires Reading(tokens, os, i, k, v, done) && i < |tokens| && i % 4 == 0 && os[k] == o
    ensures Step(done, o).calls == done.calls + CallsOf(o)
    ensures ResultOf(o).Success? ==>
      Reading(tokens, os, i + 1, k + 1, Stanza(Some(tokens[i]), "", "", ""), Step(done, o))
    ensures ResultOf(o).Failure? ==> Run(os) == Step(done, o) && Step(done, o).error == Some(ResultOf(o).error)
  {
    ReadComplete(tokens, os, i, k, v, done);
    RunSnoc(os, k);
    if ResultOf(o).Failure? {
      RunStops(os, k + 1);
    } else {
      assert tokens[..i + 1][4 * (k + 1)] == tokens[i];
    }
  }

  /** After the loop, handing over the last record completes the run. */
  lemma ReadLast(tokens: seq<string>, os: seq<Outcome>, k: nat, v: Stanza, done: Trace, o: Outcome)
    requires Reading(tokens, os, |tokens|, k, v, done) && k == |os| - 1 && os[k] == o
    ensures Run(os) == Step(done, o)
    ensures Step(done, o).calls == done.calls + CallsOf(o)
    ensures ResultOf(o).Failure? <==> Step(done, o).error.Some?
    ensures ResultOf(o).Failure? ==> Step(done, o).error.value == ResultOf(o).error
  {
    RunSnoc(os, k);
    assert os[..k + 1] == os;
  }

  /** Regrouping a log; called where a method's own context makes the inline fact costly. */
  lemma AppendAssoc<T>(a: seq<T>, b: seq<T>, c: seq<T>)
    ensures a + (b + c) == (a + b) + c
  {
  }

  /**
   * The flush at an instruction position past the first: the record read so far
   * goes to the translator. Without a throw the reading goes on past this stanza;
   * a throw ends the whole run.
   */
  method FlushRecord(tokens: seq<string>, i: nat, st: FilterStanza, q: QueryBuilder, isNumber: string -> bool,
                     ghost start: seq<Call>, ghost os: seq<Outcome>, ghost k: nat, ghost done: Trace)
    returns (r: Result<bool, string>, ghost k': nat, ghost done': Trace)
    requires os == Outcomes(Stanzas(tokens), q.hasSetDistinct, isNumber)
    requires Reading(tokens, os, i, k, st.Value(), done) && i < |tokens| && i % 4 == 0
    requires q.log == start + done.calls
    modifies st, q
    ensures q.log == start + done'.calls
    ensures r.Success? ==> Reading(tokens, os, i + 1, k', Stanza(Some(tokens[i]), "", "", ""), done')
    ensures r.Failure? ==> Run(os) == done' && done'.error == Some(r.error)
  {
    ghost var o := Translate(st.Value(), q.hasSetDistinct, isNumber);
    ReadOutcome(tokens, q.hasSetDistinct, isNumber, i, k, st.Value(), done);
    ReadInstruction(tokens, os, i, k, st.Value(), done, o);
    AppendAssoc(start, done.calls, CallsOf(o));
    r := AddFilterStanzaToQuery(st, q, isNumber);
    done', k' := Step(done, o), k + 1;
  }

  /** The flush after the loop: the last record completes the run. */
  method FlushLast(tokens: seq<string>, st: FilterStanza, q: QueryBuilder, isNumber: string -> bool,
                   ghost start: seq<Call>, ghost os: seq<Outcome>, ghost k: nat, ghost done: Trace)
    returns (r: Result<bool, string>)
    requires os == Outcomes(Stanzas(tokens), q.hasSetDistinct, isNumber)
    requires Reading(tokens, os, |tokens|, k, st.Value(), done)
    requires q.log == start + done.calls
    modifies st, q
    ensures q.log == start + Run(os).calls
    ensures r.Failure? <==> Run(os).error.Some?
    ensures r.Failure? ==> r.error == Run(os).error.value
  {
    ghost var o := Translate(st.Value(), q.hasSetDistinct, isNumber);
    ReadOutcome(tokens, q.hasSetDistinct, isNumber, |tokens|, k, st.Value(), done);
    ReadComplete(tokens, os, |tokens|, k, st.Value(), done);
    ReadLast(tokens, os, k, st.Value(), done, o);
    AppendAssoc(start, done.calls, CallsOf(o));
    r := AddFilterStanzaToQuery(st, q, isNumber);
  }

  /**
   * The flush at position 0: the initial record has no instruction, so it adds
   * nothing, and the first token starts the first stanza.
   */
  method FlushFirst(tokens: seq<string>, q: QueryBuilder, isNumber: string -> bool, ghost os: seq<Outcome>)
    returns (st: FilterStanza)
    requires |tokens| > 0 && os == Outcomes(Stanzas(tokens), q.hasSetDistinct, isNumber)
    modifies q
    ensures fresh(st)
    ensures q.log == old(q.log)
    ensures Reading(tokens, os, 1, 0, st.Value(), Trace([], None))
  {
    var initial := new FilterStanza(None);
    var _ := AddFilterStanzaToQuery(initial, q, isNumber);
    ReadFirst(tokens, os, q.hasSetDistinct, isNumber);
    st := new FilterStanza(Some(tokens[0]));
  }

  /**
   * One pass of the loop of `doParseFilter`: an instruction position flushes the
   * record and starts a new one, any other position fills in one field.
   */
  method ReadToken(tokens: seq<string>, i: nat, st: FilterStanza, q: QueryBuilder, isNumber: string -> bool,
                   ghost start: seq<Call>, ghost os: seq<Outcome>, ghost k: nat, ghost done: Trace)
    returns (next: FilterStanza, r: Result<bool, string>, ghost k': nat, ghost done': Trace)
    requires os == Outcomes(Stanzas(tokens), q.hasSetDistinct, isNumber)
    requires 0 < i < |tokens| && Reading(tokens, os, i, k, st.Value(), done)
    requires q.log == start + done.calls
    modifies st, q
    ensures next == st || fresh(next)
    ensures q.log == start + done'.calls
    ensures r.Success? ==> Reading(tokens, os, i + 1, k', next.Value(), done')
    ensures r.Failure? ==> Run(os) == done' && done'.error == Some(r.error)
  {
    var slot := i % 4;
    if slot == 0 {
      r, k', done' := FlushRecord(tokens, i, st, q, isNumber, start, os, k, done);
      next := new FilterStanza(Some(tokens[i]));
    } else {
      ReadField(tokens, os, i, k, st.Value(), done);
      if slot == 1 {
        st.field := tokens[i];
      } else if slot == 2 {
        st.operator := tokens[i];
      } else {
        st.value := tokens[i];
      }
      next, r, k', done' := st, Success(true), k, done;
    }
  }

  /**
   * The loop of `doParseFilter` from position 1 on: it ends with the last record
   * read, or early, with the run complete, at the first throw.
   */
  method ReadTokens(tokens: seq<string>, first: FilterStanza, q: QueryBuilder, isNumber: string -> bool,
                    ghost os: seq<Outcome>)
    returns (st: FilterStanza, r: Result<bool, string>, ghost k: nat, ghost done: Trace)
    requires os == Outcomes(Stanzas(tokens), q.hasSetDistinct, isNumber)
    requires Reading(tokens, os, 1, 0, first.Value(), Trace([], None))
    modifies first, q
    ensures fresh(st) || st == first
    ensures q.log == old(q.log) + done.calls
    ensures r.Success? ==> Reading(tokens, os, |tokens|, k, st.Value(), done)
    ensures r.Failure? ==> Run(os) == done && done.error == Some(r.error)
  {
    st, k, done := first, 0, Trace([], None);
    r := Success(true);
    for i := 1 to |tokens|
      invariant fresh(st) || st == first
      invariant r.Success?
      invariant q.log == old(q.log) + done.calls
      invariant Reading(tokens, os, i, k, st.Value(), done)
    {
      st, r, k, done := ReadToken(tokens, i, st, q, isNumber, old(q.log), os, k, done);
      if r.Failure? {
        return;
      }
    }
  }

  /**
   * `doParseFilter`. The record is a fresh object at every instruction position;
   * a throw from the translator leaves the method at once.
   */
  method DoParseFilter(arg: FilterArgument, q: QueryBuilder, isNumber: string -> bool)
    returns (r: Result<bool, string>)
    modifies q
    ensures q.log == old(q.log) + ParseFilter(arg, q.hasSetDistinct, isNumber).calls
    ensures r == ParseFilter(arg, q.hasSetDistinct, isNumber).result
  {
    if arg.NotAString? {
      return Success(false);
    }
    var tokens := Split(arg.text, '~');
    if |tokens| < 4 {
      return Success(true);
    }
    ghost var os := Outcomes(Stanzas(tokens), q.hasSetDistinct, isNumber);
    var st := FlushFirst(tokens, q, isNumber, os);
    ghost var k, done;
    var read;
    st, read, k, done := ReadTokens(tokens, st, q, isNumber, os);
    if read.Failure? {
      return read;
    }
    var last := FlushLast(tokens, st, q, isNumber, old(q.log), os, k, done);
    if last.Failure? {
      return Failure(last.error);
    }
    return Success(true);
  }
}
