/**
 * Quote neutralisation (prepareQueryValues) and the split of a dotted JSON field
 * reference into its base column and path (parseJSONFieldAndPath).
 */
module Escaping {
  import opened Wrappers
  import opened JsText

  const Backslash: char := '\\'
  const SingleQuote: char := '\''
  const DoubleQuote: char := '"'

  predicate IsQuote(c: char) { c == SingleQuote || c == DoubleQuote }

  /** Number of quote characters in `s`. */
  function QuoteCount(s: string): nat { Count(s, SingleQuote) + Count(s, DoubleQuote) }

  /** `v.replaceAll("'", "\\'").replaceAll('"', '\\"')`, two passes as in the source. */
  function EscapeQuotes(s: string): string
  {
    ReplaceAll(ReplaceAll(s, SingleQuote, [Backslash, SingleQuote]), DoubleQuote, [Backslash, DoubleQuote])
  }

  /** The escape of a single character: a quote gets a backslash in front of it. */
  function EscapeChar(c: char): string
  {
    if IsQuote(c) then [Backslash, c] else [c]
  }

  /** One-pass reference escape: each character replaced by its escape, in order. */
  function EscapeEach(s: string): string
  {
    if s == [] then "" else EscapeChar(s[0]) + EscapeEach(s[1..])
  }

  /** The inverse of escaping: a backslash directly before a quote is dropped. */
  function Unescape(s: string): string
  {
    if s == [] then ""
    else if |s| >= 2 && s[0] == Backslash && IsQuote(s[1]) then [s[1]] + Unescape(s[2..])
    else [s[0]] + Unescape(s[1..])
  }

  /** The two `replaceAll` passes do the same as escaping every character once. */
  lemma {:induction false} EscapeQuotesIsPerChar(s: string)
    ensures EscapeQuotes(s) == EscapeEach(s)
  {
    if s != [] {
      var first := ReplaceAll([s[0]], SingleQuote, [Backslash, SingleQuote]);
      var rest := ReplaceAll(s[1..], SingleQuote, [Backslash, SingleQuote]);
      assert s == [s[0]] + s[1..];
      ReplaceAllAppend([s[0]], s[1..], SingleQuote, [Backslash, SingleQuote]);
      ReplaceAllAppend(first, rest, DoubleQuote, [Backslash, DoubleQuote]);
      assert ReplaceAll([s[0]], SingleQuote, [Backslash, SingleQuote]) ==
        (if s[0] == SingleQuote then [Backslash, SingleQuote] else [s[0]]);
      if s[0] == SingleQuote {
        ReplaceAllAbsent(first, DoubleQuote, [Backslash, DoubleQuote]);
      } else {
        assert ReplaceAll(first, DoubleQuote, [Backslash, DoubleQuote]) ==
          (if s[0] == DoubleQuote then [Backslash, DoubleQuote] else [s[0]]);
      }
      EscapeQuotesIsPerChar(s[1..]);
    }
  }

  lemma {:induction false} EscapeEachLength(s: string)
    ensures |EscapeEach(s)| == |s| + QuoteCount(s)
  {
    if s != [] {
      EscapeEachLength(s[1..]);
    }
  }

  /** An escaped string never starts with a quote. */
  lemma EscapeEachHead(s: string)
    requires s != []
    ensures |EscapeEach(s)| > 0 && EscapeEach(s)[0] == (if IsQuote(s[0]) then Backslash else s[0])
  {
  }

  lemma {:induction false} EscapeEachGuarded(s: string)
    ensures forall i :: 0 <= i < |EscapeEach(s)| && IsQuote(EscapeEach(s)[i]) ==>
      i > 0 && EscapeEach(s)[i - 1] == Backslash
  {
    if s != [] {
      EscapeEachGuarded(s[1..]);
      var e, t := EscapeChar(s[0]), EscapeEach(s[1..]);
      assert EscapeEach(s) == e + t;
      if t != [] {
        EscapeEachHead(s[1..]);
      }
      forall i | 0 <= i < |e + t| && IsQuote((e + t)[i])
        ensures i > 0 && (e + t)[i - 1] == Backslash
      {
        if i >= |e| {
          assert (e + t)[i] == t[i - |e|];
          if i > |e| {
            assert (e + t)[i - 1] == t[i - 1 - |e|];
          }
        }
      }
    }
  }

  lemma {:induction false} UnescapeEscapeEach(s: string)
    ensures Unescape(EscapeEach(s)) == s
  {
    if s != [] {
      var t := EscapeEach(s[1..]);
      UnescapeEscapeEach(s[1..]);
      if IsQuote(s[0]) {
        assert EscapeEach(s) == [Backslash, s[0]] + t;
        assert (EscapeEach(s))[2..] == t;
      } else {
        assert EscapeEach(s) == [s[0]] + t;
        assert EscapeEach(s)[1..] == t;
        if t != [] {
          EscapeEachHead(s[1..]);
        }
      }
    }
  }

  lemma {:induction false} EscapeEachNoChange(s: string)
    requires QuoteCount(s) == 0
    ensures EscapeEach(s) == s
  {
    if s != [] {
      CountAbsent(s, SingleQuote);
      CountAbsent(s, DoubleQuote);
      CountAbsent(s[1..], SingleQuote);
      CountAbsent(s[1..], DoubleQuote);
      EscapeEachNoChange(s[1..]);
    }
  }

  lemma {:induction false} EscapeEachKeeps(s: string, c: char)
    requires !IsQuote(c) && c != Backslash
    ensures c in EscapeEach(s) <==> c in s
  {
    if s != [] {
      EscapeEachKeeps(s[1..], c);
      assert EscapeEach(s) == EscapeChar(s[0]) + EscapeEach(s[1..]);
      assert s == [s[0]] + s[1..];
    }
  }

  /**
   * What escaping one value promises: one extra character per quote, every quote
   * of the result directly behind a backslash, nothing lost (unescaping gives the
   * input back), quote-free input unchanged, and no other character added or dropped.
   */
  lemma EscapeQuotesSpec(s: string)
    ensures |EscapeQuotes(s)| == |s| + QuoteCount(s)
    ensures forall i :: 0 <= i < |EscapeQuotes(s)| && IsQuote(EscapeQuotes(s)[i]) ==>
      i > 0 && EscapeQuotes(s)[i - 1] == Backslash
    ensures Unescape(EscapeQuotes(s)) == s
    ensures QuoteCount(s) == 0 ==> EscapeQuotes(s) == s
    ensures forall c :: !IsQuote(c) && c != Backslash ==> (c in EscapeQuotes(s) <==> c in s)
  {
    EscapeQuotesIsPerChar(s);
    EscapeEachLength(s);
    EscapeEachGuarded(s);
    UnescapeEscapeEach(s);
    if QuoteCount(s) == 0 {
      EscapeEachNoChange(s);
    }
    forall c | !IsQuote(c) && c != Backslash ensures c in EscapeQuotes(s) <==> c in s {
      EscapeEachKeeps(s, c);
    }
  }

  /** `prepareQueryValues`: every value of the list escaped, in order. */
  function PrepareQueryValues(values: seq<string>): (r: seq<string>)
    ensures |r| == |values|
    ensures forall i :: 0 <= i < |r| ==> r[i] == EscapeQuotes(values[i])
  {
    seq(|values|, i requires 0 <= i < |values| => EscapeQuotes(values[i]))
  }

  /** The two halves of a JSON field reference, both escaped. */
  datatype FieldAndPath = FieldAndPath(fieldColumn: string, jsonPath: string)

  /** The message of the error thrown for a field that is not `Column.Key…`. */
  function InvalidFieldMessage(field: string): string
  {
    "Invalid format for Field[" + field + "]"
  }

  /**
   * `parseJSONFieldAndPath`: cut the field at its first `.`, which must exist and
   * must not be the first character; the dot stays on the path.
   */
  function ParseJSONFieldAndPath(field: string): Result<FieldAndPath, string>
  {
    var splitIndex := IndexOf(field, '.');
    if splitIndex < 1 then Failure(InvalidFieldMessage(field))
    else
      var parts := PrepareQueryValues([field[..splitIndex], field[splitIndex..]]);
      Success(FieldAndPath(parts[0], parts[1]))
  }

  /**
   * The split fails exactly when the field has no `.` or starts with one. On
   * success the halves before and from the first dot are each quote-escaped,
   * so every quote in them sits behind a backslash; the column is a non-empty
   * dot-free name, the path begins with the dot, unescaping both halves and
   * gluing them gives back the field, and for a quote-free field the halves
   * glue back without unescaping.
   */
  lemma ParseJSONFieldAndPathSpec(field: string)
    ensures ParseJSONFieldAndPath(field).Failure? <==> '.' !in field || field[0] == '.'
    ensures ParseJSONFieldAndPath(field).Failure? ==>
      ParseJSONFieldAndPath(field).error == InvalidFieldMessage(field)
    ensures ParseJSONFieldAndPath(field).Success? ==>
      var fp := ParseJSONFieldAndPath(field).value;
      var k := IndexOf(field, '.');
      && fp.fieldColumn == EscapeQuotes(field[..k])
      && fp.jsonPath == EscapeQuotes(field[k..])
      && (forall i :: 0 <= i < |fp.fieldColumn| && IsQuote(fp.fieldColumn[i]) ==>
            i > 0 && fp.fieldColumn[i - 1] == Backslash)
      && (forall i :: 0 <= i < |fp.jsonPath| && IsQuote(fp.jsonPath[i]) ==>
            i > 0 && fp.jsonPath[i - 1] == Backslash)
      && fp.fieldColumn != []
      && '.' !in fp.fieldColumn
      && |fp.jsonPath| > 0 && fp.jsonPath[0] == '.'
      && Unescape(fp.fieldColumn) + Unescape(fp.jsonPath) == field
      && (QuoteCount(field) == 0 ==> fp.fieldColumn + fp.jsonPath == field)
  {
    var k := IndexOf(field, '.');
    if k >= 1 {
      var column, path := field[..k], field[k..];
      assert field == column + path;
      EscapeQuotesSpec(column);
      EscapeQuotesSpec(path);
      EscapeQuotesIsPerChar(path);
      EscapeEachHead(path);
      EscapeQuotesIsPerChar(column);
      EscapeEachHead(column);
      if QuoteCount(field) == 0 {
        CountAppend(column, path, SingleQuote);
        CountAppend(column, path, DoubleQuote);
      }
    }
  }
}
