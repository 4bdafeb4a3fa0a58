/**
 * The query-builder collaborator, seen only through the calls the parser makes on
 * it: `addFilter` (with three, four or five arguments), `addSort` and the optional
 * `setDistinct`. The builder is modelled as the log of those calls.
 */
module Query {
  import opened Wrappers

  /** The left-side connector argument of `addFilter`: 'AND' or 'OR'. */
  datatype Connector = And | Or

  /** The `Direction` of an `addSort` argument. */
  datatype Direction = Ascending | Descending

  /**
   * The value argument of `addFilter`. `Number(t)` and `NumberList(ts)` stand for
   * JavaScript's `Number(t)` and `ts.map(Number)`; the numbers themselves are kept
   * symbolic by the text they were read from.
   */
  datatype FilterValue =
    | Text(text: string)
    | TextList(items: seq<string>)
    | Int(n: int)
    | Number(source: string)
    | NumberList(sources: seq<string>)

  /** One call made on the builder; an argument left out of the call is `None`. */
  datatype Call =
    | AddFilter(column: string, value: FilterValue, operator: string,
                connector: Option<Connector>, tag: Option<string>)
    | AddSort(sortColumn: string, direction: Direction)
    | SetDistinct(flag: bool)

  /** `addFilter('', '', '(')`, `addFilter('', '', '(', 'OR')` and `addFilter('', '', ')')`. */
  const OpenParen: Call := AddFilter("", Text(""), "(", None, None)
  const OpenParenOr: Call := AddFilter("", Text(""), "(", Some(Or), None)
  const CloseParen: Call := AddFilter("", Text(""), ")", None, None)

  class QueryBuilder {
    /** Every call made on this builder so far, oldest first. */
    var log: seq<Call>
    /** Whether this builder offers `setDistinct` (older builders do not). */
    const hasSetDistinct: bool

    constructor (hasSetDistinct: bool)
      ensures log == [] && this.hasSetDistinct == hasSetDistinct
    {
      log := [];
      this.hasSetDistinct := hasSetDistinct;
    }

    method AddFilter(column: string, value: FilterValue, operator: string,
                     connector: Option<Connector>, tag: Option<string>)
      modifies this
      ensures log == old(log) + [Call.AddFilter(column, value, operator, connector, tag)]
    {
      log := log + [Call.AddFilter(column, value, operator, connector, tag)];
    }

    method AddSort(column: string, direction: Direction)
      modifies this
      ensures log == old(log) + [Call.AddSort(column, direction)]
    {
      log := log + [Call.AddSort(column, direction)];
    }

    method SetDistinct(flag: bool)
      requires hasSetDistinct
      modifies this
      ensures log == old(log) + [Call.SetDistinct(flag)]
    {
      log := log + [Call.SetDistinct(flag)];
    }
  }
}
