/**
 * The two closed mnemonic tables of the filter grammar: comparison operators
 * (getFilterComparisonOperator) and sort cast types (getDataType). Both are total;
 * anything outside the table falls back to a default.
 */
module Lookups {

  /** The comparison mnemonics and the SQL comparator each one stands for. */
  const ComparatorTable: map<string, string> := map[
    "EQ" := "=", "NE" := "!=", "GT" := ">", "GE" := ">=", "LT" := "<", "LE" := "<=",
    "LK" := "LIKE", "NLK" := "NOT LIKE", "IN" := "IS NULL", "NN" := "IS NOT NULL",
    "INN" := "IN", "NIN" := "NOT IN", "FOP" := "(", "FOPOR" := "(", "FCP" := ")"]

  /** The comparator used in a query stanza; every unknown mnemonic (also '') means `=`. */
  function ComparisonOperator(mnemonic: string): (r: string)
    ensures mnemonic in ComparatorTable ==> r == ComparatorTable[mnemonic]
    ensures mnemonic !in ComparatorTable ==> r == "="
    ensures r in ComparatorTable.Values
  {
    match mnemonic
    case "EQ" => "="
    case "NE" => "!="
    case "GT" => ">"
    case "GE" => ">="
    case "LT" => "<"
    case "LE" => "<="
    case "LK" => "LIKE"
    case "NLK" => "NOT LIKE"
    case "IN" => "IS NULL"
    case "NN" => "IS NOT NULL"
    case "INN" => "IN"
    case "NIN" => "NOT IN"
    case "FOP" => "("
    case "FOPOR" => "("
    case "FCP" => ")"
    case _ => assert "EQ" in ComparatorTable; "="
  }

  /** Only the mnemonic `EQ` and the unknown mnemonics give `=`. */
  lemma EqualsComparator(mnemonic: string)
    ensures ComparisonOperator(mnemonic) == "=" <==> mnemonic == "EQ" || mnemonic !in ComparatorTable
  {
  }

  /** The cast mnemonics of a JSON sort and the SQL type each one casts to. */
  const DataTypeTable: map<string, string> := map[
    "SINT" := "SIGNED", "UINT" := "UNSIGNED", "DD" := "DECIMAL(10,5)", "DATE" := "DATE"]

  /** The SQL type a JSON sort casts to; every unknown mnemonic (also `CHAR`) means `CHAR`. */
  function DataType(encodedType: string): (r: string)
    ensures encodedType in DataTypeTable ==> r == DataTypeTable[encodedType]
    ensures encodedType !in DataTypeTable ==> r == "CHAR"
  {
    match encodedType
    case "SINT" => "SIGNED"
    case "UINT" => "UNSIGNED"
    case "DD" => "DECIMAL(10,5)"
    case "DATE" => "DATE"
    case _ => "CHAR"
  }
}
