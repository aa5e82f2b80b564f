/**
 * The loaded spreadsheet as the two applications see it: its columns in table order,
 * each with its header text and whether the table library judged its data numeric.
 */
module Sheet {

  datatype Column = Column(name: string, numeric: bool)

  datatype Table = Table(columns: seq<Column>)

  /** The headers in table order (`[str(c) for c in df.columns]`). */
  function Names(cols: seq<Column>): (r: seq<string>)
    ensures |r| == |cols|
    ensures forall i :: 0 <= i < |cols| ==> r[i] == cols[i].name
  {
    if cols == [] then [] else Names(cols[..|cols| - 1]) + [cols[|cols| - 1].name]
  }

  /** The headers of the numeric columns, in table order: exactly the names of the numeric columns. */
  function NumericNames(cols: seq<Column>): (r: seq<string>)
    ensures forall x :: x in r ==> x in Names(cols)
    ensures forall x :: x in r <==> exists i :: 0 <= i < |cols| && cols[i].numeric && cols[i].name == x
    ensures |r| <= |cols|
  {
    if cols == [] then []
    else
      var pre := cols[..|cols| - 1];
      var prev := NumericNames(pre);
      assert forall i :: 0 <= i < |pre| ==> pre[i] == cols[i];
      if cols[|cols| - 1].numeric then prev + [cols[|cols| - 1].name] else prev
  }

  /** Whether `df[name]` is numeric: the first column carrying that header decides. */
  function IsNumeric(cols: seq<Column>, name: string): (r: bool)
    ensures r ==> exists i :: 0 <= i < |cols| && cols[i].name == name && cols[i].numeric
    ensures forall i :: 0 <= i < |cols| && cols[i].name == name && (forall j :: 0 <= j < i ==> cols[j].name != name) ==> r == cols[i].numeric
  {
    if cols == [] then false
    else if cols[0].name == name then cols[0].numeric
    else IsNumeric(cols[1..], name)
  }
}
