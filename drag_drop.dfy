/**
 * The part of the browser's `DataTransfer` object the drag handlers use: the
 * list of formats (`types`), the data per format, and `effectAllowed`.
 */
module DragDrop {

  const TextPlain: string := "text/plain"

  /** `s` with every occurrence of `x` removed, order kept. */
  function Without(s: seq<string>, x: string): (r: seq<string>)
    ensures x !in r
    ensures forall y :: y in r <==> y in s && y != x
  {
    if s == [] then []
    else if s[0] == x then Without(s[1..], x)
    else [s[0]] + Without(s[1..], x)
  }

  class DataTransfer {
    var types: seq<string>
    var data: map<string, string>
    var effectAllowed: string

    /** A transfer as a drag starts: no data yet. */
    constructor ()
      ensures types == [] && data == map[] && effectAllowed == "uninitialized"
    {
      types := [];
      data := map[];
      effectAllowed := "uninitialized";
    }

    /** `getData(format)`: the empty string when nothing was set for the format. */
    function GetData(format: string): string
      reads this
    {
      if format in data then data[format] else ""
    }

    /** `setData(format, value)`: replaces that format's entry, which moves to the end. */
    method SetData(format: string, value: string)
      modifies this
      ensures data == old(data)[format := value]
      ensures types == Without(old(types), format) + [format]
      ensures effectAllowed == old(effectAllowed)
    {
      data := data[format := value];
      types := Without(types, format) + [format];
    }
  }
}
