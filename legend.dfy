/**
 * The legend formatter (legendFormatter, scripts/main.js:44-52). The engine's
 * hover frame is reduced to what the formatter reads: the hovered x value,
 * and the localized date and rounded count texts it prints.
 */
module Legend {
  import opened Optional

  /** x is None when no point is hovered; date and count are already formatted texts. */
  datatype LegendData = LegendData(x: Option<int>, date: string, count: string)

  /** JavaScript truthiness of a numeric `data.x`: undefined and 0 are falsy. */
  predicate Truthy(x: Option<int>) {
    x.Some? && x.value != 0
  }

  const DateOpen: string := "<div class=\"graph-legend-date\">"
  const CountOpen: string := "<div class=\"graph-legend-count\">"
  const Close: string := "</div>"

  /**
   * An empty legend exactly when no point is hovered; otherwise a date line
   * followed by a `<units>: <count>` line.
   */
  function LegendFormatter(data: LegendData, units: string): (html: string)
    ensures html == "" <==> !Truthy(data.x)
    ensures Truthy(data.x) ==> DateOpen + data.date + Close <= html
    ensures Truthy(data.x) ==>
      var countLine := CountOpen + units + ": " + data.count + Close;
      |countLine| <= |html| && html[|html| - |countLine|..] == countLine
      && |html| == |DateOpen + data.date + Close| + |countLine|
  {
    if !Truthy(data.x) then ""
    else DateOpen + data.date + Close + CountOpen + units + ": " + data.count + Close
  }
}
