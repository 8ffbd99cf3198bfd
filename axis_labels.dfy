/**
 * The x-axis month row (appendXAxisLabels, scripts/main.js:84-103). The
 * month names are a parameter: monthName(i) is the short, localized name
 * of month i of the year, counted from 0.
 */
module AxisLabels {

  /** One `.x-label` node: its `.short-month` and `.long-month` texts. */
  datatype XLabel = XLabel(short: string, long: string)

  const MonthsPerYear: nat := 12

  /** `s.substring(0, 1)`: the first character, or "" for an empty string. */
  function FirstChar(s: string): (r: string)
    ensures r <= s
    ensures |r| == (if s == [] then 0 else 1)
  {
    if s == [] then "" else s[..1]
  }

  function MonthLabel(name: string): XLabel {
    XLabel(FirstChar(name), name)
  }

  /** The twelve labels one call appends, in calendar order. */
  function MonthLabels(monthName: nat -> string): (r: seq<XLabel>)
    ensures |r| == 12
    ensures forall i :: 0 <= i < 12 ==> r[i].long == monthName(i) && r[i].short <= r[i].long
    ensures forall i :: 0 <= i < 12 ==> r[i].short == FirstChar(monthName(i))
  {
    seq(MonthsPerYear, i requires 0 <= i < MonthsPerYear => MonthLabel(monthName(i)))
  }

  /** The row after k calls on an initially empty row: there is no duplication guard. */
  function LabelsAfterCalls(k: nat, monthName: nat -> string): seq<XLabel> {
    if k == 0 then [] else LabelsAfterCalls(k - 1, monthName) + MonthLabels(monthName)
  }

  /** k calls give 12·k labels, and label j names month j mod 12. */
  lemma {:induction false} RepeatedCalls(k: nat, monthName: nat -> string, j: nat)
    ensures |LabelsAfterCalls(k, monthName)| == 12 * k
    ensures j < 12 * k ==> LabelsAfterCalls(k, monthName)[j] == MonthLabel(monthName(j % 12))
  {
    if k > 0 {
      RepeatedCalls(k - 1, monthName, j);
      if 12 * (k - 1) <= j < 12 * k {
        assert j % 12 == j - 12 * (k - 1);
      }
    }
  }

  /** Count of draw callbacks flagged initial. */
  function CountInitial(flags: seq<bool>): nat {
    if flags == [] then 0 else CountInitial(flags[..|flags| - 1]) + (if flags[|flags| - 1] then 1 else 0)
  }

  /** The row after a sequence of draw callbacks: only an initial one appends labels. */
  function LabelsAfterDraws(flags: seq<bool>, monthName: nat -> string): seq<XLabel> {
    if flags == [] then []
    else LabelsAfterDraws(flags[..|flags| - 1], monthName)
         + (if flags[|flags| - 1] then MonthLabels(monthName) else [])
  }

  /**
   * The isInitial flag at the call sites is the only gate: the row holds one
   * set of twelve labels per initial draw, and redraws add none.
   */
  lemma {:induction false} OnlyInitialDrawsAddLabels(flags: seq<bool>, monthName: nat -> string)
    ensures LabelsAfterDraws(flags, monthName) == LabelsAfterCalls(CountInitial(flags), monthName)
    ensures |LabelsAfterDraws(flags, monthName)| == 12 * CountInitial(flags)
  {
    if flags != [] {
      OnlyInitialDrawsAddLabels(flags[..|flags| - 1], monthName);
    }
    RepeatedCalls(CountInitial(flags), monthName, 0);
  }
}
