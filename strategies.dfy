/** The closed set of ten strategy labels shared by the rule engine, the
    parameter generator and the prediction front ends. */
module Strategies {
  import opened Wrappers

  datatype Strategy =
    | IronCondor
    | IronButterfly
    | LongCall
    | LongPut
    | BullCallSpread
    | BearPutSpread
    | LongStraddle
    | LongStrangle
    | CalendarSpread
    | DiagonalSpread

  /** Every label, as a set. */
  const AllStrategies: set<Strategy> :=
    {IronCondor, IronButterfly, LongCall, LongPut, BullCallSpread,
     BearPutSpread, LongStraddle, LongStrangle, CalendarSpread, DiagonalSpread}

  /** The label's upper-case name as the Python code spells it. */
  function Name(s: Strategy): string {
    match s
    case IronCondor => "IRON_CONDOR"
    case IronButterfly => "IRON_BUTTERFLY"
    case LongCall => "LONG_CALL"
    case LongPut => "LONG_PUT"
    case BullCallSpread => "BULL_CALL_SPREAD"
    case BearPutSpread => "BEAR_PUT_SPREAD"
    case LongStraddle => "LONG_STRADDLE"
    case LongStrangle => "LONG_STRANGLE"
    case CalendarSpread => "CALENDAR_SPREAD"
    case DiagonalSpread => "DIAGONAL_SPREAD"
  }

  /** The label a name denotes, if any: the membership test `strategy in generators`. */
  function Parse(name: string): Option<Strategy> {
    if name == "IRON_CONDOR" then Some(IronCondor)
    else if name == "IRON_BUTTERFLY" then Some(IronButterfly)
    else if name == "LONG_CALL" then Some(LongCall)
    else if name == "LONG_PUT" then Some(LongPut)
    else if name == "BULL_CALL_SPREAD" then Some(BullCallSpread)
    else if name == "BEAR_PUT_SPREAD" then Some(BearPutSpread)
    else if name == "LONG_STRADDLE" then Some(LongStraddle)
    else if name == "LONG_STRANGLE" then Some(LongStrangle)
    else if name == "CALENDAR_SPREAD" then Some(CalendarSpread)
    else if name == "DIAGONAL_SPREAD" then Some(DiagonalSpread)
    else None
  }

  /** Parsing a label's name gives the label back, and only a label's name parses. */
  lemma ParseName(s: Strategy, name: string)
    ensures Parse(Name(s)) == Some(s)
    ensures Parse(name) == Some(s) <==> name == Name(s)
  {
  }

  lemma AllStrategiesComplete(s: Strategy)
    ensures s in AllStrategies && |AllStrategies| == 10
  {
  }
}
