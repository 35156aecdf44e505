/**
 * `Interval.get_Interval`: the pause between two synchronisations, in
 * seconds, from a number and a unit letter. Times are `real`; float
 * rounding is not modelled.
 */
module Interval {
  import opened Wrappers

  const WrongUnit := "Wrong time unit! [Possible time unit: m(minute) h(hour) d(day)]"

  /** `get_Interval`: minutes, hours or days to seconds; any other unit raises. */
  function GetInterval(time: real, unit: string): (r: Result<real, string>)
    ensures r.Err? <==> unit != "m" && unit != "h" && unit != "d"
    ensures r.Err? ==> r.error == WrongUnit
  {
    if unit == "m" then Ok(time * 60.0)
    else if unit == "h" then Ok(time * 3600.0)
    else if unit == "d" then Ok(time * 86400.0)
    else Err(WrongUnit)
  }

  /** An hour is sixty minutes and a day is twenty-four hours. */
  lemma UnitsAgree(time: real)
    ensures GetInterval(time, "h") == GetInterval(60.0 * time, "m")
    ensures GetInterval(time, "d") == GetInterval(24.0 * time, "h")
  {
  }

  /** A positive time gives a positive pause, longer for the larger unit. */
  lemma Ordered(time: real)
    requires time > 0.0
    ensures 0.0 < GetInterval(time, "m").value < GetInterval(time, "h").value < GetInterval(time, "d").value
  {
  }

  /**
   * What the object `Interval(args.interval[0], args.IO)` receives as its
   * unit: the default `'m'` is a plain string, but a unit given on the
   * command line arrives as a one-element list (`nargs=1`).
   */
  datatype UnitArg = Text(s: string) | Listed(items: seq<string>)

  function ParsedUnit(given: Option<string>): UnitArg
  {
    match given
    case None => Text("m")
    case Some(u) => Listed([u])
  }

  /** `get_Interval` on what it is actually handed: a list never equals a unit letter. */
  function GetIntervalOf(time: real, unit: UnitArg): (r: Result<real, string>)
    ensures r.Ok? <==> unit == Text("m") || unit == Text("h") || unit == Text("d")
    ensures r.Err? ==> r.error == WrongUnit
    ensures r.Ok? ==> r == GetInterval(time, unit.s)
  {
    match unit
    case Text(s) => GetInterval(time, s)
    case Listed(_) => Err(WrongUnit)
  }

  /** The pause `main` computes, as written; argparse delivers exactly one interval. */
  function StartupInterval(interval: seq<real>, given: Option<string>): (r: Result<real, string>)
    requires |interval| == 1
    ensures r.Ok? <==> given.None?
    ensures given.None? ==> r == Ok(interval[0] * 60.0)
  {
    GetIntervalOf(interval[0], ParsedUnit(given))
  }

  /** As written, every unit given with `-IO`, valid or not, makes the program raise at start-up. */
  lemma GivenUnitRaises(interval: seq<real>, u: string)
    requires |interval| == 1
    ensures StartupInterval(interval, Some(u)) == Err(WrongUnit)
  {
  }

  /** For instance `-interval 2 -IO h` raises instead of pausing two hours. */
  lemma TwoHoursRaise()
    ensures StartupInterval([2.0], Some("h")) == Err(WrongUnit)
    ensures GetInterval(2.0, "h") == Ok(7200.0)
  {
  }

  /** The evidently intended start-up: the single given unit, or minutes by default. */
  function StartupIntervalFixed(interval: seq<real>, given: Option<string>): (r: Result<real, string>)
    requires |interval| == 1
    ensures given.Some? ==> r == GetIntervalOf(interval[0], Text(given.value))
    ensures given.None? ==> r == StartupInterval(interval, None)
  {
    match given
    case None => GetInterval(interval[0], "m")
    case Some(u) => GetInterval(interval[0], u)
  }

  /** With the fix, a valid unit given with `-IO` is honoured and an invalid one still raises. */
  lemma FixedHonoursUnit(interval: seq<real>, u: string)
    requires |interval| == 1
    ensures StartupIntervalFixed(interval, Some(u)).Ok? <==> u == "m" || u == "h" || u == "d"
    ensures u == "h" ==> StartupIntervalFixed(interval, Some(u)) == Ok(interval[0] * 3600.0)
    ensures StartupIntervalFixed(interval, None) == StartupInterval(interval, None)
  {
  }
}
