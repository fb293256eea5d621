/** The record types shared by the screens: an addiction being tracked and its losses.
    Timestamps, which the application keeps as ISO strings, are milliseconds here. */
module Types {

  datatype Option<T> = None | Some(value: T)

  /** Whether the tracked entry is an addiction ("vicio") or a bad habit ("habito"). */
  datatype Kind = Vicio | Habito

  /** What the addiction costs: money per month, free-text time per day, a free-text event. */
  datatype Losses = Losses(money: Option<real>, time: Option<string>, event: Option<string>)

  datatype Addiction = Addiction(
    id: string,
    name: string,
    kind: Kind,
    category: string,
    losses: Losses,
    startDate: int,         // start of the current streak, in milliseconds
    startTime: string,      // "HH:mm" as typed at setup; never used in a computation
    emoji: string,
    color: string,
    relapses: seq<int>      // one timestamp per recorded relapse, in insertion order
  )

  const MS_PER_SECOND: int := 1000
  const MS_PER_MINUTE: int := 1000 * 60
  const MS_PER_HOUR: int := 1000 * 60 * 60
  const MS_PER_DAY: int := 1000 * 60 * 60 * 24

  function Abs(x: int): (r: int)
    ensures r >= 0 && (r == x || r == -x)
  {
    if x < 0 then -x else x
  }
}
