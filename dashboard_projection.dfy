/** What the dashboard draws from its window (frontend/app/dashboard/page.tsx):
    the window reversed to oldest-first, then the time labels, the
    temperatures and the pressures, one entry per reading. Formatting a
    timestamp as a label is a parameter (`toLocaleString` is not modelled). */
module Projection {
  import opened Json
  import opened Window

  /** The arrays handed to the two line charts. */
  datatype Chart = Chart(labels: seq<string>, temps: seq<Json>, press: seq<Json>)

  /** `readings.slice().reverse().map(r => f(r))`. */
  function OldestFirst<U>(readings: seq<Json>, f: Json -> U): (c: seq<U>)
    ensures |c| == |readings|
    ensures forall i :: 0 <= i < |c| ==> c[i] == f(readings[|readings| - 1 - i])
  {
    var rev := Reversed(readings);
    forall i | 0 <= i < |rev| ensures rev[i] == readings[|readings| - 1 - i] {
      ReversedAt(readings, i);
    }
    seq(|rev|, i requires 0 <= i < |rev| => f(rev[i]))
  }

  /** `labels`, `temps` and `press`: all as long as the window, and entry `i`
      comes from the reading `i` places from the oldest end. */
  function Project(readings: seq<Json>, format: Json -> string): (c: Chart)
    ensures |c.labels| == |readings| && |c.temps| == |readings| && |c.press| == |readings|
    ensures forall i :: 0 <= i < |readings| ==>
      && c.labels[i] == format(Member(readings[|readings| - 1 - i], "ts"))
      && c.temps[i] == Member(readings[|readings| - 1 - i], "temperature_c")
      && c.press[i] == Member(readings[|readings| - 1 - i], "pressure_bar")
  {
    Chart(
      OldestFirst(readings, r => format(Member(r, "ts"))),
      OldestFirst(readings, r => Member(r, "temperature_c")),
      OldestFirst(readings, r => Member(r, "pressure_bar")))
  }

  /** After a live message the chart ends with that message's label,
      temperature and pressure: the newest reading is drawn rightmost. */
  lemma LiveMessagePlottedLast(d: Json, prev: seq<Json>, format: Json -> string)
    ensures var c := Project(LivePush(d, prev), format);
      var n := |c.temps|;
      && n > 0
      && c.labels[n - 1] == format(Member(d, "ts"))
      && c.temps[n - 1] == Member(d, "temperature_c")
      && c.press[n - 1] == Member(d, "pressure_bar")
  {
  }
}
