/** The input's lifecycle states as reported to the host, and the fallback to
    a reporter that ignores updates (x-pack/filebeat/input/gcppubsub/input.go). */
module Status {

  import opened Wrappers
  import opened Errors

  /** status.Status values the input reports, with the detail it attaches. */
  datatype Status =
    | Starting
    | Configuring
    | Running
    | Degraded(detail: Error)
    | Stopping
    | Stopped

  /** A status reporter: the no-op one, or one the host supplies. */
  datatype Reporter = Noop | Host(id: int)

  /** What the host's input context offers: no GetStatusReporter function at
      all, or one, which may answer nil (None). */
  datatype ReporterSource = NoGetter | Getter(answer: Option<Reporter>)

  /** getStatusReporter: the host's reporter when there is one, and otherwise
      the no-op reporter, so that the result is never nil. */
  function GetStatusReporter(src: ReporterSource): (r: Reporter)
    ensures src.Getter? && src.answer.Some? ==> r == src.answer.value
    ensures src.NoGetter? || src.answer.None? ==> r == Noop
  {
    match src
    case NoGetter => Noop
    case Getter(answer) => if answer.None? then Noop else answer.value
  }

  /** The updates a reporter records: the no-op reporter keeps none, a host
      reporter every one, in order. */
  function Recorded(r: Reporter, updates: seq<Status>): (kept: seq<Status>)
    ensures r.Noop? ==> kept == []
    ensures r.Host? ==> kept == updates
  {
    if r.Noop? then [] else updates
  }
}
