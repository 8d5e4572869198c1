/** The session's request counters. */
module NetworkMetrics {

  datatype Metrics = Metrics(total: int, successful: int, failed: int, retries: int, open: int)

  function NoRequests(): Metrics {
    Metrics(0, 0, 0, 0, 0)
  }

  function Started(m: Metrics): Metrics {
    m.(open := m.open + 1)
  }

  /** The counter of open connections is clamped at zero. */
  function Ended(m: Metrics, success: bool): Metrics {
    Metrics(m.total + 1,
            if success then m.successful + 1 else m.successful,
            if success then m.failed else m.failed + 1,
            m.retries,
            if m.open >= 1 then m.open - 1 else 0)
  }

  function Retried(m: Metrics): Metrics {
    m.(retries := m.retries + 1)
  }

  class Counters {
    var total: int
    var successful: int
    var failed: int
    var retries: int
    var open: int

    ghost function Contents(): Metrics
      reads this
    {
      Metrics(total, successful, failed, retries, open)
    }

    constructor ()
      ensures Contents() == NoRequests()
    {
      total, successful, failed, retries, open := 0, 0, 0, 0, 0;
    }

    method RecordRequestStart()
      modifies this
      ensures Contents() == Started(old(Contents()))
    {
      open := open + 1;
    }

    method RecordRequestEnd(success: bool)
      modifies this
      ensures Contents() == Ended(old(Contents()), success)
    {
      open := if open - 1 > 0 then open - 1 else 0;
      total := total + 1;
      if success {
        successful := successful + 1;
      } else {
        failed := failed + 1;
      }
    }

    method RecordRetry()
      modifies this
      ensures Contents() == Retried(old(Contents()))
    {
      retries := retries + 1;
    }
  }
}
