/** The outside world the replication engine waits on: the run's cancellation signal, the
    wall clock and the token-bucket rate limiter of golang.org/x/time/rate. Each may do
    anything its interface allows; the contracts elsewhere hold for every such behaviour. */
module Environment {
  import opened Wrappers

  /** The run's cancellation signal: it may fire at any moment, and once fired it stays fired. */
  class Context {
    var cancelled: bool
    /** What every non-blocking look at `ctx.Done()` saw, in order. */
    ghost var checks: seq<bool>

    constructor ()
      ensures !cancelled && checks == []
    {
      cancelled := false;
      checks := [];
    }

    /** A non-blocking look at `ctx.Done()`. */
    method Done() returns (done: bool)
      modifies this
      ensures old(cancelled) ==> cancelled
      ensures done == cancelled
      ensures checks == old(checks) + [done]
    {
      if !cancelled {
        var fired: bool :| true;
        cancelled := fired;
      }
      done := cancelled;
      checks := checks + [done];
    }
  }

  /** A wall-clock reading in milliseconds: any value at all, in particular one that is not
      later than the previous reading. */
  method NowMillis() returns (ms: int)
  {
    ms :| true;
  }

  datatype WaitError = ExceedsBurst(n: int, burst: int) | WaitCancelled

  /** A token bucket refilled at `limit` tokens per second holding at most `burst` tokens.
      The timing is not modelled: a wait that can be served ends either with the tokens or
      with the run's cancellation. */
  class Limiter {
    const limit: int
    const burst: int
    /** The size of every WaitN request, in order. */
    var requests: seq<int>

    constructor (limit: int, burst: int)
      ensures this.limit == limit && this.burst == burst && requests == []
    {
      this.limit := limit;
      this.burst := burst;
      requests := [];
    }

    /** Block until `n` tokens are available or the run is cancelled. A request larger than
        the bucket can ever hold fails at once. */
    method WaitN(ctx: Context, n: int) returns (err: Option<WaitError>)
      modifies this, ctx`cancelled
      ensures requests == old(requests) + [n]
      ensures old(ctx.cancelled) ==> ctx.cancelled
      ensures n > burst ==> err == Some(ExceedsBurst(n, burst))
      ensures n <= burst ==> err == None || (err == Some(WaitCancelled) && ctx.cancelled)
      ensures n <= burst && old(ctx.cancelled) ==> err == Some(WaitCancelled)
    {
      requests := requests + [n];
      if n > burst {
        return Some(ExceedsBurst(n, burst));
      }
      // The wait itself: the run may be cancelled before the tokens arrive.
      if !ctx.cancelled {
        var fired: bool :| true;
        ctx.cancelled := fired;
      }
      err := if ctx.cancelled then Some(WaitCancelled) else None;
    }
  }
}
