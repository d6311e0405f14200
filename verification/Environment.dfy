/**
 * What a run cannot control: the clock, cancellation of its context, and calls
 * that fail. A faultless environment is the reference cluster under a context
 * that nobody cancels; a faulty one may do anything at any point.
 */
module Environment {

  class Env {
    var now: int
    var cancelled: bool
    const faulty: bool

    constructor (faulty: bool)
      ensures this.faulty == faulty && !cancelled
    {
      now, cancelled, this.faulty := 0, false, faulty;
    }

    /** Time passes: at least one tick, and at least `d`. */
    method Elapse(d: int)
      modifies `now
      ensures now > old(now) && now >= old(now) + d
    {
      var more: int := *;
      var least := if d > 1 then d else 1;
      now := now + if more > least then more else least;
    }

    /** Observes ctx.Done(), which a faulty environment may close at any time and never reopens. */
    method Cancelled() returns (c: bool)
      modifies `cancelled
      ensures c == cancelled && (old(cancelled) ==> cancelled)
      ensures !faulty ==> cancelled == old(cancelled)
    {
      var happens: bool := *;
      if faulty && happens {
        cancelled := true;
      }
      c := cancelled;
    }

    /** Whether the next call fails for a reason of its own. */
    method Fault() returns (f: bool)
      ensures f ==> faulty
    {
      var happens: bool := *;
      f := faulty && happens;
    }

    /** Sleeps for d unless cancelled first. */
    method Sleep(d: int) returns (ok: bool)
      modifies this
      ensures now >= old(now)
      ensures ok && d > 0 ==> now >= old(now) + d
      ensures !ok ==> cancelled
      ensures old(cancelled) ==> cancelled
      ensures !faulty ==> cancelled == old(cancelled)
      ensures !faulty && !old(cancelled) ==> ok
    {
      if d <= 0 {
        return true;
      }
      var c := Cancelled();
      if c {
        return false;
      }
      Elapse(d);
      return true;
    }
  }
}
