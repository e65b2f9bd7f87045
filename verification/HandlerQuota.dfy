/** The handler quota of one connection (`atomicSemaphore` in `server.go`): a counter and a one-slot channel.  One
    goroutine, reading the connection, acquires; handlers release as they finish.  Every atomic operation on the
    counter and every channel operation is one step. */
module HandlerQuota {

  /** What is seen of the quota: the counter, the token in the channel, whether the acquirer is blocked, how many
      handlers run, and how many releases have still to send. */
  datatype View = View(quota: nat, n: int, token: bool, waiting: bool, running: nat, sending: nat)

  /** Some handler or release will wake the waiting acquirer: a token is there, is about to be sent, or the next
      handler to finish will send it. */
  predicate CanWake(v: View) {
    v.token || v.sending > 0 || (v.running > 0 && v.n + 1 <= 0)
  }

  class AtomicSemaphore {
    const quota: nat
    var n: int
    var token: bool
    var waiting: bool
    var running: nat
    var sending: nat

    function Look(): View
      reads this
    {
      View(quota, n, token, waiting, running, sending)
    }

    /** The counter is the quota less the handlers and the waiting acquirer; a token exists or is on its way exactly
        when the acquirer waits and a release has happened since. */
    ghost predicate Valid()
      reads this
    {
      && n == quota - running - (if waiting then 1 else 0) && n >= -1
      && (if token then 1 else 0) + sending == (if waiting && n >= 0 then 1 else 0)
      && (!waiting ==> n >= 0)
    }

    constructor (quota: nat)
      ensures Valid() && this.quota == quota && Look() == View(quota, quota, false, false, 0, 0)
    {
      this.quota := quota;
      n, token, waiting, running, sending := quota, false, false, 0, 0;
    }

    /** The acquirer takes its share; it blocks when there was none. */
    method Acquire()
      requires Valid() && !waiting
      modifies this
      ensures Valid() && n == old(n) - 1
      ensures waiting <==> old(running) == quota
      ensures running == old(running) + if waiting then 0 else 1
    {
      n := n - 1;
      if n < 0 {
        waiting := true;
      } else {
        running := running + 1;
      }
    }

    /** The blocked acquirer takes the token. */
    method Wake()
      requires Valid() && waiting && token
      modifies this
      ensures Valid() && !waiting && !token && running == old(running) + 1 && n == old(n)
    {
      token, waiting, running := false, false, running + 1;
    }

    /** A handler finishes. */
    method Release()
      requires Valid() && running > 0
      modifies this
      ensures Valid() && n == old(n) + 1 && running == old(running) - 1 && waiting == old(waiting)
      ensures sending == old(sending) + if old(waiting) && old(n) == -1 then 1 else 0
    {
      n, running := n + 1, running - 1;
      if n <= 0 {
        sending := sending + 1;
      }
    }

    /** The send a release owes; the slot is always free for it. */
    method Send() returns (blocked: bool)
      requires Valid() && sending > 0
      modifies this
      ensures Valid() && !blocked && token && sending == old(sending) - 1 && waiting && n == old(n) &&
                running == old(running)
    {
      if token {
        return true;
      }
      token, sending, blocked := true, sending - 1, false;
    }
  }

  datatype Step = DoAcquire | DoWake | DoRelease | DoSend

  /** One step of the semaphore; a step that cannot be taken changes nothing. */
  function Next(v: View, step: Step): View {
    match step
    case DoAcquire =>
      if v.waiting then v
      else if v.n < 1 then v.(n := v.n - 1, waiting := true)
      else v.(n := v.n - 1, running := v.running + 1)
    case DoWake => if v.waiting && v.token then v.(token := false, waiting := false, running := v.running + 1) else v
    case DoRelease =>
      if v.running == 0 then v
      else v.(n := v.n + 1, running := v.running - 1, sending := v.sending + if v.n < 0 then 1 else 0)
    case DoSend => if v.sending > 0 && !v.token then v.(token := true, sending := v.sending - 1) else v
  }

  function Run(v: View, steps: seq<Step>): View {
    if steps == [] then v else Next(Run(v, steps[..|steps| - 1]), steps[|steps| - 1])
  }

  /** After any interleaving: at most `quota` handlers run, the counter stays at -1 or above, no send ever blocks,
      and a waiting acquirer will be woken exactly when the quota is not zero. */
  method AnyRun(quota: nat, steps: seq<Step>) returns (v: View, blocked: bool)
    ensures v == Run(View(quota, quota, false, false, 0, 0), steps)
    ensures v.quota == quota && v.running <= quota && v.n >= -1 && !blocked
    ensures v.n == quota - v.running - if v.waiting then 1 else 0
    ensures v.waiting ==> (CanWake(v) <==> quota >= 1)
    ensures !v.waiting ==> !v.token && v.sending == 0
    ensures v.sending > 0 ==> !v.token
  {
    var q := new AtomicSemaphore(quota);
    blocked := false;
    for i := 0 to |steps|
      invariant fresh(q) && q.Valid() && q.quota == quota && !blocked
      invariant q.Look() == Run(View(quota, quota, false, false, 0, 0), steps[..i])
    {
      assert steps[..i + 1][..i] == steps[..i];
      match steps[i] {
        case DoAcquire => if !q.waiting { q.Acquire(); }
        case DoWake => if q.waiting && q.token { q.Wake(); }
        case DoRelease => if q.running > 0 { q.Release(); }
        case DoSend => if q.sending > 0 { blocked := q.Send(); }
      }
    }
    assert steps[..|steps|] == steps;
    v := q.Look();
  }

  lemma RunOne(v: View, steps: seq<Step>, step: Step)
    ensures Run(v, []) == v && Run(v, steps + [step]) == Next(Run(v, steps), step)
  {
    assert (steps + [step])[..|steps|] == steps;
  }

  /** From any waiting state of a positive quota, at most one release, one send and one wake, in this order, let the
      acquirer go on: as many handlers run as before, one fewer having finished and one more having started. */
  method Unblocks(q: AtomicSemaphore) returns (ghost steps: seq<Step>)
    requires q.Valid() && q.waiting && q.quota >= 1
    modifies q
    ensures q.Valid() && !q.waiting && q.running == old(q.running) + if old(q.n) == -1 then 0 else 1
    ensures q.Look() == Run(old(q.Look()), steps)
    ensures steps == [DoWake] || steps == [DoSend, DoWake] || steps == [DoRelease, DoSend, DoWake]
  {
    ghost var start := q.Look();
    RunOne(start, [], DoWake);
    steps := [];
    if !q.token && q.sending == 0 {
      RunOne(start, steps, DoRelease);
      q.Release();
      steps := steps + [DoRelease];
    }
    if !q.token {
      RunOne(start, steps, DoSend);
      var blocked := q.Send();
      steps := steps + [DoSend];
    }
    RunOne(start, steps, DoWake);
    q.Wake();
    steps := steps + [DoWake];
  }
}
