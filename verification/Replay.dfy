/** The retry and replay engine of a client stream (`clientStream.withRetry`, `retryLocked`,
    `replayBufferLocked`, `bufferForRetryLocked`, `commitAttemptLocked`, `finish`).

    One goroutine creates the stream and sends, another receives.  An operation runs on an attempt
    without the lock, so the attempt may be swapped, committed or finished meanwhile.  Every piece of
    code that runs under `cs.mu` is one step; an operation executed outside the lock is a step of its
    own.  What the transport, the clock and the application decide is part of the step's label. */
module Replay {

  import opened Wrappers
  import RP = RetryPolicy

  /** Operations that are kept for replay.  `id` is the position in the application's order. */
  datatype Op = NewStream | Send(id: nat, size: nat) | CloseSend(id: nat)

  function Size(op: Op): nat {
    if op.Send? then op.size else 0
  }

  /** `log`: the operations that were carried out on the attempt.  `dead`: its transport stream has
      ended, or `finish` was called on the attempt. */
  datatype Attempt = Attempt(log: seq<Op>, dead: bool)

  /** The part of `clientStream` that `cs.mu` guards.  `freed` and `leaked` account for the extra
      payload reference each `SendMsg` takes; `panicked` records a call of a nil cleanup function. */
  datatype Stream = Stream(
    cfg: RP.Config, maxBuffer: int,
    attempts: seq<Attempt>, cur: Option<nat>,
    buffer: seq<Op>, bufferSize: nat, committed: bool, finished: bool,
    budget: RP.Budget, ctxDone: bool,
    freed: multiset<Op>, leaked: set<Op>, panicked: bool)

  // ---------------------------------------------------------------- critical sections

  function Kill(s: Stream, a: nat): Stream {
    if a < |s.attempts| then s.(attempts := s.attempts[a := s.attempts[a].(dead := true)]) else s
  }

  /** The references the cleanup functions of `ops` release. */
  function Refs(ops: seq<Op>): multiset<Op> {
    if ops == [] then multiset{}
    else Refs(ops[..|ops| - 1]) + (if ops[|ops| - 1].Send? then multiset{ops[|ops| - 1]} else multiset{})
  }

  lemma RefsUpTo(ops: seq<Op>, i: nat)
    requires i <= |ops|
    ensures Refs(ops[..0]) == multiset{}
    ensures i < |ops| ==> Refs(ops[..i + 1]) == Refs(ops[..i]) + if ops[i].Send? then multiset{ops[i]} else multiset{}
  {
    assert i < |ops| ==> ops[..i + 1][..i] == ops[..i];
  }

  function Commit(s: Stream): Stream {
    if s.committed then s
    else s.(committed := true, freed := s.freed + Refs(s.buffer), buffer := [])
  }

  /** `bufferForRetryLocked`.  When the stream is already committed nothing is kept and nothing is
      freed, although the caller counts the reference as handed over. */
  function Keep(s: Stream, op: Op): Stream {
    if s.committed then (if op.Send? then s.(leaked := s.leaked + {op}) else s)
    else
      var s1 := s.(bufferSize := s.bufferSize + Size(op));
      if s1.bufferSize > s1.maxBuffer then Overrun(s1, op) else s1.(buffer := s1.buffer + [op])
  }

  /** The buffer limit is exceeded: commit and clean up the operation, whose cleanup may be nil. */
  function Overrun(s: Stream, op: Op): Stream {
    var s1 := Commit(s);
    if op.Send? then s1.(freed := s1.freed + multiset{op}) else s1.(panicked := true)
  }

  function FinishStream(s: Stream): Stream {
    if s.finished then s
    else
      var s1 := Commit(s.(finished := true));
      if s1.cur.Some? then Kill(s1, s1.cur.value) else s1
  }

  /** One round of `retryLocked`: what the failed attempt looked like, whether the call was cancelled
      meanwhile, and how many buffered operations the new attempt accepts. */
  datatype Round = Round(facts: RP.Facts, throttler: Option<RP.Throttler>, cancel: bool, accepted: nat)

  datatype Outcome = Swapped | GaveUp | Undecided

  /** `replayBufferLocked` on a fresh attempt: stream creation assigns `cs.attempt`. */
  function ReplayOn(s: Stream, n: nat): Stream
    requires n <= |s.buffer|
  {
    s.(attempts := s.attempts + [Attempt(s.buffer[..n], false)],
       cur := if NewStream in s.buffer[..n] then Some(|s.attempts|) else s.cur)
  }

  datatype RoundResult = Done(out: Outcome) | Again(a: nat)

  /** One turn of the loop in `retryLocked`, for the failed attempt `a`. */
  function RetryRound(s: Stream, a: nat, r: Round): (res: (Stream, RoundResult)) {
    var s0 := Kill(s, a);
    var (d, budget, _) := RP.ShouldRetry(s0.cfg, s0.finished || s0.committed, s0.budget, r.throttler, r.facts);
    var s1 := s0.(budget := budget, ctxDone := s0.ctxDone || r.cancel);
    if d.Refused? then (Commit(s1), Done(GaveUp))
    else
      var s2 := s1.(budget := budget.(firstAttempt := false));
      if s2.ctxDone then (s2, Done(GaveUp))
      else if r.accepted >= |s2.buffer| then (ReplayOn(s2, |s2.buffer|), Done(Swapped))
      else (ReplayOn(s2, r.accepted), Again(|s2.attempts|))
  }

  /** `retryLocked`.  `Undecided` means that the label holds fewer rounds than the loop needed. */
  function Retry(s: Stream, a: nat, rounds: seq<Round>): (r: (Stream, Outcome))
    decreases |rounds|
  {
    if rounds == [] then (s, Undecided)
    else
      var (t, res) := RetryRound(s, a, rounds[0]);
      match res
      case Done(out) => (t, out)
      case Again(b) => Retry(t, b, rounds[1..])
  }

  /** The object itself.  Each method is one region under `cs.mu`, or a part of one, and is proved
      against the function that the interleaving model uses for it. */
  class ClientStream {
    const cfg: RP.Config
    const maxBuffer: int
    var attempts: seq<Attempt>
    var attempt: Option<nat>
    var replayBuffer: seq<Op>
    var replayBufferSize: nat
    var committed: bool
    var finished: bool
    var budget: RP.Budget
    var ctxDone: bool
    ghost var freed: multiset<Op>
    ghost var leaked: set<Op>
    ghost var panicked: bool

    ghost function State(): Stream
      reads this
    {
      Stream(cfg, maxBuffer, attempts, attempt, replayBuffer, replayBufferSize, committed, finished,
             budget, ctxDone, freed, leaked, panicked)
    }

    method CommitAttemptLocked()
      modifies this`committed, this`replayBuffer, this`freed
      ensures State() == Commit(old(State()))
    {
      hide Refs;
      if committed {
        return;
      }
      committed := true;
      CleanUp();
      replayBuffer := [];
    }

    /** The loop that calls the cleanup function of every buffered operation. */
    method CleanUp()
      modifies this`freed
      ensures freed == old(freed) + Refs(replayBuffer)
    {
      hide Refs;
      RefsUpTo(replayBuffer, 0);
      for i := 0 to |replayBuffer|
        invariant freed == old(freed) + Refs(replayBuffer[..i])
      {
        RefsUpTo(replayBuffer, i);
        if replayBuffer[i].Send? {
          freed := freed + multiset{replayBuffer[i]};
        }
      }
      assert replayBuffer[..|replayBuffer|] == replayBuffer;
    }

    method BufferForRetryLocked(op: Op)
      modifies this`committed, this`replayBuffer, this`replayBufferSize, this`freed, this`leaked, this`panicked
      ensures State() == Keep(old(State()), op)
    {
      hide Overrun, Refs, Commit;
      if committed {
        leaked := if op.Send? then leaked + {op} else leaked;
        return;
      }
      replayBufferSize := replayBufferSize + Size(op);
      if replayBufferSize <= maxBuffer {
        replayBuffer := replayBuffer + [op];
        return;
      }
      OverrunLocked(op);
    }

    method OverrunLocked(op: Op)
      modifies this`committed, this`replayBuffer, this`freed, this`panicked
      ensures State() == Overrun(old(State()), op)
    {
      CommitAttemptLocked();
      if op.Send? {
        freed := freed + multiset{op};
      } else {
        panicked := true;
      }
    }

    /** Runs the buffered operations on attempt `a` until one of them fails. */
    method ReplayBufferLocked(a: nat, accepted: nat) returns (ok: bool)
      requires a == |attempts| - 1 && attempts[a] == Attempt([], false)
      modifies this`attempts, this`attempt
      ensures var before := old(State()).(attempts := old(attempts)[..a]);
              var n := if accepted <= |before.buffer| then accepted else |before.buffer|;
              State() == ReplayOn(before, n)
      ensures ok <==> accepted >= |old(replayBuffer)|
    {
      var i := 0;
      while i < |replayBuffer|
        invariant 0 <= i <= |replayBuffer| && i <= accepted
        invariant attempts == old(attempts)[..a] + [Attempt(replayBuffer[..i], false)]
        invariant attempt == if NewStream in replayBuffer[..i] then Some(a) else old(attempt)
      {
        if i >= accepted {
          return false;
        }
        attempts := attempts[a := attempts[a].(log := attempts[a].log + [replayBuffer[i]])];
        if replayBuffer[i].NewStream? {
          attempt := Some(a);
        }
        assert replayBuffer[..i] + [replayBuffer[i]] == replayBuffer[..i + 1];
        i := i + 1;
      }
      return true;
    }

    method RetryOnce(a: nat, r: Round) returns (res: RoundResult)
      requires a < |attempts|
      modifies this`attempts, this`attempt, this`budget, this`ctxDone, this`committed, this`replayBuffer, this`freed
      ensures (State(), res) == RetryRound(old(State()), a, r)
    {
      hide RP.ShouldRetry, Refs;
      attempts := attempts[a := attempts[a].(dead := true)];
      var (d, b, _) := RP.ShouldRetry(cfg, finished || committed, budget, r.throttler, r.facts);
      budget := b;
      ctxDone := ctxDone || r.cancel;
      if d.Refused? {
        CommitAttemptLocked();
        return Done(GaveUp);
      }
      budget := b.(firstAttempt := false);
      if ctxDone {
        return Done(GaveUp);
      }
      ghost var dead := attempts;
      attempts := attempts + [Attempt([], false)];
      assert attempts[..|dead|] == dead;
      var ok := ReplayBufferLocked(|attempts| - 1, r.accepted);
      res := if ok then Done(Swapped) else Again(|attempts| - 1);
    }

    method RetryLocked(first: nat, rounds: seq<Round>) returns (out: Outcome)
      requires first < |attempts|
      modifies this`attempts, this`attempt, this`budget, this`ctxDone, this`committed, this`replayBuffer, this`freed
      ensures (State(), out) == Retry(old(State()), first, rounds)
    {
      var a: nat, i := first, 0;
      while i < |rounds|
        invariant 0 <= i <= |rounds| && a < |attempts|
        invariant Retry(State(), a, rounds[i..]) == Retry(old(State()), first, rounds)
      {
        assert rounds[i..][1..] == rounds[i + 1..];
        var res := RetryOnce(a, rounds[i]);
        if res.Done? {
          return res.out;
        }
        a, i := res.a, i + 1;
      }
      return Undecided;
    }

    method Finish()
      modifies this
      ensures State() == FinishStream(old(State()))
    {
      if finished {
        return;
      }
      finished := true;
      CommitAttemptLocked();
      if attempt.Some? && attempt.value < |attempts| {
        attempts := attempts[attempt.value := attempts[attempt.value].(dead := true)];
      }
    }
  }

  // ---------------------------------------------------------------- the two goroutines

  /** Where a goroutine is inside `withRetry`: at the top of the loop, about to run the operation on
      an attempt it captured, back from it, or about to run it on the committed attempt. */
  datatype Pc<T> = Idle | Top | Running(a: nat) | Ran(a: nat, res: T) | OnCommitted

  /** Result of a receiving operation: data, a clean end of stream, or an error. */
  datatype Received = Data(value: int) | Ended | Failed

  /** `app`: every sending operation the application has issued, stream creation first.
      `delivered`: what was handed to the application, with the attempt it came from. */
  datatype State = State(
    cs: Stream, app: seq<Op>, created: bool, sender: Pc<bool>, receiver: Pc<Received>, delivered: seq<(nat, int)>)

  datatype Step =
    | Issue(size: nat) | Close
    | SendTop | SendRun(ok: bool) | SendBack(statusOK: bool, rounds: seq<Round>) | SendCommitted(ok: bool)
    | Receive
    | RecvTop | RecvRun(res: Received) | RecvBack(rounds: seq<Round>) | RecvCommitted(res: Received)
    | StreamEnds(a: nat) | Cancel | CommitNow | FinishNow

  predicate BySender(step: Step) {
    step.Issue? || step.Close? || step.SendTop? || step.SendRun? || step.SendBack? || step.SendCommitted?
  }

  predicate ByReceiver(step: Step) {
    step.Receive? || step.RecvTop? || step.RecvRun? || step.RecvBack? || step.RecvCommitted?
  }

  function Init(cfg: RP.Config, maxBuffer: int): State {
    State(
      Stream(cfg, maxBuffer, [], None, [], 0, false, false, RP.Budget(0, 0, true), false, multiset{}, {}, false),
      [NewStream], false, Top, Idle, [])
  }

  /** The top of the loop in `withRetry`; `None` means that the operation fails. */
  function AtTop<T>(s: Stream): (r: (Stream, Pc<T>)) {
    if s.committed then (s, OnCommitted)
    else if s.buffer == [] then
      if s.ctxDone then (FinishStream(s.(cur := None)), Idle)
      else
        var s1 := s.(attempts := s.attempts + [Attempt([], false)], cur := Some(|s.attempts|));
        (s1, Running(|s.attempts|))
    else if s.cur.Some? then (s, Running(s.cur.value))
    else (s, Idle)
  }

  /** A sending operation on an attempt.  A write that fails ends the attempt; half-closing reports
      success whatever the write did. */
  function Apply(s: Stream, a: nat, op: Op, ok: bool): (r: (Stream, bool))
    requires a < |s.attempts|
  {
    var att := s.attempts[a];
    if ok && !att.dead then (s.(attempts := s.attempts[a := att.(log := att.log + [op])]), true)
    else (Kill(s, a), op.CloseSend?)
  }

  /** The reference of an operation that was not handed to the replay buffer is released at once. */
  function Release(s: Stream, op: Op): Stream {
    if op.Send? then s.(freed := s.freed + multiset{op}) else s
  }

  function CurrentOp(s: State): Op
    requires s.app != []
  {
    s.app[|s.app| - 1]
  }

  predicate SentLast(s: State) {
    s.app != [] && CurrentOp(s).CloseSend?
  }

  /** What the sending goroutine does. */
  function NextSend(s: State, step: Step): (r: Option<State>)
    requires BySender(step)
  {
    match step
    case Issue(size) =>
      if s.created && s.sender.Idle? && !SentLast(s)
      then Some(s.(app := s.app + [Send(|s.app|, size)], sender := Top))
      else None
    case Close =>
      if s.created && s.sender.Idle? && !SentLast(s)
      then Some(s.(app := s.app + [CloseSend(|s.app|)], sender := Top))
      else None
    case SendTop =>
      if !s.sender.Top? || s.app == [] then None
      else
        var (cs, pc) := AtTop<bool>(s.cs);
        Some(s.(cs := if pc.Idle? then Release(cs, CurrentOp(s)) else cs, sender := pc))
    case SendRun(ok) =>
      if !s.sender.Running? || s.app == [] || s.sender.a >= |s.cs.attempts| then None
      else
        var (cs, res) := Apply(s.cs, s.sender.a, CurrentOp(s), ok);
        Some(s.(cs := cs, sender := Ran(s.sender.a, res)))
    case SendBack(statusOK, rounds) =>
      if !s.sender.Ran? || s.app == [] then None
      else if s.cs.cur != Some(s.sender.a) then Some(s.(sender := Top))
      else if s.sender.res || (statusOK && CurrentOp(s).Send?) then
        Some(s.(cs := Keep(s.cs, CurrentOp(s)), sender := Idle, created := true))
      else
        var (cs, out) := Retry(s.cs, s.sender.a, rounds);
        if out.Undecided? then None
        else if out.Swapped? then Some(s.(cs := cs, sender := Top))
        else Some(s.(cs := Release(cs, CurrentOp(s)), sender := Idle))
    case SendCommitted(ok) =>
      if !s.sender.OnCommitted? || s.app == [] then None
      else if s.cs.cur.None? || s.cs.cur.value >= |s.cs.attempts| then
        Some(s.(cs := Release(s.cs, CurrentOp(s)), sender := Idle))
      else
        var (cs, _) := Apply(s.cs, s.cs.cur.value, CurrentOp(s), ok);
        Some(s.(cs := Release(cs, CurrentOp(s)), sender := Idle))
  }

  /** What the receiving goroutine does. */
  function NextReceive(s: State, step: Step): (r: Option<State>)
    requires ByReceiver(step)
  {
    match step
    case Receive =>
      if s.created && s.receiver.Idle? then Some(s.(receiver := Top)) else None
    case RecvTop =>
      if !s.receiver.Top? then None
      else
        var (cs, pc) := AtTop<Received>(s.cs);
        Some(s.(cs := cs, receiver := pc))
    case RecvRun(res) =>
      if !s.receiver.Running? then None else Some(s.(receiver := Ran(s.receiver.a, res)))
    case RecvBack(rounds) =>
      if !s.receiver.Ran? then None
      else if s.cs.cur != Some(s.receiver.a) then Some(s.(receiver := Top))
      else if !s.receiver.res.Failed? then
        Some(s.(cs := Commit(s.cs), receiver := Idle,
                delivered := s.delivered + Delivery(s.receiver.a, s.receiver.res)))
      else
        var (cs, out) := Retry(s.cs, s.receiver.a, rounds);
        if out.Undecided? then None
        else Some(s.(cs := cs, receiver := if out.Swapped? then Top else Idle))
    case RecvCommitted(res) =>
      if !s.receiver.OnCommitted? || s.cs.cur.None? then None
      else Some(s.(receiver := Idle, delivered := s.delivered + Delivery(s.cs.cur.value, res)))
  }

  /** What the transport and the application may do at any time. */
  function NextOutside(s: State, step: Step): (r: Option<State>)
    requires !BySender(step) && !ByReceiver(step)
  {
    match step
    case StreamEnds(a) => Some(s.(cs := Kill(s.cs, a)))
    case Cancel => Some(s.(cs := s.cs.(ctxDone := true)))
    case CommitNow => if s.created then Some(s.(cs := Commit(s.cs))) else None
    case FinishNow => if s.created then Some(s.(cs := FinishStream(s.cs))) else None
  }

  function Next(s: State, step: Step): (r: Option<State>) {
    if BySender(step) then NextSend(s, step)
    else if ByReceiver(step) then NextReceive(s, step)
    else NextOutside(s, step)
  }

  function Delivery(a: nat, res: Received): seq<(nat, int)> {
    if res.Data? then [(a, res.value)] else []
  }

  /** All runs: the state after a list of steps, if each of them was enabled. */
  function Run(s: State, steps: seq<Step>): Option<State> {
    if steps == [] then Some(s)
    else
      var before := Run(s, steps[..|steps| - 1]);
      if before.None? then None else Next(before.value, steps[|steps| - 1])
  }

  // ---------------------------------------------------------------- invariants

  function Pos(op: Op): nat {
    if op.NewStream? then 0 else op.id
  }

  ghost predicate WellFormed(s: Stream) {
    && (s.cur.Some? ==> s.cur.value < |s.attempts|)
    && (s.committed ==> s.buffer == [])
    && (s.buffer != [] ==> s.buffer[0] == NewStream)
    && (s.finished ==> s.committed)
    && (!s.committed ==> s.bufferSize <= s.maxBuffer)
    && (s.budget.numRetries > 0 ==>
          s.cfg.policy.Some? && s.budget.numRetries <= s.cfg.policy.value.maxAttempts - 1)
    && !s.panicked
  }

  ghost predicate CurDead(s: Stream) {
    s.cur.Some? ==> s.cur.value < |s.attempts| && s.attempts[s.cur.value].dead
  }

  /** Operations whose `withRetry` call has returned. */
  function Completed(s: State): nat {
    if s.sender.Idle? || s.app == [] then |s.app| else |s.app| - 1
  }

  /** Operations the current attempt must have seen. */
  function Expected(s: State): nat {
    if s.sender.Ran? && s.sender.res && s.cs.cur == Some(s.sender.a) then |s.app| else Completed(s)
  }

  ghost predicate AppOrdered(app: seq<Op>) {
    && app != [] && app[0] == NewStream
    && forall i :: 0 < i < |app| ==> !app[i].NewStream? && app[i].id == i
  }

  ghost predicate Threads(s: State) {
    && AppOrdered(s.app)
    && (s.sender.Running? || s.sender.Ran? ==> s.sender.a < |s.cs.attempts|)
    && (s.receiver.Running? || s.receiver.Ran? ==> s.receiver.a < |s.cs.attempts|)
    && (s.sender.Ran? && !s.sender.res ==> s.cs.attempts[s.sender.a].dead)
    && (s.sender.OnCommitted? || s.receiver.OnCommitted? ==> s.cs.committed)
    && (!s.created ==>
          && |s.app| == 1 && s.receiver.Idle? && s.cs.buffer == [] && s.delivered == []
          && (!s.sender.Idle? ==> !s.cs.committed)
          && (s.sender.Running? || s.sender.Ran? ==> s.cs.cur == Some(s.sender.a)))
    && (s.created ==> s.cs.cur.Some?)
    && (s.created && !s.cs.committed ==> s.cs.buffer != [])
  }

  /** The replay buffer holds exactly the completed operations, unless the call is beyond retrying. */
  ghost predicate BufferComplete(s: State) {
    s.created && !s.cs.committed ==>
      (s.cs.ctxDone && CurDead(s.cs)) || s.cs.buffer == s.app[..Completed(s)]
  }

  /** Replay exactness: the current attempt, while it is alive, has seen stream creation followed by
      the application's operations, in order and each once. */
  ghost predicate Exact(s: State) {
    s.cs.cur.Some? && s.cs.cur.value < |s.cs.attempts| && !s.cs.attempts[s.cs.cur.value].dead ==>
      s.cs.attempts[s.cs.cur.value].log == s.app[..Expected(s)]
  }

  /** Single source: whatever the application received came from the committed attempt. */
  ghost predicate SingleSource(s: State) {
    && (s.delivered != [] ==> s.cs.committed)
    && forall i :: 0 <= i < |s.delivered| ==> s.cs.cur == Some(s.delivered[i].0)
  }

  ghost predicate Inv(s: State) {
    WellFormed(s.cs) && Threads(s) && BufferComplete(s) && Exact(s) && SingleSource(s)
  }

  // ---------------------------------------------------------------- the retry loop

  /** What `retryLocked` does to the stream, whatever the rounds were. */
  ghost predicate RetryEffect(s: Stream, t: Stream, out: Outcome) {
    && WellFormed(t)
    && t.finished == s.finished && t.cfg == s.cfg && t.maxBuffer == s.maxBuffer
    && t.leaked == s.leaked && t.bufferSize == s.bufferSize
    && |s.attempts| <= |t.attempts|
    && (forall i :: 0 <= i < |s.attempts| && s.attempts[i].dead ==> t.attempts[i].dead)
    && (s.ctxDone ==> t.ctxDone)
    && (t.committed ==> t.freed == (if s.committed then s.freed else s.freed + Refs(s.buffer)))
    && (!t.committed ==> !s.committed && t.freed == s.freed && t.buffer == s.buffer)
    && (s.committed ==> t.committed && out != Swapped && t.cur == s.cur)
    && (t.cur.Some? <==> s.cur.Some?)
    && (out == Swapped ==>
          && !t.committed && !t.ctxDone
          && (s.buffer == [] ==> t.cur == s.cur && CurDead(t))
          && (s.buffer != [] ==>
                && t.cur.Some? && |s.attempts| <= t.cur.value
                && t.attempts[t.cur.value] == Attempt(s.buffer, false)))
    && (out == GaveUp ==> CurDead(t) && (t.committed || t.ctxDone))
  }

  /** One failed round leaves everything but the attempts as it was. */
  lemma RoundEffect(s: Stream, a: nat, r: Round)
    requires WellFormed(s) && s.cur.Some? && a < |s.attempts|
    requires s.cur == Some(a) || CurDead(s)
    ensures var (t, res) := RetryRound(s, a, r);
            && (res.Done? ==> RetryEffect(s, t, res.out))
            && (res.Again? ==>
                  && WellFormed(t) && !s.committed && s.buffer != []
                  && t == s.(attempts := t.attempts, cur := t.cur, budget := t.budget, ctxDone := t.ctxDone)
                  && (s.ctxDone ==> t.ctxDone)
                  && (t.cur == Some(res.a) || CurDead(t)) && t.cur.Some?
                  && res.a == |s.attempts| && |t.attempts| == res.a + 1
                  && forall i :: 0 <= i < |s.attempts| && s.attempts[i].dead ==> t.attempts[i].dead)
  {
    hide Refs, Retry, Next;
  }

  lemma {:induction false} RetryLoop(s: Stream, a: nat, rounds: seq<Round>)
    requires WellFormed(s) && s.cur.Some? && a < |s.attempts|
    requires s.cur == Some(a) || CurDead(s)
    ensures RetryEffect(s, Retry(s, a, rounds).0, Retry(s, a, rounds).1)
    decreases |rounds|
  {
    if rounds != [] {
      RoundEffect(s, a, rounds[0]);
      hide RetryRound;
      var (t, res) := RetryRound(s, a, rounds[0]);
      if res.Again? {
        RetryLoop(t, res.a, rounds[1..]);
      }
    }
  }

  /** The answer to whether the failed attempt may be retried. */
  function Decision(s: Stream, r: Round): RP.Decision {
    RP.ShouldRetry(s.cfg, s.finished || s.committed, s.budget, r.throttler, r.facts).0
  }

  /** How many buffered operations a new attempt accepts in the round. */
  function Accepts(s: Stream, r: Round): nat {
    if r.accepted < |s.buffer| then r.accepted else |s.buffer|
  }

  /** When a round gives up, when it swaps attempts, and when it goes on.  Refused, it commits; a cancelled call
      gives up without committing; otherwise there is exactly one new attempt, which sees what it accepts of the
      buffer, and the round is the last one exactly if that is all of it. */
  lemma RoundDecides(s: Stream, a: nat, r: Round)
    requires a < |s.attempts|
    ensures var d, cancelled := Decision(s, r), s.ctxDone || r.cancel;
            var (t, res) := RetryRound(s, a, r);
            var n := |s.attempts|;
            && t.attempts[a].dead && t.ctxDone == cancelled
            && (forall i :: 0 <= i < n && i != a ==> t.attempts[i] == s.attempts[i])
            && (d.Refused? ==>
                  && res == Done(GaveUp) && t.committed && |t.attempts| == n && t.cur == s.cur
                  && (s.committed || t.buffer == []))
            && (!d.Refused? ==> t.committed == s.committed && t.buffer == s.buffer && !t.budget.firstAttempt)
            && (!d.Refused? && cancelled ==> res == Done(GaveUp) && |t.attempts| == n && t.cur == s.cur)
            && (!d.Refused? && !cancelled ==>
                  && |t.attempts| == n + 1 && t.attempts[n] == Attempt(s.buffer[..Accepts(s, r)], false)
                  && res == (if r.accepted >= |s.buffer| then Done(Swapped) else Again(n))
                  && (s.buffer != [] && s.buffer[0] == NewStream ==>
                        t.cur == if r.accepted > 0 then Some(n) else s.cur))
            && t.budget.numRetries == s.budget.numRetries + if d.ByPolicy? then 1 else 0
  {
    hide Refs, RP.ShouldRetry;
    if s.buffer != [] && s.buffer[0] == NewStream && Accepts(s, r) > 0 {
      assert s.buffer[..Accepts(s, r)][0] == NewStream;
    }
  }

  /** The round fails in a way the policy retries, with no cancellation. */
  predicate Retryable(cfg: RP.Config, r: Round) {
    && !cfg.disableRetry && cfg.policy.Some? && r.facts.code in cfg.policy.value.codes
    && !r.cancel && !r.facts.drop && !r.facts.cancelledInBackoff
    && r.facts.hasStream && !r.facts.unprocessed && r.facts.trailersOnly
    && (r.facts.pushback.Absent? || r.facts.pushback.Millis?) && !RP.Refuses(RP.SpendOpt(r.throttler))
  }

  /** Attempts the policy still allows. */
  function Left(s: Stream): int {
    if s.cfg.policy.None? then 0 else s.cfg.policy.value.maxAttempts - 1 - s.budget.numRetries
  }

  predicate Open(s: Stream) {
    !s.committed && !s.finished && !s.ctxDone && Left(s) >= 0
  }

  /** A round with a failure that the policy retries. */
  lemma RetryableRound(s: Stream, a: nat, r: Round)
    requires a < |s.attempts| && Open(s) && Retryable(s.cfg, r)
    ensures var (t, res) := RetryRound(s, a, r);
            if Left(s) == 0 then res == Done(GaveUp) && t.committed && |t.attempts| == |s.attempts|
            else
              && Open(t) && Left(t) == Left(s) - 1 && t.cfg == s.cfg && t.buffer == s.buffer
              && |t.attempts| == |s.attempts| + 1
              && t.attempts[|s.attempts|] == Attempt(s.buffer[..Accepts(s, r)], false)
              && res == if r.accepted >= |s.buffer| then Done(Swapped) else Again(|s.attempts|)
  {
    hide Refs;
    RoundDecides(s, a, r);
  }

  /** The loop goes on as long as attempts fail in such a way, and no longer than the policy allows: each round makes
      one attempt more, and when none is left the stream is committed. */
  lemma {:induction false} RetriesUntilExhausted(s: Stream, a: nat, rounds: seq<Round>)
    requires a < |s.attempts| && Open(s)
    requires forall i :: 0 <= i < |rounds| ==> Retryable(s.cfg, rounds[i]) && rounds[i].accepted < |s.buffer|
    ensures var (t, out) := Retry(s, a, rounds);
            if |rounds| <= Left(s)
            then out == Undecided && !t.committed && |t.attempts| == |s.attempts| + |rounds|
            else out == GaveUp && t.committed && |t.attempts| == |s.attempts| + Left(s)
    decreases |rounds|
  {
    hide RetryRound, Retryable;
    if rounds != [] {
      RetryableRound(s, a, rounds[0]);
      var (t, res) := RetryRound(s, a, rounds[0]);
      if res.Again? {
        RetriesUntilExhausted(t, res.a, rounds[1..]);
      }
    }
  }

  /** It ends with the first attempt that accepts the whole buffer. */
  lemma {:induction false} RetriesUntilAccepted(s: Stream, a: nat, rounds: seq<Round>, last: Round)
    requires a < |s.attempts| && Open(s) && |rounds| < Left(s)
    requires forall i :: 0 <= i < |rounds| ==> Retryable(s.cfg, rounds[i]) && rounds[i].accepted < |s.buffer|
    requires Retryable(s.cfg, last) && last.accepted >= |s.buffer|
    ensures var (t, out) := Retry(s, a, rounds + [last]);
            && out == Swapped && !t.committed && |t.attempts| == |s.attempts| + |rounds| + 1
            && t.attempts[|t.attempts| - 1] == Attempt(s.buffer, false)
    decreases |rounds|
  {
    hide RetryRound, Retryable;
    var all := rounds + [last];
    RetryableRound(s, a, all[0]);
    assert s.buffer[..|s.buffer|] == s.buffer;
    if rounds != [] {
      var (t, res) := RetryRound(s, a, rounds[0]);
      RetriesUntilAccepted(t, res.a, rounds[1..], last);
      assert all[1..] == rounds[1..] + [last];
    }
  }

  // ---------------------------------------------------------------- every step keeps the invariant

  lemma IssueKeeps(s: State, step: Step)
    requires Inv(s) && Next(s, step).Some? && (step.Issue? || step.Close?)
    ensures Inv(Next(s, step).value)
  {
    assert Next(s, step).value.app[..|s.app|] == s.app;
  }

  lemma SendTopKeeps(s: State, step: Step)
    requires Inv(s) && Next(s, step).Some? && step.SendTop?
    ensures Inv(Next(s, step).value)
  {
  }

  lemma SendRunKeeps(s: State, step: Step)
    requires Inv(s) && Next(s, step).Some? && step.SendRun?
    ensures Inv(Next(s, step).value)
  {
    assert s.app[..|s.app| - 1] + [CurrentOp(s)] == s.app[..|s.app|];
  }

  lemma SendCommittedKeeps(s: State, step: Step)
    requires Inv(s) && Next(s, step).Some? && step.SendCommitted?
    ensures Inv(Next(s, step).value)
  {
    assert s.app[..|s.app| - 1] + [CurrentOp(s)] == s.app[..|s.app|];
  }

  /** The operation came back successfully from the attempt that is still current. */
  lemma SendKeptKeeps(s: State)
    requires Inv(s) && s.sender.Ran? && s.cs.cur == Some(s.sender.a)
    requires s.sender.res || CurrentOp(s).Send?
    ensures Inv(s.(cs := Keep(s.cs, CurrentOp(s)), sender := Idle, created := true))
  {
    assert s.app[..|s.app| - 1] + [CurrentOp(s)] == s.app[..|s.app|];
  }

  lemma SendSwapKeeps(s: State, rounds: seq<Round>)
    requires Inv(s) && s.sender.Ran? && s.cs.cur == Some(s.sender.a) && !s.sender.res
    ensures var (cs, out) := Retry(s.cs, s.sender.a, rounds);
            out == Swapped ==> Inv(s.(cs := cs, sender := Top))
  {
    hide Retry, Refs, Next, Release;
    RetryLoop(s.cs, s.sender.a, rounds);
  }

  lemma SendGiveUpKeeps(s: State, rounds: seq<Round>)
    requires Inv(s) && s.sender.Ran? && s.cs.cur == Some(s.sender.a) && !s.sender.res
    ensures var (cs, out) := Retry(s.cs, s.sender.a, rounds);
            out == GaveUp ==> Inv(s.(cs := Release(cs, CurrentOp(s)), sender := Idle))
  {
    hide Retry, Refs, Next;
    RetryLoop(s.cs, s.sender.a, rounds);
  }

  lemma SendBackKeeps(s: State, step: Step)
    requires Inv(s) && Next(s, step).Some? && step.SendBack?
    ensures Inv(Next(s, step).value)
  {
    if s.cs.cur == Some(s.sender.a) {
      if s.sender.res || (step.statusOK && CurrentOp(s).Send?) {
        SendKeptKeeps(s);
      } else {
        SendSwapKeeps(s, step.rounds);
        SendGiveUpKeeps(s, step.rounds);
      }
    }
  }

  lemma ReceiverKeeps(s: State, step: Step)
    requires Inv(s) && Next(s, step).Some?
    requires step.Receive? || step.RecvTop? || step.RecvRun? || step.RecvCommitted?
    ensures Inv(Next(s, step).value)
  {
  }

  lemma RecvRetryKeeps(s: State, rounds: seq<Round>)
    requires Inv(s) && s.receiver.Ran? && s.cs.cur == Some(s.receiver.a)
    ensures var (cs, out) := Retry(s.cs, s.receiver.a, rounds);
            !out.Undecided? ==> Inv(s.(cs := cs, receiver := if out.Swapped? then Top else Idle))
  {
    hide Retry, Refs;
    RetryLoop(s.cs, s.receiver.a, rounds);
  }

  lemma CommitKeeps(s: State)
    requires Inv(s) && s.created
    ensures Inv(s.(cs := Commit(s.cs)))
  {
    hide Refs;
  }

  lemma RecvBackKeeps(s: State, step: Step)
    requires Inv(s) && Next(s, step).Some? && step.RecvBack?
    ensures Inv(Next(s, step).value)
  {
    if s.cs.cur == Some(s.receiver.a) {
      RecvRetryKeeps(s, step.rounds);
      CommitKeeps(s);
      hide Refs, Retry;
    }
  }

  lemma FinishKeeps(s: State)
    requires Inv(s) && s.created
    ensures Inv(s.(cs := FinishStream(s.cs)))
  {
    hide Refs, Next;
  }

  lemma EndKeeps(s: State, a: nat)
    requires Inv(s)
    ensures Inv(s.(cs := Kill(s.cs, a)))
  {
    hide Refs, Next;
  }

  lemma EnvironmentKeeps(s: State, step: Step)
    requires Inv(s) && Next(s, step).Some?
    requires step.StreamEnds? || step.Cancel? || step.CommitNow? || step.FinishNow?
    ensures Inv(Next(s, step).value)
  {
    hide Refs, Commit, FinishStream, Kill;
    match step
    case StreamEnds(a) => EndKeeps(s, a);
    case CommitNow => CommitKeeps(s);
    case FinishNow => FinishKeeps(s);
    case Cancel =>
  }

  lemma NextKeeps(s: State, step: Step)
    requires Inv(s) && Next(s, step).Some?
    ensures Inv(Next(s, step).value)
  {
    match step
    case Issue(_) => IssueKeeps(s, step);
    case Close => IssueKeeps(s, step);
    case SendTop => SendTopKeeps(s, step);
    case SendRun(_) => SendRunKeeps(s, step);
    case SendCommitted(_) => SendCommittedKeeps(s, step);
    case SendBack(_, _) => SendBackKeeps(s, step);
    case Receive => ReceiverKeeps(s, step);
    case RecvTop => ReceiverKeeps(s, step);
    case RecvRun(_) => ReceiverKeeps(s, step);
    case RecvBack(_) => RecvBackKeeps(s, step);
    case RecvCommitted(_) => ReceiverKeeps(s, step);
    case StreamEnds(_) => EnvironmentKeeps(s, step);
    case Cancel => EnvironmentKeeps(s, step);
    case CommitNow => EnvironmentKeeps(s, step);
    case FinishNow => EnvironmentKeeps(s, step);
  }

  /** Every reachable state of every interleaving. */
  lemma {:induction false} ReplayIsExact(cfg: RP.Config, maxBuffer: int, steps: seq<Step>)
    requires maxBuffer >= 0
    requires Run(Init(cfg, maxBuffer), steps).Some?
    ensures Inv(Run(Init(cfg, maxBuffer), steps).value)
  {
    if steps != [] {
      ReplayIsExact(cfg, maxBuffer, steps[..|steps| - 1]);
      NextKeeps(Run(Init(cfg, maxBuffer), steps[..|steps| - 1]).value, steps[|steps| - 1]);
    }
  }

  /** Finishing commits and ends the current attempt, once; nothing else ends. */
  lemma FinishDecides(s: Stream)
    ensures var t := FinishStream(s);
            && t.finished && (s.finished ==> t == s)
            && (!s.finished ==>
                  && t.committed && t.cur == s.cur && |t.attempts| == |s.attempts|
                  && forall i {:trigger t.attempts[i]} :: 0 <= i < |t.attempts| ==>
                       t.attempts[i] == if s.cur == Some(i) then s.attempts[i].(dead := true) else s.attempts[i])
  {
    hide Refs;
  }

  /** Where an operation runs: on the committed attempt without the lock; on a new attempt if it is the first one,
      unless the call was cancelled, which ends it; and on the current attempt otherwise. */
  lemma TopDecides<T>(s: Stream)
    ensures var (t, pc) := AtTop<T>(s);
            && (pc.OnCommitted? <==> s.committed) && (s.committed ==> t == s)
            && (!s.committed && s.buffer == [] && !s.ctxDone ==>
                  && pc == Running(|s.attempts|) && t.cur == Some(|s.attempts|)
                  && t.attempts == s.attempts + [Attempt([], false)] && !t.committed && !t.finished == !s.finished)
            && (!s.committed && s.buffer == [] && s.ctxDone ==> pc.Idle? && t.finished && t.cur.None?)
            && (!s.committed && s.buffer != [] ==> t == s && pc == if s.cur.Some? then Running(s.cur.value) else Idle)
  {
    hide Refs;
  }

  /** A write that succeeds is in the log of its attempt; one that fails ends the attempt, and is an error unless it
      closes the sending side. */
  lemma ApplyDecides(s: Stream, a: nat, op: Op, ok: bool)
    requires a < |s.attempts|
    ensures var (t, res) := Apply(s, a, op, ok);
            var written := ok && !s.attempts[a].dead;
            && t == s.(attempts := s.attempts[a := t.attempts[a]])
            && t.attempts[a] == Attempt(s.attempts[a].log + (if written then [op] else []), !written)
            && (res <==> written || op.CloseSend?)
  {
  }

  /** A sending operation ends exactly if it was kept, ran on the committed attempt, found no attempt to run on, or
      the retries of its attempt gave up; it starts over exactly if its attempt was replaced, by another or by its
      own retry. */
  lemma SendDecides(s: State, step: Step)
    requires BySender(step) && Next(s, step).Some?
    ensures var t := Next(s, step).value;
            var stale := step.SendBack? && s.cs.cur != Some(s.sender.a);
            var kept := step.SendBack? && !stale && (s.sender.res || (step.statusOK && CurrentOp(s).Send?));
            var out := if step.SendBack? && !stale && !kept then Retry(s.cs, s.sender.a, step.rounds).1 else Undecided;
            && t.receiver == s.receiver && t.delivered == s.delivered
            && (t.sender.Idle? <==>
                  || kept || out == GaveUp || step.SendCommitted?
                  || (step.SendTop? && !s.cs.committed && if s.cs.buffer == [] then s.cs.ctxDone else s.cs.cur.None?))
            && (t.sender.Top? <==> stale || out == Swapped || step.Issue? || step.Close?)
            && (stale ==> t.cs == s.cs)
            && (t.created <==> s.created || kept)
  {
    hide Refs, Retry, Keep, Apply, FinishStream;
  }

  /** Likewise a receiving one. */
  lemma ReceiveDecides(s: State, step: Step)
    requires ByReceiver(step) && Next(s, step).Some?
    ensures var t := Next(s, step).value;
            var stale := step.RecvBack? && s.cs.cur != Some(s.receiver.a);
            var got := step.RecvBack? && !stale && !s.receiver.res.Failed?;
            var (cs, out) := if step.RecvBack? && !stale && !got then Retry(s.cs, s.receiver.a, step.rounds)
                             else (s.cs, Undecided);
            && t == s.(cs := t.cs, receiver := t.receiver, delivered := t.delivered)
            && (t.receiver.Idle? <==>
                  || got || out == GaveUp || step.RecvCommitted?
                  || (step.RecvTop? && !s.cs.committed && if s.cs.buffer == [] then s.cs.ctxDone else s.cs.cur.None?))
            && (t.receiver.Top? <==> stale || out == Swapped || step.Receive?)
            && (step.RecvRun? ==> t.receiver == Ran(s.receiver.a, step.res))
            && (!step.RecvTop? && !got ==> t.cs == cs)
  {
    hide Refs, Retry, FinishStream;
  }

  /** The end of a stream ends its attempt only, a cancellation is remembered, and committing and finishing leave both
      goroutines where they are. */
  lemma OutsideDecides(s: State, step: Step)
    requires !BySender(step) && !ByReceiver(step) && Next(s, step).Some?
    ensures var t := Next(s, step).value;
            var ends := step.FinishNow? && !s.cs.finished;
            && t == s.(cs := t.cs) && |t.cs.attempts| == |s.cs.attempts|
            && (t.cs.ctxDone <==> s.cs.ctxDone || step.Cancel?)
            && (t.cs.finished <==> s.cs.finished || step.FinishNow?)
            && (t.cs.committed <==> s.cs.committed || step.CommitNow? || ends)
            && forall i {:trigger t.cs.attempts[i]} :: 0 <= i < |s.cs.attempts| ==>
                 && t.cs.attempts[i].log == s.cs.attempts[i].log
                 && (t.cs.attempts[i].dead <==>
                       s.cs.attempts[i].dead || step == StreamEnds(i) || (ends && s.cs.cur == Some(i)))
  {
    hide Refs;
  }

  /** The bytes of the messages among the operations. */
  function Total(ops: seq<Op>): nat {
    if ops == [] then 0
    else
      var last := ops[|ops| - 1];
      Total(ops[..|ops| - 1]) + match last case Send(_, size) => size case _ => 0
  }

  lemma TotalMore(ops: seq<Op>, op: Op)
    ensures Total(ops + [op]) == Total(ops) + match op case Send(_, size) => size case _ => 0
  {
    assert (ops + [op])[..|ops|] == ops;
  }

  /** An operation is kept as long as the messages kept stay within the limit; the first one over it commits the
      stream.  After a commit nothing is kept. */
  lemma KeepDecides(s: Stream, op: Op)
    requires !s.committed && s.bufferSize == Total(s.buffer)
    ensures var t := Keep(s, op);
            && (t.committed <==> Total(s.buffer + [op]) > s.maxBuffer)
            && (if t.committed then t.buffer == [] else t.buffer == s.buffer + [op] && t.bufferSize == Total(t.buffer))
  {
    hide Refs;
    TotalMore(s.buffer, op);
  }

  ghost predicate Sized(s: Stream) {
    !s.committed ==> s.bufferSize == Total(s.buffer)
  }

  lemma SizedStep(s: State, step: Step)
    requires Inv(s) && Sized(s.cs) && Next(s, step).Some?
    ensures Sized(Next(s, step).value.cs)
  {
    hide Refs, Retry, Keep, Exact, BufferComplete, SingleSource, Total;
    if s.app != [] && !s.cs.committed {
      KeepDecides(s.cs, CurrentOp(s));
    }
    if step.SendBack? && s.sender.Ran? && s.cs.cur == Some(s.sender.a) {
      RetryLoop(s.cs, s.sender.a, step.rounds);
      CommittedKeep(s.cs, CurrentOp(s));
    }
    if step.RecvBack? && s.receiver.Ran? && s.cs.cur == Some(s.receiver.a) {
      RetryLoop(s.cs, s.receiver.a, step.rounds);
    }
  }

  lemma CommittedKeep(s: Stream, op: Op)
    ensures s.committed ==> Keep(s, op).committed
  {
  }

  /** Over every run, what is kept for replay stays within the limit. */
  lemma {:induction false} BufferWithinLimit(cfg: RP.Config, maxBuffer: nat, steps: seq<Step>)
    requires Run(Init(cfg, maxBuffer), steps).Some?
    ensures var cs := Run(Init(cfg, maxBuffer), steps).value.cs;
            Sized(cs) && (!cs.committed ==> Total(cs.buffer) <= maxBuffer)
  {
    hide Next, Inv, Total;
    ReplayIsExact(cfg, maxBuffer, steps);
    InvLimits(Run(Init(cfg, maxBuffer), steps).value);
    MaxBufferStays(cfg, maxBuffer, steps);
    if steps == [] {
      NothingKept();
    } else {
      var before := steps[..|steps| - 1];
      BufferWithinLimit(cfg, maxBuffer, before);
      ReplayIsExact(cfg, maxBuffer, before);
      SizedStep(Run(Init(cfg, maxBuffer), before).value, steps[|steps| - 1]);
    }
  }

  lemma NothingKept()
    ensures Total([]) == 0
  {
  }

  lemma InvLimits(s: State)
    requires Inv(s)
    ensures !s.cs.committed ==> s.cs.bufferSize <= s.cs.maxBuffer
  {
  }

  lemma {:induction false} MaxBufferStays(cfg: RP.Config, maxBuffer: nat, steps: seq<Step>)
    requires Run(Init(cfg, maxBuffer), steps).Some?
    ensures Run(Init(cfg, maxBuffer), steps).value.cs.maxBuffer == maxBuffer
  {
    hide Next;
    if steps != [] {
      var before := steps[..|steps| - 1];
      MaxBufferStays(cfg, maxBuffer, before);
      ReplayIsExact(cfg, maxBuffer, before);
      LimitStep(Run(Init(cfg, maxBuffer), before).value, steps[|steps| - 1]);
    }
  }

  lemma LimitStep(s: State, step: Step)
    requires Inv(s) && Next(s, step).Some?
    ensures Next(s, step).value.cs.maxBuffer == s.cs.maxBuffer
  {
    hide Refs, Retry, Exact, BufferComplete, SingleSource;
    if step.SendBack? && s.sender.Ran? && s.cs.cur == Some(s.sender.a) {
      RetryLoop(s.cs, s.sender.a, step.rounds);
    }
    if step.RecvBack? && s.receiver.Ran? && s.cs.cur == Some(s.receiver.a) {
      RetryLoop(s.cs, s.receiver.a, step.rounds);
    }
  }

  /** What an attempt received is delivered, once and in order, exactly if the attempt is still the current one; the
      first thing received, data or the end, commits the stream. */
  lemma ReceivedIsDelivered(s: State, step: Step)
    requires Next(s, step).Some?
    ensures var t := Next(s, step).value;
            && (step.RecvBack? && s.cs.cur == Some(s.receiver.a) && !s.receiver.res.Failed? ==> t.cs.committed)
            && t.delivered == s.delivered + (
                 match step
                 case RecvBack(_) =>
                   if s.cs.cur != Some(s.receiver.a) || !s.receiver.res.Data? then []
                   else [(s.receiver.a, s.receiver.res.value)]
                 case RecvCommitted(Data(value)) => [(s.cs.cur.value, value)]
                 case _ => [])
  {
    hide Refs, Retry, Keep;
  }

  /** Once committed, always committed: no later step of any goroutine changes the attempt or refills
      the buffer, so reading `cs.attempt` without the lock is safe. */
  lemma CommittedStep(s: State, step: Step)
    requires Inv(s) && s.cs.committed && Next(s, step).Some?
    ensures StaysCommitted(s, Next(s, step).value)
  {
    hide Next, StaysCommitted;
    if BySender(step) {
      CommittedSend(s, step);
    } else {
      CommittedOther(s, step);
    }
  }

  predicate StaysCommitted(s: State, t: State) {
    t.cs.committed && t.cs.cur == s.cs.cur && t.cs.buffer == [] && s.delivered <= t.delivered
  }

  lemma CommittedSend(s: State, step: Step)
    requires Inv(s) && s.cs.committed && Next(s, step).Some? && BySender(step)
    ensures StaysCommitted(s, Next(s, step).value)
  {
    hide BufferComplete, Exact, SingleSource, Retry, Refs, NextReceive, NextOutside;
    if step.SendBack? && s.cs.cur == Some(s.sender.a) {
      RetryLoop(s.cs, s.sender.a, step.rounds);
    }
  }

  lemma CommittedOther(s: State, step: Step)
    requires Inv(s) && s.cs.committed && Next(s, step).Some? && !BySender(step)
    ensures StaysCommitted(s, Next(s, step).value)
  {
    hide BufferComplete, Exact, SingleSource, Retry, Refs, NextSend;
    if step.RecvBack? && s.cs.cur == Some(s.receiver.a) {
      RetryLoop(s.cs, s.receiver.a, step.rounds);
    }
  }

  lemma {:induction false} CommittedIsStable(s: State, steps: seq<Step>)
    requires Inv(s) && s.cs.committed && Run(s, steps).Some?
    ensures Inv(Run(s, steps).value) && StaysCommitted(s, Run(s, steps).value)
  {
    if steps != [] {
      CommittedIsStable(s, steps[..|steps| - 1]);
      NextKeeps(Run(s, steps[..|steps| - 1]).value, steps[|steps| - 1]);
      CommittedStep(Run(s, steps[..|steps| - 1]).value, steps[|steps| - 1]);
    }
  }

  // ---------------------------------------------------------------- payload references

  function One(b: bool): nat {
    if b then 1 else 0
  }

  /** Conservation: the reference of every message issued so far is in exactly one place: released,
      held by the replay buffer, leaked, or owned by the message that is still in flight. */
  ghost predicate RefsOK(app: seq<Op>, busy: bool, buffer: seq<Op>, freed: multiset<Op>, leaked: set<Op>) {
    && (forall i :: 0 <= i < |app| && app[i].Send? ==>
          freed[app[i]] + One(app[i] in buffer) + One(app[i] in leaked) + One(busy && i == |app| - 1) == 1)
    && (forall op :: op in freed || op in leaked ==> op.Send? && op in app)
    && (forall i :: 0 <= i < |buffer| ==>
          Pos(buffer[i]) < |app| - One(busy) && app[Pos(buffer[i])] == buffer[i])
    && (forall i, j :: 0 <= i < j < |buffer| ==> Pos(buffer[i]) < Pos(buffer[j]))
  }

  ghost predicate RefsConserved(s: State) {
    RefsOK(s.app, !s.sender.Idle?, s.cs.buffer, s.cs.freed, s.cs.leaked)
  }

  lemma RefsCount(ops: seq<Op>)
    requires forall i, j :: 0 <= i < j < |ops| ==> Pos(ops[i]) < Pos(ops[j])
    ensures forall op :: Refs(ops)[op] == One(op.Send? && op in ops)
  {
    hide Pos, Refs;
    forall op ensures Refs(ops)[op] == One(op.Send? && op in ops) {
      RefsCountOne(ops, op);
    }
  }

  lemma {:induction false} RefsCountOne(ops: seq<Op>, op: Op)
    requires forall i, j :: 0 <= i < j < |ops| ==> Pos(ops[i]) < Pos(ops[j])
    ensures Refs(ops)[op] == One(op.Send? && op in ops)
  {
    hide Pos;
    if ops != [] {
      var before, last := ops[..|ops| - 1], ops[|ops| - 1];
      RefsCountOne(before, op);
      assert ops == before + [last];
      assert last !in before;
    }
  }

  lemma RefsCommit(app: seq<Op>, busy: bool, buffer: seq<Op>, freed: multiset<Op>, leaked: set<Op>)
    requires AppOrdered(app) && RefsOK(app, busy, buffer, freed, leaked)
    ensures RefsOK(app, busy, [], freed + Refs(buffer), leaked)
  {
    RefsCount(buffer);
  }

  /** The message in flight ends up in the buffer, released, or leaked. */
  lemma RefsBuffer(app: seq<Op>, buffer: seq<Op>, freed: multiset<Op>, leaked: set<Op>)
    requires AppOrdered(app) && RefsOK(app, true, buffer, freed, leaked)
    ensures RefsOK(app, false, buffer + [app[|app| - 1]], freed, leaked)
  {
    var op := app[|app| - 1];
    forall i | 0 <= i < |app|
      ensures app[i] in buffer + [op] <==> app[i] in buffer || app[i] == op
      ensures app[i] == op ==> i == |app| - 1
    {
    }
  }

  lemma RefsSettle(app: seq<Op>, buffer: seq<Op>, freed: multiset<Op>, leaked: set<Op>)
    requires AppOrdered(app) && RefsOK(app, true, buffer, freed, leaked)
    ensures var op := app[|app| - 1];
            && (op.Send? ==> RefsOK(app, false, buffer, freed + multiset{op}, leaked))
            && (op.Send? ==> RefsOK(app, false, buffer, freed, leaked + {op}))
            && (!op.Send? ==> RefsOK(app, false, buffer, freed, leaked))
  {
    var op := app[|app| - 1];
    forall i | 0 <= i < |app|
      ensures app[i] == op ==> i == |app| - 1
    {
    }
  }

  lemma RefsIssue(app: seq<Op>, buffer: seq<Op>, freed: multiset<Op>, leaked: set<Op>, op: Op)
    requires AppOrdered(app) && RefsOK(app, false, buffer, freed, leaked) && !op.NewStream? && op.id == |app|
    ensures RefsOK(app + [op], true, buffer, freed, leaked)
  {
    assert op !in app;
    forall i | 0 <= i < |app|
      ensures (app + [op])[i] == app[i]
    {
    }
  }

  lemma RefsRetry(s: State, a: nat, rounds: seq<Round>)
    requires Inv(s) && RefsConserved(s) && s.cs.cur == Some(a)
    ensures var cs := Retry(s.cs, a, rounds).0; RefsOK(s.app, !s.sender.Idle?, cs.buffer, cs.freed, cs.leaked)
  {
    RetryLoop(s.cs, a, rounds);
    RefsCommit(s.app, !s.sender.Idle?, s.cs.buffer, s.cs.freed, s.cs.leaked);
  }

  lemma RefsKeep(cs: Stream, app: seq<Op>)
    requires AppOrdered(app) && RefsOK(app, true, cs.buffer, cs.freed, cs.leaked)
    ensures var t := Keep(cs, app[|app| - 1]); RefsOK(app, false, t.buffer, t.freed, t.leaked)
    ensures var t := Release(cs, app[|app| - 1]); RefsOK(app, false, t.buffer, t.freed, t.leaked)
  {
    hide RefsOK, Refs;
    RefsBuffer(app, cs.buffer, cs.freed, cs.leaked);
    RefsSettle(app, cs.buffer, cs.freed, cs.leaked);
    RefsCommit(app, true, cs.buffer, cs.freed, cs.leaked);
    RefsSettle(app, [], cs.freed + Refs(cs.buffer), cs.leaked);
  }

  lemma RefsSendBack(s: State, step: Step)
    requires Inv(s) && RefsConserved(s) && Next(s, step).Some? && step.SendBack?
    ensures RefsConserved(Next(s, step).value)
  {
    hide RefsOK, BufferComplete, Exact, SingleSource, Retry, Keep;
    RefsKeep(s.cs, s.app);
    if s.cs.cur == Some(s.sender.a) {
      RefsRetry(s, s.sender.a, step.rounds);
      RefsKeep(Retry(s.cs, s.sender.a, step.rounds).0, s.app);
    }
  }

  lemma RefsSendTop(s: State, step: Step)
    requires Inv(s) && RefsConserved(s) && Next(s, step).Some? && (step.SendCommitted? || step.SendTop?)
    ensures RefsConserved(Next(s, step).value)
  {
    hide RefsOK, BufferComplete, Exact, SingleSource, Retry, Keep, WellFormed, Refs;
    RefsKeep(s.cs, s.app);
    if step.SendTop? {
      RefsCommit(s.app, true, s.cs.buffer, s.cs.freed, s.cs.leaked);
      RefsKeep(AtTop<bool>(s.cs).0, s.app);
    } else if s.cs.cur.Some? && s.cs.cur.value < |s.cs.attempts| {
      RefsKeep(Apply(s.cs, s.cs.cur.value, CurrentOp(s), step.ok).0, s.app);
    }
  }

  lemma RefsReceive(s: State, step: Step)
    requires Inv(s) && RefsConserved(s) && Next(s, step).Some? && step.RecvBack?
    ensures RefsConserved(Next(s, step).value)
  {
    hide RefsOK, BufferComplete, Exact, SingleSource, WellFormed, Refs, Retry, Keep;
    RefsCommit(s.app, !s.sender.Idle?, s.cs.buffer, s.cs.freed, s.cs.leaked);
    if s.cs.cur == Some(s.receiver.a) {
      RefsRetry(s, s.receiver.a, step.rounds);
    }
  }

  /** References move only by committing. */
  predicate OnlyCommits(s: State, t: State) {
    && t.app == s.app && (t.sender.Idle? <==> s.sender.Idle?) && t.cs.leaked == s.cs.leaked
    && (|| (t.cs.buffer == s.cs.buffer && t.cs.freed == s.cs.freed)
        || (t.cs.buffer == [] && t.cs.freed == s.cs.freed + Refs(s.cs.buffer)))
  }

  lemma ReceiveOnlyCommits(s: State, step: Step)
    requires Next(s, step).Some? && ByReceiver(step) && !step.RecvBack?
    ensures OnlyCommits(s, Next(s, step).value)
  {
    hide Refs, Retry, NextSend, NextOutside;
  }

  lemma OutsideOnlyCommits(s: State, step: Step)
    requires Next(s, step).Some? && !BySender(step) && !ByReceiver(step)
    ensures OnlyCommits(s, Next(s, step).value)
  {
    hide Refs, NextSend, NextReceive;
  }

  lemma RunOnlyCommits(s: State, step: Step)
    requires Next(s, step).Some? && step.SendRun?
    ensures OnlyCommits(s, Next(s, step).value)
  {
    hide Refs, Retry, Keep, NextReceive, NextOutside;
  }

  lemma RefsOther(s: State, step: Step)
    requires AppOrdered(s.app) && RefsConserved(s) && Next(s, step).Some?
    requires step.SendRun? || (!BySender(step) && !step.RecvBack?)
    ensures RefsConserved(Next(s, step).value)
  {
    hide RefsOK, Refs, Next;
    if step.SendRun? {
      RunOnlyCommits(s, step);
    } else if ByReceiver(step) {
      ReceiveOnlyCommits(s, step);
    } else {
      OutsideOnlyCommits(s, step);
    }
    RefsCommit(s.app, !s.sender.Idle?, s.cs.buffer, s.cs.freed, s.cs.leaked);
  }

  lemma RefsStep(s: State, step: Step)
    requires Inv(s) && RefsConserved(s) && Next(s, step).Some?
    ensures RefsConserved(Next(s, step).value)
  {
    hide RefsOK, BufferComplete, Exact, SingleSource, WellFormed, Refs, Retry, Keep, Commit, FinishStream, Kill, AtTop,
      Apply, Release;
    match step
    case Issue(size) => RefsIssue(s.app, s.cs.buffer, s.cs.freed, s.cs.leaked, Send(|s.app|, size));
    case Close => RefsIssue(s.app, s.cs.buffer, s.cs.freed, s.cs.leaked, CloseSend(|s.app|));
    case SendTop => RefsSendTop(s, step);
    case SendBack(_, _) => RefsSendBack(s, step);
    case SendCommitted(_) => RefsSendTop(s, step);
    case RecvBack(_) => RefsReceive(s, step);
    case _ => RefsOther(s, step);
  }

  /** The extra reference of a message is released at most once over every run, and every message the
      application issued is accounted for. */
  lemma {:induction false} ReferencesConserved(cfg: RP.Config, maxBuffer: int, steps: seq<Step>)
    requires maxBuffer >= 0
    requires Run(Init(cfg, maxBuffer), steps).Some?
    ensures var s := Run(Init(cfg, maxBuffer), steps).value;
            RefsConserved(s) && forall op :: s.cs.freed[op] <= 1
  {
    var s := Run(Init(cfg, maxBuffer), steps).value;
    ReplayIsExact(cfg, maxBuffer, steps);
    if steps != [] {
      var before := steps[..|steps| - 1];
      ReferencesConserved(cfg, maxBuffer, before);
      ReplayIsExact(cfg, maxBuffer, before);
      RefsStep(Run(Init(cfg, maxBuffer), before).value, steps[|steps| - 1]);
    }
    forall op
      ensures s.cs.freed[op] <= 1
    {
      if op in s.cs.freed {
        var i :| 0 <= i < |s.app| && s.app[i] == op;
      }
    }
  }

  lemma LatestNotLeaked(s: State)
    requires AppOrdered(s.app) && RefsConserved(s) && !s.sender.Idle? && CurrentOp(s).Send?
    ensures CurrentOp(s) !in s.cs.leaked
  {
  }

  /** It is never released exactly when the stream was committed between the write and its
      acknowledgement: that is the only step that leaks. */
  lemma LeaksExactlyOnCommitRace(s: State, step: Step)
    requires Inv(s) && RefsConserved(s) && Next(s, step).Some?
    ensures Next(s, step).value.cs.leaked != s.cs.leaked <==>
              && step.SendBack? && s.cs.committed && s.cs.cur == Some(s.sender.a)
              && CurrentOp(s).Send? && (s.sender.res || step.statusOK)
  {
    hide Next, BufferComplete, Exact, SingleSource, Retry, RefsOK;
    if step.SendBack? {
      SendBackLeaks(s, step);
    } else if step.RecvBack? {
      RecvBackLeaksNothing(s, step);
    } else if !BySender(step) {
      if ByReceiver(step) { ReceiveOnlyCommits(s, step); } else { OutsideOnlyCommits(s, step); }
    } else {
      SendLeaksNothing(s, step);
    }
  }

  lemma SendBackLeaks(s: State, step: Step)
    requires Inv(s) && RefsConserved(s) && Next(s, step).Some? && step.SendBack?
    ensures Next(s, step).value.cs.leaked != s.cs.leaked <==>
              s.cs.committed && s.cs.cur == Some(s.sender.a) && CurrentOp(s).Send? && (s.sender.res || step.statusOK)
  {
    hide BufferComplete, Exact, SingleSource, Retry, RefsOK, Refs, NextReceive, NextOutside;
    if s.cs.cur == Some(s.sender.a) {
      if CurrentOp(s).Send? {
        LatestNotLeaked(s);
      }
      RetryLoop(s.cs, s.sender.a, step.rounds);
    }
  }

  lemma RecvBackLeaksNothing(s: State, step: Step)
    requires Inv(s) && Next(s, step).Some? && step.RecvBack?
    ensures Next(s, step).value.cs.leaked == s.cs.leaked
  {
    hide BufferComplete, Exact, SingleSource, Retry, Refs, NextSend, NextOutside;
    if s.cs.cur == Some(s.receiver.a) {
      RetryLoop(s.cs, s.receiver.a, step.rounds);
    }
  }

  lemma SendLeaksNothing(s: State, step: Step)
    requires Next(s, step).Some? && BySender(step) && !step.SendBack?
    ensures Next(s, step).value.cs.leaked == s.cs.leaked
  {
    hide Retry, Refs, Keep, NextReceive, NextOutside, AtTop, Apply;
    TopLeaksNothing(s.cs);
    if step.SendRun? && s.sender.Running? && s.sender.a < |s.cs.attempts| {
      ApplyLeaksNothing(s.cs, s.sender.a, CurrentOp(s), step.ok);
    }
    if step.SendCommitted? && s.cs.cur.Some? && s.cs.cur.value < |s.cs.attempts| {
      ApplyLeaksNothing(s.cs, s.cs.cur.value, CurrentOp(s), step.ok);
    }
  }

  lemma TopLeaksNothing(cs: Stream)
    ensures AtTop<bool>(cs).0.leaked == cs.leaked
  {
    hide Refs;
  }

  lemma ApplyLeaksNothing(cs: Stream, a: nat, op: Op, ok: bool)
    requires a < |cs.attempts|
    ensures Apply(cs, a, op, ok).0.leaked == cs.leaked
  {
  }

  /** With a negative buffer limit the very first operation overruns it, and its cleanup is nil. */
  lemma NegativeLimitPanics(cfg: RP.Config, maxBuffer: int)
    requires maxBuffer < 0
    ensures exists steps :: Run(Init(cfg, maxBuffer), steps).Some? && Run(Init(cfg, maxBuffer), steps).value.cs.panicked
  {
    var s0 := Init(cfg, maxBuffer);
    var one, two, three := [SendTop], [SendTop, SendRun(true)], [SendTop, SendRun(true), SendBack(true, [])];
    assert one[..0] == [] && two[..1] == one && three[..2] == two;
    assert Run(s0, []) == Some(s0);
    assert Run(s0, one) == Next(s0, SendTop);
    assert Run(s0, two) == Next(Run(s0, one).value, SendRun(true));
    assert Run(s0, three) == Next(Run(s0, two).value, SendBack(true, []));
  }

  /** A nil cleanup can be called exactly when the limit is negative. */
  lemma PanicsExactlyBelowZero(cfg: RP.Config, maxBuffer: int)
    ensures maxBuffer < 0 <==>
              exists steps ::
                Run(Init(cfg, maxBuffer), steps).Some? && Run(Init(cfg, maxBuffer), steps).value.cs.panicked
  {
    hide Run, Threads, BufferComplete, Exact, SingleSource;
    if maxBuffer < 0 {
      NegativeLimitPanics(cfg, maxBuffer);
    } else {
      forall steps | Run(Init(cfg, maxBuffer), steps).Some?
        ensures !Run(Init(cfg, maxBuffer), steps).value.cs.panicked
      {
        ReplayIsExact(cfg, maxBuffer, steps);
      }
    }
  }

  lemma RunMore(s: State, steps: seq<Step>, step: Step)
    requires Run(s, steps).Some?
    ensures Run(s, steps + [step]) == Next(Run(s, steps).value, step)
  {
    assert (steps + [step])[..|steps|] == steps;
  }

  /** The stream is created; a message is written, and before the write is acknowledged the stream is committed. */
  function CommitRace(size: nat): seq<Step> {
    [SendTop, SendRun(true), SendBack(true, []), Issue(size), SendTop, SendRun(true), CommitNow]
  }

  /** That run leaks the message's reference, whatever the configuration, the buffer limit and the size. */
  lemma CommitRaceLeaks(cfg: RP.Config, maxBuffer: nat, size: nat)
    ensures var after := Run(Init(cfg, maxBuffer), CommitRace(size) + [SendBack(true, [])]);
            after.Some? && after.value.cs.leaked == {Send(1, size)} && !after.value.cs.panicked
  {
    hide Next;
    var s0 := Init(cfg, maxBuffer);
    var steps := CommitRace(size);
    CreatesStream(cfg, maxBuffer);
    RunMore(s0, [], SendTop);
    RunMore(s0, [SendTop], SendRun(true));
    RunMore(s0, [SendTop, SendRun(true)], SendBack(true, []));
    assert [] + [SendTop] == [SendTop] && [SendTop] + [SendRun(true)] == [SendTop, SendRun(true)];
    assert [SendTop, SendRun(true)] + [SendBack(true, [])] == steps[..3];
    assert Run(s0, steps[..3]) == Some(StreamCreated(cfg, maxBuffer));
    MessageLeaks(s0, steps[..3], cfg, maxBuffer, size);
    assert steps[..3] + [Issue(size)] + [SendTop] + [SendRun(true)] + [CommitNow] == steps;
  }

  lemma CreatesStream(cfg: RP.Config, maxBuffer: nat)
    ensures var s1 := Next(Init(cfg, maxBuffer), SendTop);
            && s1.Some? && Next(s1.value, SendRun(true)).Some?
            && Next(Next(s1.value, SendRun(true)).value, SendBack(true, [])) == Some(StreamCreated(cfg, maxBuffer))
  {
    hide Retry;
    var s1 := Next(Init(cfg, maxBuffer), SendTop).value;
    var s2 := Next(s1, SendRun(true)).value;
    assert s1.cs.attempts == [Attempt([], false)];
    assert s2.cs.attempts == [Attempt([NewStream], false)] by { assert [] + [NewStream] == [NewStream]; }
    assert Next(s2, SendBack(true, [])).value.cs.buffer == [NewStream];
  }

  function StreamCreated(cfg: RP.Config, maxBuffer: nat): State {
    State(
      Stream(cfg, maxBuffer, [Attempt([NewStream], false)], Some(0), [NewStream], 0, false, false,
          RP.Budget(0, 0, true), false, multiset{}, {}, false),
      [NewStream], true, Idle, Idle, [])
  }

  lemma MessageLeaks(s0: State, steps: seq<Step>, cfg: RP.Config, maxBuffer: nat, size: nat)
    requires Run(s0, steps) == Some(StreamCreated(cfg, maxBuffer))
    ensures var race := steps + [Issue(size)] + [SendTop] + [SendRun(true)] + [CommitNow];
            var after := Run(s0, race + [SendBack(true, [])]);
            after.Some? && after.value.cs.leaked == {Send(1, size)} && !after.value.cs.panicked
  {
    hide Retry;
    var a, b := steps + [Issue(size)], steps + [Issue(size)] + [SendTop];
    RunMore(s0, steps, Issue(size));
    RunMore(s0, a, SendTop);
    RunMore(s0, b, SendRun(true));
    RunMore(s0, b + [SendRun(true)], CommitNow);
    RunMore(s0, b + [SendRun(true)] + [CommitNow], SendBack(true, []));
  }

  /** The stream is created; a message fails on the first attempt, and the second one accepts everything. */
  function RetriedSend(size: nat, r: Round): seq<Step> {
    [SendTop, SendRun(true), SendBack(true, []), Issue(size), SendTop, SendRun(false), SendBack(false, [r]),
     SendTop, SendRun(true), SendBack(true, [])]
  }

  /** Goes through a list of steps one by one. */
  lemma RunNext(s: State, steps: seq<Step>, n: nat, before: State)
    requires n < |steps| && Run(s, steps[..n]) == Some(before)
    ensures Run(s, steps[..n + 1]) == Next(before, steps[n])
  {
    assert steps[..n + 1][..n] == steps[..n];
  }

  /** After that run the second attempt is the current one, is alive, and has seen what the application did: it
      replayed the buffer and then took the message that had failed. */
  lemma RetryReplays(cfg: RP.Config, maxBuffer: nat, size: nat, r: Round)
    requires Retryable(cfg, r) && cfg.policy.value.maxAttempts > 1 && r.accepted > 0 && size <= maxBuffer
    ensures var after := Run(Init(cfg, maxBuffer), RetriedSend(size, r));
            && after.Some? && after.value.cs.cur == Some(1)
            && after.value.cs.attempts == [Attempt([NewStream], true), Attempt([NewStream, Send(1, size)], false)]
            && after.value.cs.buffer == [NewStream, Send(1, size)]
            && after.value.sender.Idle? && !after.value.cs.committed
  {
    hide Run, Next;
    var steps := RetriedSend(size, r);
    var s0 := Init(cfg, maxBuffer);
    RunStart(s0, steps);
    CreatesStream(cfg, maxBuffer);
    RunNext(s0, steps, 0, s0);
    RunNext(s0, steps, 1, Next(s0, SendTop).value);
    RunNext(s0, steps, 2, Next(Next(s0, SendTop).value, SendRun(true)).value);
    var s3 := StreamCreated(cfg, maxBuffer);
    FailedSend(cfg, maxBuffer, size, r);
    var s4 := Next(s3, Issue(size)).value;
    RunNext(s0, steps, 3, s3);
    RunNext(s0, steps, 4, s4);
    RunNext(s0, steps, 5, Next(s4, SendTop).value);
    RunNext(s0, steps, 6, Next(Next(s4, SendTop).value, SendRun(false)).value);
    var s7 := AfterSwap(cfg, maxBuffer, size, r);
    SecondSend(cfg, maxBuffer, size, r);
    RunNext(s0, steps, 7, s7);
    RunNext(s0, steps, 8, Next(s7, SendTop).value);
    RunNext(s0, steps, 9, Next(Next(s7, SendTop).value, SendRun(true)).value);
    assert steps[..10] == steps;
  }

  lemma RunStart(s: State, steps: seq<Step>)
    ensures Run(s, steps[..0]) == Some(s)
  {
  }

  /** The stream with its second attempt in place, which has replayed the buffer. */
  function AfterSwap(cfg: RP.Config, maxBuffer: nat, size: nat, r: Round): State {
    var budget := RP.ShouldRetry(cfg, false, RP.Budget(0, 0, true), r.throttler, r.facts).1;
    State(
      Stream(cfg, maxBuffer, [Attempt([NewStream], true), Attempt([NewStream], false)], Some(1), [NewStream], 0, false,
             false, budget.(firstAttempt := false), false, multiset{}, {}, false),
      [NewStream, Send(1, size)], true, Top, Idle, [])
  }

  lemma FailedSend(cfg: RP.Config, maxBuffer: nat, size: nat, r: Round)
    requires Retryable(cfg, r) && cfg.policy.value.maxAttempts > 1 && r.accepted > 0
    ensures var s4 := Next(StreamCreated(cfg, maxBuffer), Issue(size));
            && s4.Some? && Next(s4.value, SendTop).Some? && Next(Next(s4.value, SendTop).value, SendRun(false)).Some?
            && Next(Next(Next(s4.value, SendTop).value, SendRun(false)).value, SendBack(false, [r]))
            == Some(AfterSwap(cfg, maxBuffer, size, r))
  {
    hide Refs, RP.ShouldRetry;
    var s4 := Next(StreamCreated(cfg, maxBuffer), Issue(size)).value;
    var s6 := Next(Next(s4, SendTop).value, SendRun(false)).value;
    assert s4.app == [NewStream, Send(1, size)];
    assert s6.cs.attempts == [Attempt([NewStream], true)];
    Granted(cfg, r);
    var (t, res) := RetryRound(s6.cs, 0, r);
    assert Retry(s6.cs, 0, [r]) == (t, Swapped);
    assert s6.cs.buffer[..1] == [NewStream] && NewStream in s6.cs.buffer[..1];
    assert t.attempts == [Attempt([NewStream], true), Attempt([NewStream], false)];
  }

  lemma Granted(cfg: RP.Config, r: Round)
    requires Retryable(cfg, r) && cfg.policy.value.maxAttempts > 1
    ensures RP.ShouldRetry(cfg, false, RP.Budget(0, 0, true), r.throttler, r.facts).0.ByPolicy?
  {
  }

  lemma SecondSend(cfg: RP.Config, maxBuffer: nat, size: nat, r: Round)
    requires size <= maxBuffer
    ensures var s7 := AfterSwap(cfg, maxBuffer, size, r);
            && Next(s7, SendTop).Some? && Next(Next(s7, SendTop).value, SendRun(true)).Some?
            && var after := Next(Next(Next(s7, SendTop).value, SendRun(true)).value, SendBack(true, []));
               && after.Some? && after.value.cs.cur == Some(1)
               && after.value.cs.attempts == [Attempt([NewStream], true), Attempt([NewStream, Send(1, size)], false)]
               && after.value.cs.buffer == [NewStream, Send(1, size)] && after.value.sender.Idle?
               && !after.value.cs.committed
  {
    hide Refs, RP.ShouldRetry, Retry;
    var s9 := Next(Next(AfterSwap(cfg, maxBuffer, size, r), SendTop).value, SendRun(true)).value;
    assert [NewStream] + [Send(1, size)] == [NewStream, Send(1, size)];
    assert s9.cs.attempts == [Attempt([NewStream], true), Attempt([NewStream, Send(1, size)], false)];
  }

  /** The stream is created; the first attempt fails a receive, and the second one delivers. */
  function RetriedReceive(value: int, r: Round): seq<Step> {
    [SendTop, SendRun(true), SendBack(true, []), Receive, RecvTop, RecvRun(Failed), RecvBack([r]),
     RecvTop, RecvRun(Data(value)), RecvBack([])]
  }

  /** After that run the application has the message, from the second attempt, and the stream is committed to it. */
  lemma ReceiveRetries(cfg: RP.Config, maxBuffer: nat, value: int, r: Round)
    requires Retryable(cfg, r) && cfg.policy.value.maxAttempts > 1 && r.accepted > 0
    ensures var after := Run(Init(cfg, maxBuffer), RetriedReceive(value, r));
            && after.Some? && after.value.delivered == [(1, value)] && after.value.receiver.Idle?
            && after.value.cs.cur == Some(1) && after.value.cs.committed
            && after.value.cs.attempts == [Attempt([NewStream], true), Attempt([NewStream], false)]
  {
    hide Run, Next;
    var steps := RetriedReceive(value, r);
    var s0 := Init(cfg, maxBuffer);
    RunStart(s0, steps);
    CreatesStream(cfg, maxBuffer);
    RunNext(s0, steps, 0, s0);
    RunNext(s0, steps, 1, Next(s0, SendTop).value);
    RunNext(s0, steps, 2, Next(Next(s0, SendTop).value, SendRun(true)).value);
    var s3 := StreamCreated(cfg, maxBuffer);
    FailedReceive(cfg, maxBuffer, r);
    var s4 := Next(s3, Receive).value;
    RunNext(s0, steps, 3, s3);
    RunNext(s0, steps, 4, s4);
    RunNext(s0, steps, 5, Next(s4, RecvTop).value);
    RunNext(s0, steps, 6, Next(Next(s4, RecvTop).value, RecvRun(Failed)).value);
    var s7 := Resumed(cfg, maxBuffer, r);
    SecondReceive(cfg, maxBuffer, value, r);
    RunNext(s0, steps, 7, s7);
    RunNext(s0, steps, 8, Next(s7, RecvTop).value);
    RunNext(s0, steps, 9, Next(Next(s7, RecvTop).value, RecvRun(Data(value))).value);
    assert steps[..10] == steps;
  }

  function Resumed(cfg: RP.Config, maxBuffer: nat, r: Round): State {
    AfterSwap(cfg, maxBuffer, 0, r).(app := [NewStream], sender := Idle, receiver := Top)
  }

  lemma FailedReceive(cfg: RP.Config, maxBuffer: nat, r: Round)
    requires Retryable(cfg, r) && cfg.policy.value.maxAttempts > 1 && r.accepted > 0
    ensures var s4 := Next(StreamCreated(cfg, maxBuffer), Receive);
            && s4.Some? && Next(s4.value, RecvTop).Some? && Next(Next(s4.value, RecvTop).value, RecvRun(Failed)).Some?
            && Next(Next(Next(s4.value, RecvTop).value, RecvRun(Failed)).value, RecvBack([r]))
            == Some(Resumed(cfg, maxBuffer, r))
  {
    hide Refs, RP.ShouldRetry;
    var s6 := StreamCreated(cfg, maxBuffer);
    Granted(cfg, r);
    var (t, res) := RetryRound(s6.cs, 0, r);
    assert Retry(s6.cs, 0, [r]) == (t, Swapped);
    assert s6.cs.buffer[..1] == [NewStream] && NewStream in s6.cs.buffer[..1];
    assert t.attempts == [Attempt([NewStream], true), Attempt([NewStream], false)];
  }

  lemma SecondReceive(cfg: RP.Config, maxBuffer: nat, value: int, r: Round)
    ensures var s7 := Resumed(cfg, maxBuffer, r);
            && Next(s7, RecvTop).Some? && Next(Next(s7, RecvTop).value, RecvRun(Data(value))).Some?
            && var after := Next(Next(Next(s7, RecvTop).value, RecvRun(Data(value))).value, RecvBack([]));
               && after.Some? && after.value.delivered == [(1, value)] && after.value.receiver.Idle?
               && after.value.cs.cur == Some(1) && after.value.cs.committed
               && after.value.cs.attempts == [Attempt([NewStream], true), Attempt([NewStream], false)]
  {
    hide RP.ShouldRetry, Retry;
  }
}
