/** One SubConn's connection (`addrConn` in `clientconn.go`): its state, transport and context, the goroutines
    that try its addresses, and the transports they create.  Every critical section of `ac.mu` is one step;
    steps of different goroutines come in any order. */
module SubConn {

  import opened Wrappers

  datatype Connectivity = Idle | Connecting | Ready | TransientFailure | Shutdown

  type Address = nat

  /** Where one goroutine running `resetTransportAndUnlock` is. */
  datatype Phase =
    | Trying(left: nat, failed: bool)
    | Dialing(t: nat, left: nat)
    | Dialed(t: nat)
    | Failing
    | BackingOff(gen: nat)
    | WakingUp
    | Finishing
    | Finished

  datatype Attempt = Attempt(ctx: nat, phase: Phase)

  datatype Stage = Pending | Up | Failed

  /** A transport: the goroutine that created it and the context it did so under, whether its own context `hctx` is
      cancelled, whether `onClose` has been called, and whether a health check manages the state. */
  datatype Transport = Transport(owner: nat, ctx: nat, stage: Stage, hcancelled: bool, closed: bool, managed: bool)

  /** The goroutine is dialing or backing off. */
  predicate InFlight(p: Phase) {
    !p.Finishing? && !p.Finished?
  }

  /** The transport a goroutine is creating is its own, not the installed one. */
  ghost predicate HandOK(a: Attempt, i: nat, transports: seq<Transport>, transport: Option<nat>) {
    Hand(a.phase).Some? ==>
      var t := a.phase.t;
      && t < |transports| && transports[t].owner == i && transports[t].ctx == a.ctx && transport != Some(t)
      && (transports[t].stage == if a.phase.Dialing? then Pending else Up)
  }

  ghost predicate HandsOK(attempts: seq<Attempt>, transports: seq<Transport>, transport: Option<nat>) {
    forall i {:trigger attempts[i]} :: 0 <= i < |attempts| ==> HandOK(attempts[i], i, transports, transport)
  }

  /** Every context a goroutine captured is the current one or cancelled, and one goroutine at most is at work
      under a live context. */
  ghost predicate AttemptsOK(attempts: seq<Attempt>, ctx: nat, cancelled: set<nat>, done: bool, cur: Option<nat>) {
    forall i {:trigger attempts[i]} :: 0 <= i < |attempts| ==>
      && (attempts[i].ctx == ctx || attempts[i].ctx in cancelled)
      && (InFlight(attempts[i].phase) && attempts[i].ctx !in cancelled && !done ==> cur == Some(i))
  }

  /** A live transport that has not closed is the installed one or in the hands of the goroutine at work. */
  ghost predicate TransportsOK(transports: seq<Transport>, ctx: nat, cancelled: set<nat>, done: bool,
      transport: Option<nat>, hand: Option<nat>)
  {
    forall t {:trigger transports[t]} :: 0 <= t < |transports| ==>
      && (transports[t].ctx == ctx || transports[t].ctx in cancelled)
      && (transports[t].ctx !in cancelled && !done && !transports[t].closed && !transports[t].stage.Failed? ==>
            transport == Some(t) || hand == Some(t))
  }

  /** The state that belongs to each phase of the goroutine at work. */
  predicate Matches(p: Phase, state: Connectivity) {
    match p
    case Trying(_, _) => state == Connecting
    case Dialing(_, _) => state == Connecting
    case Dialed(_) => state == Connecting
    case Failing => state == Connecting
    case BackingOff(_) => state == TransientFailure
    case WakingUp => state == TransientFailure
    case Finishing => false
    case Finished => false
  }

  /** The transport a goroutine is creating. */
  function Hand(p: Phase): Option<nat> {
    if p.Dialing? || p.Dialed? then Some(p.t) else None
  }

  /** What was reported to the balancer: no state twice in a row, nothing after Shutdown. */
  ghost predicate ReportsOK(reports: seq<Connectivity>, state: Connectivity) {
    && (if reports == [] then state == Idle else state == reports[|reports| - 1])
    && forall i {:trigger reports[i]} :: 0 < i < |reports| ==>
         reports[i] != reports[i - 1] && reports[i - 1] != Shutdown
  }

  /** The fields, as seen from outside. */
  datatype View = View(
    state: Connectivity, ctx: nat, cancelled: set<nat>, channelDone: bool, transport: Option<nat>, addrs: seq<Address>,
    backoffIdx: nat, backoffGen: nat, attempts: seq<Attempt>, transports: seq<Transport>, reports: seq<Connectivity>)

  /** The reports with a change of state, if it is one. */
  function Told(reports: seq<Connectivity>, was: Connectivity, now: Connectivity): seq<Connectivity> {
    if was == now then reports else reports + [now]
  }

  /** Goroutine `i` at phase `p`, the others where they were. */
  function Moved(attempts: seq<Attempt>, i: nat, p: Phase): seq<Attempt>
    requires i < |attempts|
  {
    attempts[i := attempts[i].(phase := p)]
  }

  class AddrConn {
    var state: Connectivity
    var ctx: nat
    var cancelled: set<nat>
    var channelDone: bool
    var transport: Option<nat>
    var addrs: seq<Address>
    var backoffIdx: nat
    var backoffGen: nat
    var attempts: seq<Attempt>
    var transports: seq<Transport>
    var reports: seq<Connectivity>

    /** The goroutine at work under a live context, if any. */
    ghost var cur: Option<nat>

    function Look(): View
      reads this
    {
      View(state, ctx, cancelled, channelDone, transport, addrs, backoffIdx, backoffGen, attempts, transports, reports)
    }

    predicate Live(c: nat)
      reads this
    {
      c !in cancelled && !channelDone
    }

    ghost predicate CurOK()
      reads this
    {
      cur.Some? ==>
        && cur.value < |attempts| && attempts[cur.value].ctx == ctx && Live(ctx) && transport.None?
        && Matches(attempts[cur.value].phase, state)
        && (attempts[cur.value].phase.BackingOff? ==> attempts[cur.value].phase.gen <= backoffGen)
        && var h := Hand(attempts[cur.value].phase);
           h.Some? && h.value < |transports| ==> (transports[h.value].hcancelled <==> transports[h.value].closed)
    }

    ghost function InHand(): Option<nat>
      reads this
    {
      if cur.Some? && cur.value < |attempts| then Hand(attempts[cur.value].phase) else None
    }

    ghost predicate StateOK()
      reads this
    {
      && (transport.Some? ==>
            && transport.value < |transports| && transports[transport.value].ctx == ctx && ctx !in cancelled
            && transports[transport.value].stage.Up? && (Live(ctx) ==> !transports[transport.value].closed))
      && (state == Shutdown <==> ctx in cancelled)
      && (state == Idle ==> transport.None? && cur.None?)
    }

    /** While the channel lives: READY has a transport; the other states are on their way to Idle or Ready, except
        that a SubConn without addresses may stay in Connecting with no attempt at work. */
    ghost predicate Settled()
      reads this
    {
      && (state == Ready && !channelDone ==> transport.Some?)
      && (cur.Some? && cur.value < |attempts| && attempts[cur.value].phase == Trying(0, false) ==> addrs == [])
      && (state == TransientFailure && transport.None? && Live(ctx) ==> cur.Some?)
      && (state == Connecting && transport.None? && Live(ctx) ==> cur.Some? || addrs == [])
    }

    ghost predicate Valid()
      reads this
    {
      Base() && Settled()
    }

    ghost predicate Base()
      reads this
    {
      && AttemptsOK(attempts, ctx, cancelled, channelDone, cur)
      && HandsOK(attempts, transports, transport)
      && TransportsOK(transports, ctx, cancelled, channelDone, transport, InHand())
      && CurOK() && StateOK() && ReportsOK(reports, state)
      && forall c :: c in cancelled ==> c <= ctx
    }

    constructor (addrs: seq<Address>)
      ensures Valid() && Look() == Init(addrs)
      ensures state == Idle && this.addrs == addrs && !channelDone && cancelled == {} && transport.None?
      ensures attempts == [] && transports == [] && reports == [] && backoffIdx == 0
    {
      this.addrs := addrs;
      state, ctx, cancelled, channelDone, transport := Idle, 0, {}, false, None;
      backoffIdx, backoffGen, attempts, transports, reports, cur := 0, 0, [], [], [], None;
    }

    /** Reports a change to the balancer; nothing when the state stays. */
    method SetState(s: Connectivity)
      requires ReportsOK(reports, state) && (state == Shutdown ==> s == Shutdown)
      modifies this`state, this`reports
      ensures state == s && ReportsOK(reports, state)
      ensures reports == Told(old(reports), old(state), s)
    {
      if state == s {
        return;
      }
      state := s;
      reports := reports + [s];
    }

    /** The first critical section of `resetTransportAndUnlock`. */
    method ResetTransport()
      requires Base() && cur.None? && transport.None? && state != Shutdown
      modifies this`state, this`reports, this`attempts, this`cur
      ensures Valid() && reports == Told(old(reports), old(state), state)
      ensures !Live(ctx) ==> state == old(state) && attempts == old(attempts)
      ensures Live(ctx) ==> state == Connecting && attempts == old(attempts) + [Attempt(ctx, Trying(|addrs|, false))]
    {
      if !Live(ctx) {
        return;
      }
      SetState(Connecting);
      attempts := attempts + [Attempt(ctx, Trying(|addrs|, false))];
      cur := Some(|attempts| - 1);
    }

    /** Starts an attempt from Idle; ignored in every other state. */
    method Connect()
      requires Valid()
      modifies this`state, this`reports, this`attempts, this`cur
      ensures Valid() && reports == Told(old(reports), old(state), state)
      ensures old(state) != Idle || !Live(ctx) ==> state == old(state) && attempts == old(attempts)
      ensures old(state) == Idle && Live(ctx) ==>
                state == Connecting && attempts == old(attempts) + [Attempt(ctx, Trying(|addrs|, false))]
    {
      if state != Idle {
        return;
      }
      ResetTransport();
    }

    /** Cancels the context for a new one and lets go of the transport. */
    method Abandon()
      requires Base() && state != Shutdown && state != Idle
      modifies this`cancelled, this`ctx, this`cur, this`transport
      ensures Base() && cur.None? && transport.None? && ctx == old(ctx) + 1 && cancelled == old(cancelled) + {old(ctx)}
    {
      cancelled := cancelled + {ctx};
      ctx := ctx + 1;
      cur := None;
      transport := None;
    }

    /** New addresses.  `found` tells whether the connected address is among them.  A connection or attempt
        that no longer fits is given up for a new attempt under a new context. */
    method UpdateAddrs(newAddrs: seq<Address>, found: bool)
      requires Valid()
      modifies this`addrs, this`state, this`reports, this`attempts, this`cur, this`ctx, this`cancelled, this`transport
      ensures Valid() && addrs == newAddrs
      ensures var restart := newAddrs != old(addrs) && (old(state) == Connecting || (old(state) == Ready && !found));
              if !restart then
                state == old(state) && ctx == old(ctx) && cancelled == old(cancelled) && transport == old(transport) &&
                    attempts == old(attempts)
              else
                && ctx == old(ctx) + 1 && cancelled == old(cancelled) + {old(ctx)} && transport.None?
                && (!channelDone ==>
                      state == Connecting && attempts == old(attempts) + [Attempt(ctx, Trying(|addrs|, false))])
                && (channelDone ==> state == (if newAddrs == [] then Idle else old(state)) && attempts == old(attempts))
      ensures var restart := newAddrs != old(addrs) && (old(state) == Connecting || (old(state) == Ready && !found));
              reports == if restart && newAddrs == [] then Told(Told(old(reports), old(state), Idle), Idle, state)
                         else Told(old(reports), old(state), state)
    {
      hide AttemptsOK, HandsOK, TransportsOK;
      if addrs == newAddrs {
        return;
      }
      addrs := newAddrs;
      if state == Shutdown || state == TransientFailure || state == Idle {
        return;
      }
      if state == Ready && found {
        return;
      }
      Abandon();
      if newAddrs == [] {
        SetState(Idle);
      }
      ResetTransport();
    }

    // -------------------------------------------------------------- one goroutine's steps

    method MoveTo(i: nat, p: Phase)
      requires i < |attempts|
      modifies this`attempts
      ensures attempts == Moved(old(attempts), i, p)
    {
      attempts := attempts[i := attempts[i].(phase := p)];
    }

    /** The loop over the addresses: the next one, or the end. */
    method TryNext(i: nat)
      requires Valid() && i < |attempts| && attempts[i].phase.Trying?
      modifies this`attempts, this`transports, this`cur
      ensures Valid()
      ensures var a := old(attempts)[i];
              if a.phase.left == 0 || !Live(a.ctx) then
                && transports == old(transports)
                && var next := if a.phase.left == 0 && !a.phase.failed then Finishing else Failing;
                   attempts == Moved(old(attempts), i, next)
              else
                && attempts == Moved(old(attempts), i, Dialing(|old(transports)|, a.phase.left - 1))
                && transports == old(transports) + [Transport(i, a.ctx, Pending, false, false, false)]
    {
      var a := attempts[i];
      if a.phase.left == 0 {
        EndOfList(i);
      } else if !Live(a.ctx) {
        hide ReportsOK;
        MoveTo(i, Failing);
      } else {
        StartDial(i);
      }
    }

    method EndOfList(i: nat)
      requires Valid() && i < |attempts| && attempts[i].phase.Trying? && attempts[i].phase.left == 0
      modifies this`attempts, this`cur
      ensures Valid()
      ensures attempts == Moved(old(attempts), i, if old(attempts)[i].phase.failed then Failing else Finishing)
    {
      var failed := attempts[i].phase.failed;
      MoveTo(i, if failed then Failing else Finishing);
      if cur == Some(i) && !failed {
        cur := None;
      }
    }

    method StartDial(i: nat)
      requires Valid() && i < |attempts| && attempts[i].phase.Trying? && attempts[i].phase.left > 0 &&
                 Live(attempts[i].ctx)
      modifies this`attempts, this`transports
      ensures Valid()
      ensures attempts == Moved(old(attempts), i, Dialing(|old(transports)|, old(attempts)[i].phase.left - 1))
      ensures transports == old(transports) + [Transport(i, old(attempts)[i].ctx, Pending, false, false, false)]
    {
      var a := attempts[i];
      transports := transports + [Transport(i, a.ctx, Pending, false, false, false)];
      MoveTo(i, Dialing(|transports| - 1, a.phase.left - 1));
    }

    /** The transport could not be created; if it called `onClose`, it did so before. */
    method DialFails(i: nat)
      requires Valid() && i < |attempts| && attempts[i].phase.Dialing?
      modifies this`attempts, this`transports
      ensures Valid() && attempts == Moved(old(attempts), i, Trying(old(attempts)[i].phase.left, true))
      ensures var t := old(attempts)[i].phase.t;
              && t < |old(transports)|
              && transports == old(transports)[t := old(transports)[t].(stage := Failed, hcancelled := true)]
    {
      var p := attempts[i].phase;
      transports := transports[p.t := transports[p.t].(stage := Failed, hcancelled := true)];
      MoveTo(i, Trying(p.left, true));
    }

    method DialSucceeds(i: nat)
      requires Valid() && i < |attempts| && attempts[i].phase.Dialing?
      modifies this`attempts, this`transports
      ensures Valid() && attempts == Moved(old(attempts), i, Dialed(old(attempts)[i].phase.t))
      ensures var t := old(attempts)[i].phase.t;
              t < |old(transports)| && transports == old(transports)[t := old(transports)[t].(stage := Up)]
    {
      var p := attempts[i].phase;
      transports := transports[p.t := transports[p.t].(stage := Up)];
      MoveTo(i, Dialed(p.t));
    }

    /** The end of `createTransport`.  `managed` tells whether a health check takes over the state.  Under a
        cancelled context the new transport is closed instead, which calls `onClose` inline. */
    method Install(i: nat, managed: bool)
      requires Valid() && i < |attempts| && attempts[i].phase.Dialed?
      modifies this`attempts, this`transports, this`transport, this`cur, this`state, this`reports
      ensures Valid() && attempts == Moved(old(attempts), i, Finishing) &&
                reports == Told(old(reports), old(state), state)
      ensures var t := old(attempts)[i].phase.t;
              && t < |old(transports)|
              && var tr := old(transports)[t];
                 if !Live(old(attempts)[i].ctx) then
                   state == old(state) && transport == old(transport) &&
                       transports == old(transports)[t := tr.(closed := true)]
                 else if tr.closed then
                   state == Idle && transport.None? && transport == old(transport) && transports == old(transports)
                 else
                   && transport == Some(t) && state == (if managed then old(state) else Ready)
                   && transports == old(transports)[t := tr.(managed := managed)]
    {
      var a := attempts[i];
      var t := a.phase.t;
      hide ReportsOK;
      if !Live(a.ctx) {
        CloseUnused(i);
      } else if transports[t].hcancelled {
        MoveTo(i, Finishing);
        cur := None;
        SetState(Idle);
      } else {
        InstallOpen(i, managed);
      }
    }

    method InstallOpen(i: nat, managed: bool)
      requires Valid() && i < |attempts| && attempts[i].phase.Dialed? && Live(attempts[i].ctx)
      requires var t := attempts[i].phase.t; t < |transports| && !transports[t].hcancelled
      modifies this`attempts, this`transports, this`transport, this`cur, this`state, this`reports
      ensures Valid() && attempts == Moved(old(attempts), i, Finishing) &&
                reports == Told(old(reports), old(state), state)
      ensures var t := old(attempts)[i].phase.t;
              && transport == Some(t) && state == (if managed then old(state) else Ready)
              && transports == old(transports)[t := old(transports)[t].(managed := managed)] &&
                   !old(transports)[t].closed
    {
      hide ReportsOK;
      var t := attempts[i].phase.t;
      MoveTo(i, Finishing);
      cur := None;
      transport := Some(t);
      transports := transports[t := transports[t].(managed := managed)];
      if !managed {
        SetState(Ready);
      }
    }

    method CloseUnused(i: nat)
      requires Valid() && i < |attempts| && attempts[i].phase.Dialed? && !Live(attempts[i].ctx)
      modifies this`attempts, this`transports
      ensures Valid() && attempts == Moved(old(attempts), i, Finishing)
      ensures var t := old(attempts)[i].phase.t;
              t < |old(transports)| && transports == old(transports)[t := old(transports)[t].(closed := true)]
    {
      var t := attempts[i].phase.t;
      transports := transports[t := transports[t].(closed := true)];
      MoveTo(i, Finishing);
    }

    /** All addresses failed: wait, unless the attempt was cancelled. */
    method AfterFailure(i: nat)
      requires Valid() && i < |attempts| && attempts[i].phase.Failing?
      modifies this`attempts, this`state, this`reports
      ensures Valid() && var live := Live(old(attempts)[i].ctx);
                         && attempts == Moved(old(attempts), i, if live then BackingOff(backoffGen) else Finished)
                         && state == (if live then TransientFailure else old(state))
      ensures reports == Told(old(reports), old(state), state)
    {
      if !Live(attempts[i].ctx) {
        MoveTo(i, Finished);
        return;
      }
      MoveTo(i, BackingOff(backoffGen));
      SetState(TransientFailure);
    }

    /** The wait ends: by the timer, by a reset of the backoff, or because the attempt was cancelled. */
    method Wake(i: nat, timer: bool)
      requires Valid() && i < |attempts| && attempts[i].phase.BackingOff?
      requires timer || attempts[i].phase.gen != backoffGen || !Live(attempts[i].ctx)
      modifies this`attempts, this`backoffIdx
      ensures Valid() && backoffIdx == old(backoffIdx) + if timer then 1 else 0
      ensures var next := if timer || old(attempts)[i].phase.gen != backoffGen then WakingUp else Finished;
              attempts == Moved(old(attempts), i, next)
    {
      hide TransportsOK, ReportsOK;
      if timer {
        backoffIdx := backoffIdx + 1;
        MoveTo(i, WakingUp);
      } else if attempts[i].phase.gen != backoffGen {
        MoveTo(i, WakingUp);
      } else {
        MoveTo(i, Finished);
      }
    }

    method GoIdle(i: nat)
      requires Valid() && i < |attempts| && attempts[i].phase.WakingUp?
      modifies this`attempts, this`cur, this`state, this`reports
      ensures Valid() && attempts == Moved(old(attempts), i, Finished)
      ensures state == (if Live(old(attempts)[i].ctx) then Idle else old(state)) &&
                reports == Told(old(reports), old(state), state)
    {
      var live := Live(attempts[i].ctx);
      MoveTo(i, Finished);
      if live {
        cur := None;
        SetState(Idle);
      }
    }

    method Finish(i: nat)
      requires Valid() && i < |attempts| && attempts[i].phase.Finishing?
      modifies this`attempts, this`backoffIdx
      ensures Valid() && attempts == Moved(old(attempts), i, Finished) && backoffIdx == 0
    {
      backoffIdx := 0;
      MoveTo(i, Finished);
    }

    // -------------------------------------------------------------- what comes from outside

    /** A transport closes, once.  It takes down the connection exactly when it is the installed one and its
        context is live; no other transport is ever dropped. */
    method OnClose(t: nat)
      requires Valid() && t < |transports| && !transports[t].closed && !transports[t].stage.Failed?
      modifies this`transports, this`transport, this`state, this`reports
      ensures Valid()
      ensures var tr := old(transports)[t];
              && transports == old(transports)[t := tr.(closed := true, hcancelled := tr.hcancelled || Live(tr.ctx))]
              && if old(transport) == Some(t) && Live(tr.ctx) then transport.None? && state == Idle
                 else transport == old(transport) && state == old(state)
      ensures reports == Told(old(reports), old(state), state)
    {
      hide ReportsOK;
      var live := Live(transports[t].ctx);
      transports := transports[t := transports[t].(closed := true, hcancelled := transports[t].hcancelled || live)];
      if !live || transport.None? {
        return;
      }
      transport := None;
      SetState(Idle);
    }

    /** The health check of transport `t` reports; ignored once that transport is not the current one. */
    method SetConnectivityState(t: nat, s: Connectivity)
      requires Valid() && t < |transports| && transports[t].managed && s in {Connecting, Ready, TransientFailure}
      modifies this`state, this`reports
      ensures Valid()
      ensures state == (if transport == Some(t) then s else old(state)) &&
                reports == Told(old(reports), old(state), state)
    {
      if transport == Some(t) {
        SetState(s);
      }
    }

    method ResetConnectBackoff()
      requires Valid()
      modifies this`backoffIdx, this`backoffGen
      ensures Valid() && backoffIdx == 0 && backoffGen == old(backoffGen) + 1
    {
      backoffGen := backoffGen + 1;
      backoffIdx := 0;
    }

    /** The SubConn is shut down; the transport that was installed is left to be closed. */
    method TearDown() returns (closing: Option<nat>)
      requires Valid()
      modifies this`transport, this`state, this`reports, this`cancelled, this`cur
      ensures Valid() && state == Shutdown && transport.None? && closing == old(transport)
      ensures cancelled == old(cancelled) + {ctx} && reports == Told(old(reports), old(state), state)
    {
      closing := transport;
      if state == Shutdown {
        return;
      }
      transport := None;
      SetState(Shutdown);
      cancelled := cancelled + {ctx};
      cur := None;
    }

    method GetReadyTransport() returns (t: Option<nat>)
      requires Valid()
      ensures t.Some? ==> state == Ready && t == transport && t.value < |transports| && transports[t.value].stage.Up?
      ensures state == Ready && !channelDone ==> t.Some? && !transports[t.value].closed
    {
      t := if state == Ready then transport else None;
    }

    /** The channel's context ends; every context derived from it is cancelled. */
    method EndChannel()
      requires Valid()
      modifies this`channelDone, this`cur
      ensures Valid() && channelDone
    {
      channelDone := true;
      cur := None;
    }
  }

  // ---------------------------------------------------------------- every run

  datatype Step =
    | DoConnect
    | DoUpdateAddrs(addrs: seq<Address>, found: bool)
    | DoTearDown
    | DoResetBackoff
    | DoEndChannel
    | Closes(t: nat)
    | HealthReports(t: nat, s: Connectivity)
    | DialOutcome(i: nat, ok: bool)
    | Advances(i: nat, choice: bool)

  // ---------------------------------------------------------------- the steps as functions

  function Init(addrs: seq<Address>): View {
    View(Idle, 0, {}, false, None, addrs, 0, 0, [], [], [])
  }

  predicate LiveIn(v: View, c: nat) {
    c !in v.cancelled && !v.channelDone
  }

  function SetTo(v: View, s: Connectivity): View {
    v.(state := s, reports := Told(v.reports, v.state, s))
  }

  function NextReset(v: View): View {
    if !LiveIn(v, v.ctx) then v
    else SetTo(v, Connecting).(attempts := v.attempts + [Attempt(v.ctx, Trying(|v.addrs|, false))])
  }

  /** A connection or attempt is given up when the addresses change, unless it still fits. */
  predicate Restarts(v: View, addrs: seq<Address>, found: bool) {
    addrs != v.addrs && (v.state == Connecting || (v.state == Ready && !found))
  }

  function NextUpdateAddrs(v: View, addrs: seq<Address>, found: bool): View {
    if !Restarts(v, addrs, found) then v.(addrs := addrs)
    else
      var given := v.(addrs := addrs, ctx := v.ctx + 1, cancelled := v.cancelled + {v.ctx}, transport := None);
      NextReset(if addrs == [] then SetTo(given, Idle) else given)
  }

  function MoveIn(v: View, i: nat, p: Phase): View
    requires i < |v.attempts|
  {
    v.(attempts := Moved(v.attempts, i, p))
  }

  function NextInstall(v: View, i: nat, managed: bool): View
    requires i < |v.attempts| && v.attempts[i].phase.Dialed? && v.attempts[i].phase.t < |v.transports|
  {
    var t := v.attempts[i].phase.t;
    var done := MoveIn(v, i, Finishing);
    if !LiveIn(v, v.attempts[i].ctx) then done.(transports := v.transports[t := v.transports[t].(closed := true)])
    else if v.transports[t].closed then SetTo(done, Idle)
    else
      var up := done.(transport := Some(t), transports := v.transports[t := v.transports[t].(managed := managed)]);
      if managed then up else SetTo(up, Ready)
  }

  /** The next critical section of goroutine `i`. */
  function NextAdvance(v: View, i: nat, choice: bool): View {
    if i >= |v.attempts| then v
    else
      var live := LiveIn(v, v.attempts[i].ctx);
      match v.attempts[i].phase
      case Trying(left, failed) =>
        if left == 0 || !live then MoveIn(v, i, if left == 0 && !failed then Finishing else Failing)
        else
          MoveIn(v, i, Dialing(|v.transports|, left - 1)).(
          transports := v.transports + [Transport(i, v.attempts[i].ctx, Pending, false, false, false)])
      case Dialing(_, _) => v
      case Dialed(t) => if t < |v.transports| then NextInstall(v, i, choice) else v
      case Failing =>
        if live then SetTo(MoveIn(v, i, BackingOff(v.backoffGen)), TransientFailure) else MoveIn(v, i, Finished)
      case BackingOff(gen) =>
        if choice then MoveIn(v, i, WakingUp).(backoffIdx := v.backoffIdx + 1)
        else if gen != v.backoffGen then MoveIn(v, i, WakingUp)
        else if !live then MoveIn(v, i, Finished)
        else v
      case WakingUp => if live then SetTo(MoveIn(v, i, Finished), Idle) else MoveIn(v, i, Finished)
      case Finishing => MoveIn(v, i, Finished).(backoffIdx := 0)
      case Finished => v
  }

  function NextDial(v: View, i: nat, ok: bool): View {
    if i < |v.attempts| && v.attempts[i].phase.Dialing? && v.attempts[i].phase.t < |v.transports| then
      var p := v.attempts[i].phase;
      if ok then MoveIn(v, i, Dialed(p.t)).(transports := v.transports[p.t := v.transports[p.t].(stage := Up)])
      else
        MoveIn(v, i, Trying(p.left, true)).(
        transports := v.transports[p.t := v.transports[p.t].(stage := Failed, hcancelled := true)])
    else v
  }

  function NextClose(v: View, t: nat): View {
    if t < |v.transports| && !v.transports[t].closed && !v.transports[t].stage.Failed? then
      var tr := v.transports[t];
      var tr' := tr.(closed := true, hcancelled := tr.hcancelled || LiveIn(v, tr.ctx));
      var closed := v.(transports := v.transports[t := tr']);
      if v.transport == Some(t) && LiveIn(v, tr.ctx) then SetTo(closed.(transport := None), Idle) else closed
    else v
  }

  function Next(v: View, step: Step): View {
    match step
    case DoConnect => if v.state == Idle then NextReset(v) else v
    case DoUpdateAddrs(addrs, found) => NextUpdateAddrs(v, addrs, found)
    case DoTearDown => SetTo(v, Shutdown).(transport := None, cancelled := v.cancelled + {v.ctx})
    case DoResetBackoff => v.(backoffIdx := 0, backoffGen := v.backoffGen + 1)
    case DoEndChannel => v.(channelDone := true)
    case Closes(t) => NextClose(v, t)
    case HealthReports(t, s) =>
      if t < |v.transports| && v.transports[t].managed && s in {Connecting, Ready, TransientFailure} &&
          v.transport == Some(t)
      then SetTo(v, s) else v
    case DialOutcome(i, ok) => NextDial(v, i, ok)
    case Advances(i, choice) => NextAdvance(v, i, choice)
  }

  function Run(v: View, steps: seq<Step>): View {
    if steps == [] then v else Next(Run(v, steps[..|steps| - 1]), steps[|steps| - 1])
  }

  /** One step of the object is that function of its fields; a step that cannot be taken changes nothing. */
  method Perform(ac: AddrConn, step: Step)
    requires ac.Valid()
    modifies ac
    ensures ac.Valid() && ac.Look() == Next(old(ac.Look()), step)
  {
    hide AddrConn.Valid, NextAdvance, NextUpdateAddrs, NextClose;
    match step {
      case DoConnect => ac.Connect();
      case DoUpdateAddrs(addrs, found) => UpdateAddrsStep(ac, addrs, found);
      case DoTearDown => var closing := ac.TearDown();
      case DoResetBackoff => ac.ResetConnectBackoff();
      case DoEndChannel => ac.EndChannel();
      case Closes(t) =>
        CloseStep(ac, t);
      case HealthReports(t, s) =>
        if t < |ac.transports| && ac.transports[t].managed && s in {Connecting, Ready, TransientFailure} {
          ac.SetConnectivityState(t, s);
        }
      case DialOutcome(i, ok) =>
        if i < |ac.attempts| && ac.attempts[i].phase.Dialing? {
          if ok { ac.DialSucceeds(i); } else { ac.DialFails(i); }
        }
      case Advances(i, choice) => Advance(ac, i, choice);
    }
  }

  method UpdateAddrsStep(ac: AddrConn, addrs: seq<Address>, found: bool)
    requires ac.Valid()
    modifies ac
    ensures ac.Valid() && ac.Look() == NextUpdateAddrs(old(ac.Look()), addrs, found)
  {
    hide AttemptsOK, HandsOK, TransportsOK, ReportsOK, AddrConn.CurOK, AddrConn.Settled;
    ac.UpdateAddrs(addrs, found);
  }

  method CloseStep(ac: AddrConn, t: nat)
    requires ac.Valid()
    modifies ac
    ensures ac.Valid() && ac.Look() == NextClose(old(ac.Look()), t)
  {
    hide AddrConn.Valid;
    if t < |ac.transports| && !ac.transports[t].closed && !ac.transports[t].stage.Failed? {
      ac.OnClose(t);
    }
  }

  method InstallStep(ac: AddrConn, i: nat, managed: bool)
    requires ac.Valid() && i < |ac.attempts| && ac.attempts[i].phase.Dialed?
    modifies ac
    ensures ac.Valid() && old(ac.attempts[i].phase.t) < |old(ac.transports)|
    ensures ac.Look() == NextInstall(old(ac.Look()), i, managed)
  {
    hide AddrConn.Valid;
    ac.Install(i, managed);
  }

  method Advance(ac: AddrConn, i: nat, choice: bool)
    requires ac.Valid()
    modifies ac
    ensures ac.Valid() && ac.Look() == NextAdvance(old(ac.Look()), i, choice)
  {
    hide AddrConn.Valid, NextInstall;
    if i >= |ac.attempts| {
      return;
    }
    match ac.attempts[i].phase {
      case Trying(_, _) => ac.TryNext(i);
      case Dialing(_, _) =>
      case Dialed(_) => InstallStep(ac, i, choice);
      case Failing => ac.AfterFailure(i);
      case BackingOff(gen) =>
        if choice || gen != ac.backoffGen || !ac.Live(ac.attempts[i].ctx) { ac.Wake(i, choice); }
      case WakingUp => ac.GoIdle(i);
      case Finishing => ac.Finish(i);
      case Finished =>
    }
  }

  /** Goroutine `i` is dialing or waiting under a live context. */
  predicate AtWork(v: View, i: nat) {
    i < |v.attempts| && InFlight(v.attempts[i].phase) && v.attempts[i].ctx !in v.cancelled && !v.channelDone
  }

  ghost predicate OneAtWork(v: View) {
    forall i, j :: AtWork(v, i) && AtWork(v, j) ==> i == j
  }

  ghost predicate ContextsOK(v: View) {
    forall i :: 0 <= i < |v.attempts| ==> v.attempts[i].ctx == v.ctx || v.attempts[i].ctx in v.cancelled
  }

  predicate ReadyOK(v: View) {
    v.state == Ready && !v.channelDone ==>
      v.transport.Some? && v.transport.value < |v.transports| && v.transports[v.transport.value].stage.Up? &&
          !v.transports[v.transport.value].closed
  }

  /** Connecting, with nobody at work and no transport. */
  ghost predicate Stuck(v: View) {
    v.state == Connecting && v.transport.None? && !v.channelDone && forall i :: !AtWork(v, i)
  }

  /** One goroutine at most dials or waits under a live context, captured contexts are current or cancelled, READY
      has an open transport while the channel lives, nothing follows Shutdown, Idle means that nothing is under way,
      and only a SubConn without addresses can be stuck. */
  ghost predicate Safe(v: View) {
    && OneAtWork(v) && ContextsOK(v) && ReadyOK(v) && ReportsOK(v.reports, v.state)
    && (v.state == Idle ==> v.transport.None? && forall i :: !AtWork(v, i))
    && (Stuck(v) ==> v.addrs == [])
    && Renewed(v) && Pursued(v)
  }

  /** The goroutine has an address left, unless there are none, and the transport it creates is there. */
  predicate Ongoing(v: View, i: nat)
    requires i < |v.attempts|
  {
    var p := v.attempts[i].phase;
    (p == Trying(0, false) ==> v.addrs == []) && (Hand(p).Some? ==> Hand(p).value < |v.transports|)
  }

  /** The current context is cancelled exactly in Shutdown, and TRANSIENT_FAILURE without a transport is being left. */
  ghost predicate Pursued(v: View) {
    && (v.state == Shutdown <==> v.ctx in v.cancelled)
    && (v.state == TransientFailure && v.transport.None? && LiveIn(v, v.ctx) ==> exists i :: AtWork(v, i))
    && forall i :: AtWork(v, i) ==> Ongoing(v, i)
  }

  /** No context was cancelled before it was made. */
  ghost predicate Renewed(v: View) {
    forall c :: c in v.cancelled ==> c <= v.ctx
  }

  lemma ValidIsSafe(ac: AddrConn)
    requires ac.Valid()
    ensures Safe(ac.Look())
  {
    var v := ac.Look();
    if ac.cur.Some? {
      assert AtWork(v, ac.cur.value);
    }
  }

  /** Every state that any interleaving of any steps leads to is safe. */
  method AnyRun(addrs: seq<Address>, steps: seq<Step>) returns (v: View)
    ensures v == Run(Init(addrs), steps) && Safe(v)
  {
    hide Next, Safe, AddrConn.Base, AddrConn.Settled;
    var ac := new AddrConn(addrs);
    for k := 0 to |steps|
      invariant fresh(ac) && ac.Valid() && ac.Look() == Run(Init(addrs), steps[..k])
    {
      assert steps[..k + 1][..k] == steps[..k];
      Perform(ac, steps[k]);
    }
    assert steps[..|steps|] == steps;
    ValidIsSafe(ac);
    v := ac.Look();
  }

  // ---------------------------------------------------------------- stuck without addresses

  lemma RunOne(v: View, steps: seq<Step>, step: Step)
    ensures Run(v, []) == v && Run(v, steps + [step]) == Next(Run(v, steps), step)
  {
    assert (steps + [step])[..|steps|] == steps;
  }

  /** From every Idle state without addresses, connecting leads to a stuck one as soon as the new attempt moves on. */
  lemma ConnectingWithoutAddressesSticks(v: View, choice: bool)
    requires Safe(v) && v.state == Idle && LiveIn(v, v.ctx) && v.addrs == []
    ensures Stuck(Run(v, [DoConnect, Advances(|v.attempts|, choice)]))
  {
    var w := Next(v, DoConnect);
    RunOne(v, [], DoConnect);
    RunOne(v, [DoConnect], Advances(|v.attempts|, choice));
    assert [] + [DoConnect] == [DoConnect] &&
        [DoConnect] + [Advances(|v.attempts|, choice)] == [DoConnect, Advances(|v.attempts|, choice)];
    var u := Next(w, Advances(|v.attempts|, choice));
    assert u.attempts == v.attempts + [Attempt(v.ctx, Finishing)];
    forall i: nat
      ensures !AtWork(u, i)
    {
      assert !AtWork(v, i);
    }
  }

  /** The steps that end being stuck: other addresses, a teardown, the end of the channel. */
  predicate Frees(v: View, step: Step) {
    step.DoTearDown? || step.DoEndChannel? || (step.DoUpdateAddrs? && step.addrs != v.addrs)
  }

  /** Only transports and phases of goroutines that are not at work differ. */
  ghost predicate Quiet(v: View, w: View) {
    && w.state == v.state && w.transport == v.transport && w.channelDone == v.channelDone
    && w.addrs == v.addrs && w.ctx == v.ctx && w.cancelled == v.cancelled
    && forall i :: AtWork(w, i) ==> AtWork(v, i)
  }

  lemma IdlersAreQuiet(v: View, i: nat, choice: bool)
    requires !AtWork(v, i)
    ensures Quiet(v, NextAdvance(v, i, choice)) && Quiet(v, NextDial(v, i, choice))
  {
    QuietExceptAt(v, NextAdvance(v, i, choice), i);
    QuietExceptAt(v, NextDial(v, i, choice), i);
  }

  lemma QuietExceptAt(v: View, w: View, i: nat)
    requires w.state == v.state && w.transport == v.transport && w.channelDone == v.channelDone
    requires w.addrs == v.addrs && w.ctx == v.ctx && w.cancelled == v.cancelled
    requires |w.attempts| == |v.attempts| && forall j :: 0 <= j < |v.attempts| && j != i ==>
               w.attempts[j] == v.attempts[j]
    requires !AtWork(w, i)
    ensures Quiet(v, w)
  {
  }

  /** A stuck SubConn stays stuck on every step but these, and on none of these. */
  lemma StuckExactly(v: View, step: Step)
    requires Stuck(v) && Renewed(v)
    ensures Stuck(Next(v, step)) <==> !Frees(v, step)
    ensures !Frees(v, step) ==> Next(v, step).addrs == v.addrs && Renewed(Next(v, step))
  {
    hide NextAdvance, NextDial;
    var w := Next(v, step);
    if step.DoUpdateAddrs? && step.addrs != v.addrs {
      assert AtWork(w, |v.attempts|);
    } else if step.Advances? {
      IdlersAreQuiet(v, step.i, step.choice);
    } else if step.DialOutcome? {
      IdlersAreQuiet(v, step.i, step.ok);
    } else if !Frees(v, step) {
      assert w.attempts == v.attempts;
      assert forall i :: AtWork(w, i) ==> AtWork(v, i);
    }
  }

  lemma {:induction false} StuckForGood(v: View, steps: seq<Step>)
    requires Stuck(v) && Renewed(v) && forall k :: 0 <= k < |steps| ==> !Frees(v, steps[k])
    ensures Stuck(Run(v, steps)) && Run(v, steps).addrs == v.addrs && Renewed(Run(v, steps))
  {
    if steps != [] {
      StuckForGood(v, steps[..|steps| - 1]);
      StuckExactly(Run(v, steps[..|steps| - 1]), steps[|steps| - 1]);
    }
  }

  // ---------------------------------------------------------------- READY without a transport

  predicate Bare(v: View) {
    v.state == Ready && v.transport.None?
  }

  /** A step leads to READY without a transport exactly when it is an update, after the channel's context has ended, to
      other addresses, at least one, that lack the connected one. */
  lemma BareExactly(v: View, step: Step)
    requires Safe(v) && !Bare(v)
    ensures Bare(Next(v, step)) <==>
              && step.DoUpdateAddrs? && step.addrs != v.addrs && step.addrs != [] && !step.found
              && v.state == Ready && v.channelDone
  {
  }

  /** The first address answers. */
  lemma ReadyReached(here: Address)
    ensures exists steps :: Run(Init([here]), steps) ==
              View(Ready, 0, {}, false, Some(0), [here], 0, 0, [Attempt(0, Finishing)],
                  [Transport(0, 0, Up, false, false, false)], [Connecting, Ready])
  {
    hide Run;
    var s1 := [DoConnect];
    var s2 := s1 + [Advances(0, false)];
    var s3 := s2 + [DialOutcome(0, true)];
    var v0 := Init([here]);
    RunOne(v0, [], DoConnect);
    assert [] + [DoConnect] == s1;
    RunOne(v0, s1, Advances(0, false));
    assert Run(v0, s2).attempts == [Attempt(0, Dialing(0, 0))];
    RunOne(v0, s2, DialOutcome(0, true));
    assert Run(v0, s3).attempts == [Attempt(0, Dialed(0))];
    RunOne(v0, s3, Advances(0, false));
    assert Run(v0, s3 + [Advances(0, false)]).attempts == [Attempt(0, Finishing)];
  }

  /** There is a run to READY without a transport. */
  lemma BareReached(here: Address, there: Address)
    requires here != there
    ensures exists steps :: Bare(Run(Init([here]), steps))
  {
    hide Run;
    ReadyReached(here);
    var v0 := Init([here]);
    var s4 :| Run(v0, s4) ==
      View(Ready, 0, {}, false, Some(0), [here], 0, 0, [Attempt(0, Finishing)],
          [Transport(0, 0, Up, false, false, false)], [Connecting, Ready]);
    RunOne(v0, s4, DoEndChannel);
    RunOne(v0, s4 + [DoEndChannel], DoUpdateAddrs([there], false));
    assert Bare(Run(v0, s4 + [DoEndChannel] + [DoUpdateAddrs([there], false)]));
  }

  // ---------------------------------------------------------------- connecting stays possible

  /** Steps of the SubConn's own: a call of Connect, its goroutines, and the outcomes of their dials. */
  predicate Own(steps: seq<Step>) {
    forall k :: 0 <= k < |steps| ==> steps[k].DoConnect? || steps[k].Advances? || steps[k].DialOutcome?
  }

  /** Whatever a SubConn without a transport has reached, as long as it has addresses, is not shut down and its channel
      lives, there are steps of its own that get it READY: no state is a dead end. */
  lemma CanGetReady(v: View) returns (steps: seq<Step>)
    requires Safe(v) && !v.channelDone && v.state != Shutdown && v.addrs != [] && v.transport.None?
    ensures var w := Run(v, steps); w.state == Ready && w.transport.Some? && Own(steps)
  {
    hide Run, Next;
    if v.state == Idle {
      steps := ConnectFirst(v);
    } else {
      var i :| AtWork(v, i);
      steps := Settle(v, i);
      var w := Run(v, steps);
      if w.state == Idle {
        var more := ConnectFirst(w);
        RunOn(v, steps, more);
        steps := steps + more;
      }
    }
  }

  lemma {:induction false} RunOn(v: View, first: seq<Step>, more: seq<Step>)
    ensures Run(v, first + more) == Run(Run(v, first), more)
  {
    if more == [] {
      assert first + more == first;
    } else {
      var before := more[..|more| - 1];
      RunOn(v, first, before);
      assert (first + more)[..|first + more| - 1] == first + before;
    }
  }

  /** The first address answers. */
  lemma ConnectFirst(v: View) returns (steps: seq<Step>)
    requires v.state == Idle && LiveIn(v, v.ctx) && v.addrs != [] && v.transport.None?
    ensures var w := Run(v, steps); w.state == Ready && w.transport.Some? && Own(steps)
  {
    hide Run;
    var i := |v.attempts|;
    var s1, s2 := [DoConnect], [DoConnect] + [Advances(i, false)];
    var s3 := s2 + [DialOutcome(i, true)];
    RunOne(v, [], DoConnect);
    RunOne(v, s1, Advances(i, false));
    RunOne(v, s2, DialOutcome(i, true));
    RunOne(v, s3, Advances(i, false));
    assert [] + [DoConnect] == s1;
    steps := s3 + [Advances(i, false)];
  }

  /** How far the goroutine at work is from its end when every address that is left fails. */
  function Rank(p: Phase): nat {
    match p
    case Trying(left, _) => 4 + 2 * left
    case Dialing(_, left) => 5 + 2 * left
    case Dialed(_) => 1
    case Failing => 3
    case BackingOff(_) => 2
    case WakingUp => 1
    case _ => 0
  }

  /** The attempt at work runs to its end: READY if its transport is up, else Idle. */
  lemma {:induction false} Settle(v: View, i: nat) returns (steps: seq<Step>)
    requires AtWork(v, i) && Ongoing(v, i) && v.attempts[i].ctx == v.ctx && v.addrs != [] && v.transport.None?
    ensures var w := Run(v, steps);
            && Own(steps) && w.addrs == v.addrs && LiveIn(w, w.ctx)
            && ((w.state == Idle && w.transport.None?) || (w.state == Ready && w.transport.Some?))
    decreases Rank(v.attempts[i].phase)
  {
    hide Run;
    var p := v.attempts[i].phase;
    var step := if p.Dialing? then DialOutcome(i, false) else Advances(i, p.BackingOff?);
    var w := Next(v, step);
    RunOne(v, [], step);
    assert [] + [step] == [step];
    steps := [step];
    if !p.Dialed? && !p.WakingUp? {
      var more := Settle(w, i);
      RunOn(v, [step], more);
      steps := steps + more;
    }
  }
}
