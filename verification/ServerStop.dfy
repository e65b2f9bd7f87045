/** How a server starts and stops serving (`server.go`): accept loops, connections being set up, transports whose
    streams are served, handlers, and concurrent calls of Stop and GracefulStop.  Every critical section of `s.mu`
    and every operation on a wait group or on the worker channel is one step. */
module ServerStop {

  import opened Wrappers

  /** Where the goroutine serving a transport is: waiting for a stream, inside the callback for one, done
      serving, or removed. */
  datatype Phase = Serving | Calling(h: nat) | Leaving | Gone

  /** A transport: its listener, whether it belongs to an HTTP handler, how often `Drain` was called on it, and whether
      it is closed. */
  datatype Transport = Transport(addr: nat, http: bool, phase: Phase, drains: nat, closed: bool)

  /** Draining asks the client to go; an HTTP handler's transport is closed instead. */
  function Drain(x: Transport): Transport {
    x.(drains := x.drains + 1, closed := x.closed || x.http)
  }

  /** A transport that `addConn` accepts. */
  function Joining(addr: nat, http: bool, drain: bool): Transport {
    var x := Transport(addr, http, Serving, 0, false);
    if drain then Drain(x) else x
  }

  /** Where a call of `stop` is: before it closes the listeners, the wait for accept loops, the wait for connections,
      the wait for handlers, or its return. */
  datatype StopPhase = AwaitLock | AwaitServe | AwaitConns | AwaitHandlers | Returned

  datatype Stopper = Stopper(graceful: bool, phase: StopPhase)

  type Conns = map<nat, set<nat>>

  predicate Holds(conns: Option<Conns>, addr: nat, st: nat) {
    conns.Some? && addr in conns.value && st in conns.value[addr]
  }

  /** The table with a transport more, and with one less: an address goes with its last transport. */
  function Add(conns: Conns, addr: nat, st: nat): Conns {
    conns[addr := (if addr in conns then conns[addr] else {}) + {st}]
  }

  function Remove(conns: Conns, addr: nat, st: nat): Conns {
    if addr !in conns then conns
    else if conns[addr] == {st} then conns - {addr}
    else conns[addr := conns[addr] - {st}]
  }

  /** A transport is in the table, under its listener's address, exactly until it is removed. */
  ghost predicate Present(conns: Option<Conns>, transports: seq<Transport>) {
    && (forall t {:trigger transports[t]} :: 0 <= t < |transports| ==>
          (transports[t].phase != Gone <==> Holds(conns, transports[t].addr, t)))
    && (forall a: nat, t: nat :: Holds(conns, a, t) ==> t < |transports| && transports[t].addr == a)
  }

  /** No address has an empty entry. */
  ghost predicate NoEmpty(conns: Option<Conns>) {
    conns.Some? ==> forall a :: a in conns.value ==> conns.value[a] != {}
  }

  ghost predicate ConnsOK(conns: Option<Conns>, transports: seq<Transport>) {
    Present(conns, transports) && NoEmpty(conns)
  }

  lemma AddKeeps(conns: Conns, transports: seq<Transport>, x: Transport)
    requires ConnsOK(Some(conns), transports) && x.phase != Gone
    ensures ConnsOK(Some(Add(conns, x.addr, |transports|)), transports + [x])
  {
    var n := |transports|;
    var after := Some(Add(conns, x.addr, n));
    forall a: nat, t: nat
      ensures Holds(after, a, t) <==> Holds(Some(conns), a, t) || (a == x.addr && t == n)
    {
    }
  }

  lemma RefusedKeeps(transports: seq<Transport>, x: Transport)
    requires ConnsOK(None, transports) && x.phase == Gone
    ensures ConnsOK(None, transports + [x])
  {
  }

  lemma RemoveKeeps(conns: Conns, transports: seq<Transport>, st: nat)
    requires ConnsOK(Some(conns), transports) && st < |transports| && transports[st].phase != Gone
    ensures ConnsOK(Some(Remove(conns, transports[st].addr, st)), transports[st := transports[st].(phase := Gone)])
  {
    var addr := transports[st].addr;
    assert Holds(Some(conns), addr, st);
    var after := Some(Remove(conns, addr, st));
    forall a: nat, t: nat
      ensures Holds(after, a, t) <==> Holds(Some(conns), a, t) && t != st
    {
      assert Holds(Some(conns), a, t) ==> t < |transports| && transports[t].addr == a;
    }
    assert conns[addr] != {st} ==> conns[addr] - {st} != {} by {
      assert st in conns[addr];
      assert conns[addr] - {st} == {} ==> conns[addr] == {st};
    }
  }

  lemma InTable(conns: Option<Conns>, transports: seq<Transport>, st: nat)
    requires ConnsOK(conns, transports) && st < |transports| && transports[st].phase != Gone
    ensures Holds(conns, transports[st].addr, st)
  {
  }

  /** Handlers that were added to the wait group: each callback has its own. */
  ghost predicate CallsOK(transports: seq<Transport>, handlers: set<nat>, next: nat) {
    && (forall t {:trigger transports[t]} :: 0 <= t < |transports| && transports[t].phase.Calling? ==>
          transports[t].phase.h in handlers)
    && (forall h :: h in handlers ==> h < next)
    && (forall t, u {:trigger transports[t], transports[u]} ::
          0 <= t < u < |transports| && transports[t].phase.Calling? && transports[u].phase.Calling? ==>
          transports[t].phase.h != transports[u].phase.h)
  }

  /** Every transport in the table has been drained once if the server is draining, and not at all before. */
  ghost predicate DrainedOK(drain: bool, transports: seq<Transport>) {
    forall t {:trigger transports[t]} :: 0 <= t < |transports| && transports[t].phase != Gone ==>
      transports[t].drains == if drain then 1 else 0
  }

  /** What each call of `stop` may rely on: `deaf` when the listeners are closed, `calm` when no connection can come
      from a listener any more, `stopped` when the table is gone, `quiet` when no handler is left. */
  predicate StopOK(k: Stopper, quit: bool, deaf: bool, calm: bool, stopped: bool, quiet: bool, waits: bool) {
    match k.phase
    case AwaitLock => quit
    case AwaitServe => deaf
    case AwaitConns => calm
    case AwaitHandlers => stopped
    case Returned => stopped && (k.graceful || waits ==> quiet)
  }

  ghost predicate StopsOK(stoppers: seq<Stopper>, quit: bool, deaf: bool, calm: bool, stopped: bool, quiet: bool,
      waits: bool)
  {
    forall k {:trigger stoppers[k]} :: 0 <= k < |stoppers| ==>
        StopOK(stoppers[k], quit, deaf, calm, stopped, quiet, waits)
  }

  /** Every transport in the table drained, or closed; the others as they were. */
  function Swept(conns: Option<Conns>, transports: seq<Transport>, graceful: bool): seq<Transport> {
    seq(|transports|, t requires 0 <= t < |transports| =>
      if !Holds(conns, transports[t].addr, t) then transports[t]
      else if graceful then Drain(transports[t]) else transports[t].(closed := true))
  }

  method SweepAll(conns: Option<Conns>, transports: seq<Transport>, graceful: bool) returns (after: seq<Transport>)
    ensures after == Swept(conns, transports, graceful)
  {
    after := [];
    for t := 0 to |transports|
      invariant after == Swept(conns, transports, graceful)[..t]
    {
      var x := transports[t];
      after := after + [if !Holds(conns, x.addr, t) then x else if graceful then Drain(x) else x.(closed := true)];
    }
  }

  lemma SweptKeeps(conns: Option<Conns>, transports: seq<Transport>, handlers: set<nat>, next: nat, drain: bool,
      graceful: bool)
    requires ConnsOK(conns, transports) && CallsOK(transports, handlers, next) && DrainedOK(drain, transports) &&
               !(drain && graceful)
    ensures var after := Swept(conns, transports, graceful);
            ConnsOK(conns, after) && CallsOK(after, handlers, next) && DrainedOK(drain || graceful, after)
  {
    hide Holds, NoEmpty;
    var after := Swept(conns, transports, graceful);
    assert forall t {:trigger after[t]} :: 0 <= t < |after| ==>
        after[t].phase == transports[t].phase && after[t].addr == transports[t].addr;
  }

  lemma NewHandler(transports: seq<Transport>, handlers: set<nat>, next: nat)
    requires CallsOK(transports, handlers, next)
    ensures next !in handlers
  {
  }

  lemma CallKeeps(conns: Option<Conns>, transports: seq<Transport>, handlers: set<nat>, next: nat, drain: bool, st: nat)
    requires ConnsOK(conns, transports) && CallsOK(transports, handlers, next) && DrainedOK(drain, transports)
    requires st < |transports| && transports[st].phase == Serving
    ensures var after := transports[st := transports[st].(phase := Calling(next))];
            ConnsOK(conns, after) && CallsOK(after, handlers + {next}, next + 1) && DrainedOK(drain, after)
  {
    hide Holds, NoEmpty;
  }

  /** While the table is there, no call of `stop` relies on the handlers being gone. */
  lemma NotStopped(stoppers: seq<Stopper>, quit: bool, deaf: bool, calm: bool, quiet: bool, waits: bool)
    ensures StopsOK(stoppers, quit, deaf, calm, false, quiet, waits) ==>
              StopsOK(stoppers, quit, deaf, calm, false, false, waits)
  {
  }

  class Server {
    const workers: bool
    const waitForHandlers: bool
    var listening: bool
    var quit: bool
    var drain: bool
    var conns: Option<Conns>
    var serveWG: nat
    var handlersWG: nat
    var channelClosed: bool

    /** Accept loops; connections accepted, being set up, and handed over. */
    var loops: nat
    var accepted: nat
    var shaking: nat
    var handedOver: nat

    var transports: seq<Transport>
    var handlers: set<nat>
    var nextHandler: nat
    var stoppers: seq<Stopper>
    var panicked: bool

    ghost predicate Valid()
      reads this
    {
      && !panicked
      && serveWG == loops + accepted + shaking + handedOver && handlersWG == |handlers|
      && (listening ==> conns.Some?) && (!listening ==> quit)
      && (conns.None? ==> Calm()) && (channelClosed ==> conns.None?)
      && ConnsOK(conns, transports) && CallsOK(transports, handlers, nextHandler) && DrainedOK(drain, transports)
      && StopsOK(stoppers, quit, !listening, Calm(), conns.None?, handlers == {}, waitForHandlers)
    }

    function Look(): View
      reads this
    {
      View(workers, waitForHandlers, listening, quit, drain, conns, serveWG, handlersWG, channelClosed, loops, accepted,
           shaking, handedOver, transports, handlers, nextHandler, stoppers, panicked)
    }

    predicate Calm()
      reads this
    {
      !listening && serveWG == 0
    }

    constructor (workers: bool, waitForHandlers: bool)
      ensures Valid() && Look() == Init(workers, waitForHandlers)
      ensures this.workers == workers && this.waitForHandlers == waitForHandlers
      ensures listening && !quit && !drain && conns == Some(map[]) && !channelClosed
      ensures transports == [] && stoppers == []
    {
      this.workers, this.waitForHandlers := workers, waitForHandlers;
      listening, quit, drain, conns := true, false, false, Some(map[]);
      serveWG, handlersWG, channelClosed, loops, accepted, shaking, handedOver := 0, 0, false, 0, 0, 0, 0;
      transports, handlers, nextHandler, stoppers, panicked := [], {}, 0, [], false;
    }

    // -------------------------------------------------------------- accepting

    /** A call of `Serve`; refused once the listeners are gone. */
    method Serve() returns (ok: bool)
      requires Valid()
      modifies this`serveWG, this`loops
      ensures Valid() && ok == listening
      ensures serveWG == old(serveWG) + (if ok then 1 else 0) && loops == old(loops) + if ok then 1 else 0
      ensures Look() == Starting(old(Look()))
    {
      if !listening {
        return false;
      }
      serveWG, loops, ok := serveWG + 1, loops + 1, true;
    }

    method Accept()
      requires Valid() && loops > 0
      modifies this`serveWG, this`accepted
      ensures Valid() && serveWG == old(serveWG) + 1 && accepted == old(accepted) + 1
      ensures Look() == Accepting(old(Look()))
    {
      serveWG, accepted := serveWG + 1, accepted + 1;
    }

    method EndLoop()
      requires Valid() && loops > 0
      modifies this`serveWG, this`loops
      ensures Valid() && serveWG == old(serveWG) - 1 && loops == old(loops) - 1
      ensures Look() == EndingLoop(old(Look()))
    {
      serveWG, loops := serveWG - 1, loops - 1;
    }

    /** `handleRawConn`: dropped when the server is quitting. */
    method HandleRawConn()
      requires Valid() && accepted > 0
      modifies this`serveWG, this`accepted, this`shaking
      ensures Valid() && accepted == old(accepted) - 1
      ensures if quit then serveWG == old(serveWG) - 1 && shaking == old(shaking)
              else serveWG == old(serveWG) && shaking == old(shaking) + 1
      ensures Look() == HandlingRawConn(old(Look()))
    {
      accepted := accepted - 1;
      if quit {
        serveWG := serveWG - 1;
      } else {
        shaking := shaking + 1;
      }
    }

    method HandshakeFails()
      requires Valid() && shaking > 0
      modifies this`serveWG, this`shaking
      ensures Valid() && serveWG == old(serveWG) - 1 && shaking == old(shaking) - 1
      ensures Look() == FailingHandshake(old(Look()))
    {
      serveWG, shaking := serveWG - 1, shaking - 1;
    }

    /** The connection is in the table before the wait group lets go of it. */
    method HandshakeSucceeds(addr: nat) returns (ok: bool)
      requires Valid() && shaking > 0
      modifies this`shaking, this`handedOver, this`conns, this`transports
      ensures Valid() && ok && shaking == old(shaking) - 1 && handedOver == old(handedOver) + 1
      ensures old(conns).Some? && conns == Some(Add(old(conns).value, addr, |old(transports)|))
      ensures transports == old(transports) + [Joining(addr, false, drain)]
      ensures Look() == SucceedingHandshake(old(Look()), addr)
    {
      shaking, handedOver := shaking - 1, handedOver + 1;
      ok := AddConn(addr, false);
    }

    method EndRawConn()
      requires Valid() && handedOver > 0
      modifies this`serveWG, this`handedOver
      ensures Valid() && serveWG == old(serveWG) - 1 && handedOver == old(handedOver) - 1
      ensures Look() == EndingRawConn(old(Look()))
    {
      serveWG, handedOver := serveWG - 1, handedOver - 1;
    }

    // -------------------------------------------------------------- the connection table

    /** A new transport: closed when the table is gone, drained at once when the server is draining.  `ServeHTTP`
        calls this directly, without the wait group. */
    method AddConn(addr: nat, http: bool) returns (ok: bool)
      requires Valid()
      modifies this`conns, this`transports
      ensures Valid() && (ok <==> old(conns).Some?)
      ensures ok ==> && transports == old(transports) + [Joining(addr, http, drain)]
                     && conns == Some(Add(old(conns).value, addr, |old(transports)|))
      ensures !ok ==> transports == old(transports) + [Transport(addr, http, Gone, 0, true)] && conns.None?
      ensures Look() == Adding(old(Look()), addr, http)
    {
      hide ConnsOK, StopsOK, Add;
      var st := |transports|;
      if conns.None? {
        RefusedKeeps(transports, Transport(addr, http, Gone, 0, true));
        transports := transports + [Transport(addr, http, Gone, 0, true)];
        return false;
      }
      AddKeeps(conns.value, transports, Joining(addr, http, drain));
      transports := transports + [Joining(addr, http, drain)];
      conns := Some(Add(conns.value, addr, st));
      ok := true;
    }

    /** The transport's streams are all served; its address goes with its last transport. */
    method RemoveConn(st: nat)
      requires Valid() && st < |transports| && transports[st].phase == Leaving
      modifies this`conns, this`transports
      ensures Valid() && transports == old(transports)[st := old(transports)[st].(phase := Gone)]
      ensures old(conns).Some? && conns == Some(Remove(old(conns).value, old(transports)[st].addr, st))
      ensures Look() == Removing(old(Look()), st)
    {
      InTable(conns, transports, st);
      hide ConnsOK, StopsOK, Remove;
      RemoveKeeps(conns.value, transports, st);
      conns := Some(Remove(conns.value, transports[st].addr, st));
      transports := transports[st := transports[st].(phase := Gone)];
    }

    // -------------------------------------------------------------- streams and handlers

    /** A stream arrives: the callback counts its handler before anything else. */
    method BeginCallback(st: nat) returns (h: nat)
      requires Valid() && st < |transports| && transports[st].phase == Serving
      modifies this`handlersWG, this`handlers, this`nextHandler, this`transports
      ensures Valid() && h == old(nextHandler) && h !in old(handlers) && handlers == old(handlers) + {h} && conns.Some?
      ensures nextHandler == h + 1 && handlersWG == old(handlersWG) + 1
      ensures transports == old(transports)[st := old(transports)[st].(phase := Calling(h))]
      ensures Look() == Calls(old(Look()), st)
    {
      hide ConnsOK, CallsOK, DrainedOK, StopsOK;
      InTable(conns, transports, st);
      CallKeeps(conns, transports, handlers, nextHandler, drain, st);
      NotStopped(stoppers, quit, !listening, Calm(), handlers == {}, waitForHandlers);
      h := nextHandler;
      assert h !in handlers by { NewHandler(transports, handlers, nextHandler); }
      nextHandler := nextHandler + 1;
      handlersWG, handlers := handlersWG + 1, handlers + {h};
      transports := transports[st := transports[st].(phase := Calling(h))];
    }

    /** The handler goes to a worker or to a goroutine of its own.  A send on the closed worker channel would
        panic; it never does. */
    method Dispatch(st: nat)
      requires Valid() && st < |transports| && transports[st].phase.Calling?
      modifies this`transports, this`panicked
      ensures Valid() && !panicked && conns.Some? && !channelClosed && old(transports)[st].phase.h in handlers
      ensures transports == old(transports)[st := old(transports)[st].(phase := Serving)]
      ensures Look() == Dispatching(old(Look()), st)
    {
      hide StopsOK, StopOK;
      InTable(conns, transports, st);
      panicked := workers && channelClosed;
      transports := transports[st := transports[st].(phase := Serving)];
    }

    method HandlerReturns(h: nat)
      requires Valid() && h in handlers
      requires forall t :: 0 <= t < |transports| ==> transports[t].phase != Calling(h)
      modifies this`handlersWG, this`handlers
      ensures Valid() && handlers == old(handlers) - {h} && handlersWG == old(handlersWG) - 1
      ensures Look() == Returning(old(Look()), h)
    {
      handlersWG, handlers := handlersWG - 1, handlers - {h};
    }

    /** The transport has no more streams; it is closed. */
    method EndStreams(st: nat)
      requires Valid() && st < |transports| && transports[st].phase == Serving
      modifies this`transports
      ensures Valid() && transports == old(transports)[st := old(transports)[st].(phase := Leaving, closed := true)]
      ensures Look() == EndingStreams(old(Look()), st)
    {
      transports := transports[st := transports[st].(phase := Leaving, closed := true)];
    }

    // -------------------------------------------------------------- stopping

    method Stop(graceful: bool)
      requires Valid()
      modifies this`quit, this`stoppers
      ensures Valid() && quit && stoppers == old(stoppers) + [Stopper(graceful, AwaitLock)]
      ensures Look() == Stopping(old(Look()), graceful)
    {
      quit := true;
      stoppers := stoppers + [Stopper(graceful, AwaitLock)];
    }

    method CloseListeners(k: nat)
      requires Valid() && k < |stoppers| && stoppers[k].phase == AwaitLock
      modifies this`listening, this`stoppers
      ensures Valid() && !listening && stoppers == old(stoppers)[k := old(stoppers)[k].(phase := AwaitServe)]
      ensures Look() == Deafened(old(Look()), k)
    {
      listening := false;
      stoppers := stoppers[k := stoppers[k].(phase := AwaitServe)];
    }

    /** No accept loop or new connection is left: drain or close all transports. */
    method AfterServe(k: nat)
      requires Valid() && k < |stoppers| && stoppers[k].phase == AwaitServe && serveWG == 0
      modifies this`drain, this`transports, this`stoppers
      ensures Valid() && stoppers == old(stoppers)[k := old(stoppers)[k].(phase := AwaitConns)]
      ensures drain == (old(drain) || old(stoppers)[k].graceful)
      ensures transports == if old(stoppers)[k].graceful && old(drain) then old(transports)
                            else Swept(conns, old(transports), old(stoppers)[k].graceful)
      ensures Look() == Draining(old(Look()), k)
    {
      hide ConnsOK, CallsOK, DrainedOK, Swept;
      var graceful := stoppers[k].graceful;
      stoppers := stoppers[k := stoppers[k].(phase := AwaitConns)];
      if !graceful || !drain {
        SweptKeeps(conns, transports, handlers, nextHandler, drain, graceful);
        var after := SweepAll(conns, transports, graceful);
        transports := after;
        drain := drain || graceful;
      }
    }

    /** Woken up: when the table is empty it goes away, and the worker channel with it. */
    method AfterConns(k: nat)
      requires Valid() && k < |stoppers| && stoppers[k].phase == AwaitConns
      modifies this`conns, this`channelClosed, this`stoppers
      ensures Valid()
      ensures if old(conns).Some? && old(conns).value != map[] then
                conns == old(conns) && stoppers == old(stoppers) && channelClosed == old(channelClosed)
              else && conns.None? && channelClosed == (workers || old(channelClosed))
                   && (forall t :: 0 <= t < |transports| ==> transports[t].phase == Gone)
                   && var next := if old(stoppers)[k].graceful || waitForHandlers then AwaitHandlers else Returned;
                      stoppers == old(stoppers)[k := old(stoppers)[k].(phase := next)]
      ensures Look() == Emptying(old(Look()), k)
    {
      hide ConnsOK, CallsOK, DrainedOK;
      if conns.Some? && conns.value != map[] {
        return;
      }
      AllGone(conns, transports);
      conns := None;
      if workers {
        channelClosed := true;
      }
      var next := if stoppers[k].graceful || waitForHandlers then AwaitHandlers else Returned;
      stoppers := stoppers[k := stoppers[k].(phase := next)];
    }

    method AfterHandlers(k: nat)
      requires Valid() && k < |stoppers| && stoppers[k].phase == AwaitHandlers && handlersWG == 0
      modifies this`stoppers
      ensures Valid() && handlers == {} && stoppers == old(stoppers)[k := old(stoppers)[k].(phase := Returned)]
      ensures Look() == StopAt(old(Look()), k, Returned)
    {
      stoppers := stoppers[k := stoppers[k].(phase := Returned)];
    }
  }

  lemma AllGone(conns: Option<Conns>, transports: seq<Transport>)
    requires ConnsOK(conns, transports) && (conns.Some? ==> conns.value == map[])
    ensures forall t {:trigger transports[t]} :: 0 <= t < |transports| ==> transports[t].phase == Gone
    ensures ConnsOK(None, transports)
  {
  }

  // ---------------------------------------------------------------- every run

  datatype Step =
    | DoServe
    | DoAccept
    | DoEndLoop
    | DoRawConn
    | DoHandshake(ok: bool, addr: nat)
    | DoEndRawConn
    | DoServeHTTP(addr: nat)
    | StreamArrives(st: nat)
    | DoDispatch(st: nat)
    | DoHandlerReturns(h: nat)
    | DoEndStreams(st: nat)
    | DoRemoveConn(st: nat)
    | DoStop(graceful: bool)
    | StopAdvances(k: nat)

  datatype View = View(
    workers: bool, waitForHandlers: bool, listening: bool, quit: bool, drain: bool, conns: Option<Conns>,
    serveWG: nat, handlersWG: nat, channelClosed: bool, loops: nat, accepted: nat, shaking: nat, handedOver: nat,
    transports: seq<Transport>, handlers: set<nat>, nextHandler: nat, stoppers: seq<Stopper>, panicked: bool)

  function Init(workers: bool, waitForHandlers: bool): View {
    View(workers, waitForHandlers, true, false, false, Some(map[]), 0, 0, false, 0, 0, 0, 0, [], {}, 0, [], false)
  }

  function Less(n: nat): nat {
    if n == 0 then 0 else n - 1
  }

  function Starting(v: View): View {
    if v.listening then v.(serveWG := v.serveWG + 1, loops := v.loops + 1) else v
  }

  function Accepting(v: View): View {
    v.(serveWG := v.serveWG + 1, accepted := v.accepted + 1)
  }

  function EndingLoop(v: View): View {
    v.(serveWG := Less(v.serveWG), loops := Less(v.loops))
  }

  function HandlingRawConn(v: View): View {
    if v.quit then v.(accepted := Less(v.accepted), serveWG := Less(v.serveWG))
    else v.(accepted := Less(v.accepted), shaking := v.shaking + 1)
  }

  function FailingHandshake(v: View): View {
    v.(shaking := Less(v.shaking), serveWG := Less(v.serveWG))
  }

  function SucceedingHandshake(v: View, addr: nat): View {
    Adding(v, addr, false).(shaking := Less(v.shaking), handedOver := v.handedOver + 1)
  }

  function EndingRawConn(v: View): View {
    v.(handedOver := Less(v.handedOver), serveWG := Less(v.serveWG))
  }

  function Adding(v: View, addr: nat, http: bool): View {
    if v.conns.None? then v.(transports := v.transports + [Transport(addr, http, Gone, 0, true)])
    else
      v.(transports := v.transports + [Joining(addr, http, v.drain)],
         conns := Some(Add(v.conns.value, addr, |v.transports|)))
  }

  function MoveIn(v: View, st: nat, p: Phase): View
    requires st < |v.transports|
  {
    v.(transports := v.transports[st := v.transports[st].(phase := p)])
  }

  function Calls(v: View, st: nat): View
    requires st < |v.transports|
  {
    MoveIn(v, st, Calling(v.nextHandler)).(
    handlersWG := v.handlersWG + 1, handlers := v.handlers + {v.nextHandler}, nextHandler := v.nextHandler + 1)
  }

  /** A send on the closed worker channel panics. */
  function Dispatching(v: View, st: nat): View
    requires st < |v.transports|
  {
    MoveIn(v, st, Serving).(panicked := v.panicked || (v.workers && v.channelClosed))
  }

  function Returning(v: View, h: nat): View {
    v.(handlersWG := Less(v.handlersWG), handlers := v.handlers - {h})
  }

  function EndingStreams(v: View, st: nat): View
    requires st < |v.transports|
  {
    v.(transports := v.transports[st := v.transports[st].(phase := Leaving, closed := true)])
  }

  function Removing(v: View, st: nat): View
    requires st < |v.transports|
  {
    var conns := if v.conns.None? then None else Some(Remove(v.conns.value, v.transports[st].addr, st));
    MoveIn(v, st, Gone).(conns := conns)
  }

  function Stopping(v: View, graceful: bool): View {
    v.(quit := true, stoppers := v.stoppers + [Stopper(graceful, AwaitLock)])
  }

  function StopAt(v: View, k: nat, p: StopPhase): View
    requires k < |v.stoppers|
  {
    v.(stoppers := v.stoppers[k := v.stoppers[k].(phase := p)])
  }

  function Deafened(v: View, k: nat): View
    requires k < |v.stoppers|
  {
    StopAt(v, k, AwaitServe).(listening := false)
  }

  function Draining(v: View, k: nat): View
    requires k < |v.stoppers|
  {
    var graceful := v.stoppers[k].graceful;
    StopAt(v, k, AwaitConns).(
    drain := v.drain || graceful,
    transports := if graceful && v.drain then v.transports else Swept(v.conns, v.transports, graceful))
  }

  function Emptying(v: View, k: nat): View
    requires k < |v.stoppers|
  {
    if v.conns.Some? && v.conns.value != map[] then v
    else
      StopAt(v, k, if v.stoppers[k].graceful || v.waitForHandlers then AwaitHandlers else Returned).(
      conns := None, channelClosed := v.workers || v.channelClosed)
  }

  /** The next critical section, or the end of a wait, of stop call `k`. */
  function NextStop(v: View, k: nat): View {
    if k >= |v.stoppers| then v
    else
      match v.stoppers[k].phase
      case AwaitLock => Deafened(v, k)
      case AwaitServe => if v.serveWG == 0 then Draining(v, k) else v
      case AwaitConns => Emptying(v, k)
      case AwaitHandlers => if v.handlersWG == 0 then StopAt(v, k, Returned) else v
      case Returned => v
  }

  /** The next critical section of a transport's goroutine. */
  function NextServe(v: View, step: Step, st: nat): View {
    if st >= |v.transports| then v
    else
      var p := v.transports[st].phase;
      if step.StreamArrives? && p == Serving then Calls(v, st)
      else if step.DoDispatch? && p.Calling? then Dispatching(v, st)
      else if step.DoEndStreams? && p == Serving then EndingStreams(v, st)
      else if step.DoRemoveConn? && p == Leaving then Removing(v, st)
      else v
  }

  /** Handler `h` runs: its callback has handed it over. */
  predicate Runs(v: View, h: nat) {
    h in v.handlers && forall t :: 0 <= t < |v.transports| ==> v.transports[t].phase != Calling(h)
  }

  function Next(v: View, step: Step): View {
    match step
    case DoServe => Starting(v)
    case DoAccept => if v.loops > 0 then Accepting(v) else v
    case DoEndLoop => if v.loops > 0 then EndingLoop(v) else v
    case DoRawConn => if v.accepted > 0 then HandlingRawConn(v) else v
    case DoHandshake(ok, addr) =>
      if v.shaking == 0 then v else if ok then SucceedingHandshake(v, addr) else FailingHandshake(v)
    case DoEndRawConn => if v.handedOver > 0 then EndingRawConn(v) else v
    case DoServeHTTP(addr) => Adding(v, addr, true)
    case StreamArrives(st) => NextServe(v, step, st)
    case DoDispatch(st) => NextServe(v, step, st)
    case DoHandlerReturns(h) => if Runs(v, h) then Returning(v, h) else v
    case DoEndStreams(st) => NextServe(v, step, st)
    case DoRemoveConn(st) => NextServe(v, step, st)
    case DoStop(graceful) => Stopping(v, graceful)
    case StopAdvances(k) => NextStop(v, k)
  }

  function Run(v: View, steps: seq<Step>): View {
    if steps == [] then v else Next(Run(v, steps[..|steps| - 1]), steps[|steps| - 1])
  }

  // ---------------------------------------------------------------- the object takes these steps

  /** One step of the object is that function of its fields; a step that cannot be taken changes nothing. */
  method Perform(s: Server, step: Step)
    requires s.Valid()
    modifies s
    ensures s.Valid() && s.Look() == Next(old(s.Look()), step)
  {
    hide Server.Valid, NextServe, NextStop, Starting, Accepting, EndingLoop, HandlingRawConn, FailingHandshake,
      SucceedingHandshake, EndingRawConn, Adding, Returning, Stopping;
    match step {
      case DoServe => var ok := s.Serve();
      case DoAccept => if s.loops > 0 { s.Accept(); }
      case DoEndLoop => if s.loops > 0 { s.EndLoop(); }
      case DoRawConn => if s.accepted > 0 { s.HandleRawConn(); }
      case DoHandshake(ok, addr) =>
        if s.shaking > 0 {
          if ok { var added := s.HandshakeSucceeds(addr); } else { s.HandshakeFails(); }
        }
      case DoEndRawConn => if s.handedOver > 0 { s.EndRawConn(); }
      case DoServeHTTP(addr) => var added := s.AddConn(addr, true);
      case StreamArrives(st) => AdvanceServe(s, step, st);
      case DoDispatch(st) => AdvanceServe(s, step, st);
      case DoHandlerReturns(h) =>
        if h in s.handlers && forall t :: 0 <= t < |s.transports| ==> s.transports[t].phase != Calling(h) {
          s.HandlerReturns(h);
        }
      case DoEndStreams(st) => AdvanceServe(s, step, st);
      case DoRemoveConn(st) => AdvanceServe(s, step, st);
      case DoStop(graceful) => s.Stop(graceful);
      case StopAdvances(k) => AdvanceStop(s, k);
    }
  }

  method AdvanceServe(s: Server, step: Step, st: nat)
    requires s.Valid()
    modifies s
    ensures s.Valid() && s.Look() == NextServe(old(s.Look()), step, st)
  {
    hide Server.Valid, Calls, Dispatching, EndingStreams, Removing;
    if st >= |s.transports| {
      return;
    }
    var p := s.transports[st].phase;
    if step.StreamArrives? && p == Serving {
      var h := s.BeginCallback(st);
    } else if step.DoDispatch? && p.Calling? {
      s.Dispatch(st);
    } else if step.DoEndStreams? && p == Serving {
      s.EndStreams(st);
    } else if step.DoRemoveConn? && p == Leaving {
      s.RemoveConn(st);
    }
  }

  method AdvanceStop(s: Server, k: nat)
    requires s.Valid()
    modifies s
    ensures s.Valid() && s.Look() == NextStop(old(s.Look()), k)
  {
    hide Server.Valid, Deafened, Draining, Emptying, StopAt;
    if k >= |s.stoppers| {
      return;
    }
    match s.stoppers[k].phase {
      case AwaitLock => s.CloseListeners(k);
      case AwaitServe => if s.serveWG == 0 { s.AfterServe(k); }
      case AwaitConns => s.AfterConns(k);
      case AwaitHandlers => if s.handlersWG == 0 { s.AfterHandlers(k); }
      case Returned =>
    }
  }

  // ---------------------------------------------------------------- every run

  /** No send on the closed worker channel; callbacks run only for transports in the table; draining has reached
      every one once; nothing is left when a graceful stop has returned. */
  ghost predicate Safe(v: View) {
    && !v.panicked
    && (forall t :: 0 <= t < |v.transports| ==>
          (v.transports[t].phase != Gone <==> Holds(v.conns, v.transports[t].addr, t)))
    && DrainedOK(v.drain, v.transports)
    && (forall k :: 0 <= k < |v.stoppers| && v.stoppers[k].phase == Returned ==>
          v.conns.None? && (v.stoppers[k].graceful || v.waitForHandlers ==> v.handlers == {}))
  }

  /** Every state that any interleaving leads to is safe, with any number of Stop and GracefulStop calls. */
  method AnyRun(workers: bool, waitForHandlers: bool, steps: seq<Step>) returns (v: View)
    ensures v == Run(Init(workers, waitForHandlers), steps) && Safe(v)
  {
    hide Next, Safe, Server.Valid;
    var s := new Server(workers, waitForHandlers);
    for k := 0 to |steps|
      invariant fresh(s) && s.Valid() && s.Look() == Run(Init(workers, waitForHandlers), steps[..k])
    {
      assert steps[..k + 1][..k] == steps[..k];
      Perform(s, steps[k]);
    }
    assert steps[..|steps|] == steps;
    ValidIsSafe(s);
    v := s.Look();
  }

  lemma ValidIsSafe(s: Server)
    requires s.Valid()
    ensures Safe(s.Look())
  {
  }

  /** Once the table is gone no handler is ever started, and none comes back. */
  lemma {:induction false} NothingStartsAfterTheEnd(v: View, steps: seq<Step>)
    requires Ended(v)
    ensures var w := Run(v, steps); Ended(w) && w.nextHandler == v.nextHandler && w.handlers <= v.handlers
  {
    if steps != [] {
      NothingStartsAfterTheEnd(v, steps[..|steps| - 1]);
      EndedStep(Run(v, steps[..|steps| - 1]), steps[|steps| - 1]);
    }
  }

  ghost predicate Ended(v: View) {
    v.conns.None? && forall t :: 0 <= t < |v.transports| ==> v.transports[t].phase == Gone
  }

  /** `w` may follow the end `v`. */
  ghost predicate StaysEnded(v: View, w: View) {
    Ended(w) && w.nextHandler == v.nextHandler && w.handlers <= v.handlers
  }

  lemma EndedStep(v: View, step: Step)
    requires Ended(v)
    ensures StaysEnded(v, Next(v, step))
  {
    hide NextServe, NextStop, Starting, Accepting, EndingLoop, HandlingRawConn, FailingHandshake, SucceedingHandshake,
      EndingRawConn, Adding, Returning, Stopping;
    EndedAccept(v);
    match step
    case DoHandshake(ok, addr) => EndedJoin(v, addr, false);
    case DoServeHTTP(addr) => EndedJoin(v, addr, true);
    case DoHandlerReturns(h) => EndedReturn(v, h);
    case DoStop(graceful) => EndedReturn(v, 0);
    case StreamArrives(st) => EndedServe(v, step, st);
    case DoDispatch(st) => EndedServe(v, step, st);
    case DoEndStreams(st) => EndedServe(v, step, st);
    case DoRemoveConn(st) => EndedServe(v, step, st);
    case StopAdvances(k) => EndedStop(v, k);
    case _ =>
  }

  lemma EndedAccept(v: View)
    requires Ended(v)
    ensures StaysEnded(v, v) && StaysEnded(v, Starting(v)) && StaysEnded(v, Accepting(v)) &&
              StaysEnded(v, EndingLoop(v))
    ensures StaysEnded(v, HandlingRawConn(v)) && StaysEnded(v, EndingRawConn(v)) && StaysEnded(v, FailingHandshake(v))
  {
  }

  lemma EndedJoin(v: View, addr: nat, http: bool)
    requires Ended(v)
    ensures StaysEnded(v, Adding(v, addr, http)) && StaysEnded(v, SucceedingHandshake(v, addr))
  {
  }

  lemma EndedReturn(v: View, h: nat)
    requires Ended(v)
    ensures StaysEnded(v, Returning(v, h)) && forall graceful :: StaysEnded(v, Stopping(v, graceful))
  {
  }

  lemma EndedServe(v: View, step: Step, st: nat)
    requires Ended(v)
    ensures NextServe(v, step, st) == v
  {
    hide Calls, Dispatching, EndingStreams, Removing;
  }

  lemma EndedStop(v: View, k: nat)
    requires Ended(v)
    ensures StaysEnded(v, NextStop(v, k))
  {
    hide Draining, Deafened, Emptying, StopAt, StaysEnded;
    EndedAccept(v);
    if k < |v.stoppers| {
      EndedDraining(v, k);
      EndedPhases(v, k);
    }
  }

  lemma EndedPhases(v: View, k: nat)
    requires Ended(v) && k < |v.stoppers|
    ensures StaysEnded(v, Deafened(v, k)) && StaysEnded(v, Emptying(v, k)) && StaysEnded(v, StopAt(v, k, Returned))
  {
  }

  lemma EndedDraining(v: View, k: nat)
    requires Ended(v) && k < |v.stoppers|
    ensures StaysEnded(v, Draining(v, k))
  {
    forall graceful ensures Swept(v.conns, v.transports, graceful) == v.transports {
    }
  }

  // ---------------------------------------------------------------- who is closed

  /** Some call of Stop, not of GracefulStop, has dealt with the transports. */
  ghost predicate Forced(stoppers: seq<Stopper>) {
    exists k :: 0 <= k < |stoppers| && Forces(stoppers[k])
  }

  predicate Forces(k: Stopper) {
    !k.graceful && k.phase != AwaitLock && k.phase != AwaitServe
  }

  /** A transport whose streams are served stays open, unless a Stop has closed it or it belongs to an HTTP handler; and
      such a one is closed once it has been drained. */
  predicate OpenOK(x: Transport, forced: bool) {
    && (!x.http && (x.phase == Serving || x.phase.Calling?) && !forced ==> !x.closed)
    && (x.http && x.drains > 0 && x.phase != Gone ==> x.closed)
  }

  ghost predicate AllOpen(transports: seq<Transport>, forced: bool) {
    forall t {:trigger transports[t]} :: 0 <= t < |transports| ==> OpenOK(transports[t], forced)
  }

  ghost predicate Gentle(v: View) {
    AllOpen(v.transports, Forced(v.stoppers))
  }

  /** Over every run, a graceful stop closes no connection that is in use: it lets the client go. */
  lemma {:induction false} GracefulClosesNothing(workers: bool, waitForHandlers: bool, steps: seq<Step>)
    ensures Gentle(Run(Init(workers, waitForHandlers), steps))
  {
    hide Next, Gentle;
    var v := Init(workers, waitForHandlers);
    if steps == [] {
      NobodyServed(v);
    } else {
      GracefulClosesNothing(workers, waitForHandlers, steps[..|steps| - 1]);
      GentleStep(Run(v, steps[..|steps| - 1]), steps[|steps| - 1]);
    }
  }

  lemma NobodyServed(v: View)
    requires v.transports == []
    ensures Gentle(v)
  {
  }

  lemma GentleStep(v: View, step: Step)
    requires Gentle(v)
    ensures Gentle(Next(v, step))
  {
    hide NextServe, NextStop, Starting, Accepting, EndingLoop, HandlingRawConn, FailingHandshake, SucceedingHandshake,
      EndingRawConn, Adding, Returning, Stopping, Gentle;
    GentleAccept(v);
    match step
    case DoHandshake(ok, addr) => GentleJoin(v, addr, false);
    case DoServeHTTP(addr) => GentleJoin(v, addr, true);
    case DoHandlerReturns(h) => GentleReturn(v, h);
    case DoStop(graceful) => GentleStopping(v, graceful);
    case StreamArrives(st) => GentleServe(v, step, st);
    case DoDispatch(st) => GentleServe(v, step, st);
    case DoEndStreams(st) => GentleServe(v, step, st);
    case DoRemoveConn(st) => GentleServe(v, step, st);
    case StopAdvances(k) => GentleStop(v, k);
    case _ =>
  }

  lemma GentleAccept(v: View)
    requires Gentle(v)
    ensures Gentle(Starting(v)) && Gentle(Accepting(v)) && Gentle(EndingLoop(v))
    ensures Gentle(HandlingRawConn(v)) && Gentle(EndingRawConn(v)) && Gentle(FailingHandshake(v))
  {
    hide AllOpen, Forced;
  }

  lemma GentleReturn(v: View, h: nat)
    requires Gentle(v)
    ensures Gentle(Returning(v, h))
  {
    hide AllOpen, Forced;
  }

  lemma GentleStopping(v: View, graceful: bool)
    requires Gentle(v)
    ensures Gentle(Stopping(v, graceful))
  {
    hide AllOpen;
    var more := v.stoppers + [Stopper(graceful, AwaitLock)];
    assert Forced(more) == Forced(v.stoppers) by {
      assert forall k :: 0 <= k < |v.stoppers| ==> more[k] == v.stoppers[k];
      assert !Forces(more[|v.stoppers|]);
    }
  }

  lemma JoinOpen(transports: seq<Transport>, addr: nat, http: bool, drain: bool, forced: bool)
    requires AllOpen(transports, forced)
    ensures AllOpen(transports + [Joining(addr, http, drain)], forced)
    ensures AllOpen(transports + [Transport(addr, http, Gone, 0, true)], forced)
  {
  }

  lemma GentleAdding(v: View, addr: nat, http: bool)
    requires Gentle(v)
    ensures Gentle(Adding(v, addr, http))
  {
    hide AllOpen, Forced, Add, Joining;
    JoinOpen(v.transports, addr, http, v.drain, Forced(v.stoppers));
  }

  lemma GentleJoin(v: View, addr: nat, http: bool)
    requires Gentle(v)
    ensures Gentle(Adding(v, addr, http)) && Gentle(SucceedingHandshake(v, addr))
  {
    hide AllOpen, Forced, Adding;
    GentleAdding(v, addr, http);
    GentleAdding(v, addr, false);
  }

  lemma LeaveOpen(transports: seq<Transport>, st: nat, forced: bool)
    requires AllOpen(transports, forced) && st < |transports|
    ensures AllOpen(transports[st := transports[st].(phase := Leaving, closed := true)], forced)
    ensures AllOpen(transports[st := transports[st].(phase := Gone)], forced)
  {
  }

  lemma GentleServe(v: View, step: Step, st: nat)
    requires Gentle(v)
    ensures Gentle(NextServe(v, step, st))
  {
    hide Gentle, Calls, Dispatching, EndingStreams, Removing;
    if st < |v.transports| {
      GentleCalls(v, st);
      GentleLeaves(v, st);
    }
  }

  lemma GentleCalls(v: View, st: nat)
    requires Gentle(v) && st < |v.transports|
    ensures v.transports[st].phase == Serving ==> Gentle(Calls(v, st))
    ensures v.transports[st].phase.Calling? ==> Gentle(Dispatching(v, st))
  {
    hide AllOpen, Forced, MoveIn;
    GentleMove(v, st, Calling(v.nextHandler));
    GentleMove(v, st, Serving);
  }

  lemma GentleMove(v: View, st: nat, p: Phase)
    requires Gentle(v) && st < |v.transports| && (p.Calling? || p == Serving)
    ensures v.transports[st].phase == Serving || v.transports[st].phase.Calling? ==> Gentle(MoveIn(v, st, p))
  {
    hide Forced;
  }

  lemma GentleLeaves(v: View, st: nat)
    requires Gentle(v) && st < |v.transports|
    ensures Gentle(EndingStreams(v, st)) && Gentle(Removing(v, st))
  {
    hide AllOpen, Forced, Remove;
    LeaveOpen(v.transports, st, Forced(v.stoppers));
  }

  lemma GentleStop(v: View, k: nat)
    requires Gentle(v)
    ensures Gentle(NextStop(v, k))
  {
    hide Gentle, Deafened, Draining, Emptying, StopAt;
    if k < |v.stoppers| {
      GentleSweep(v, k);
      GentlePhase(v, k);
    }
  }

  /** A stop call goes on to phase `p`. */
  lemma ForcedBy(stoppers: seq<Stopper>, k: nat, p: StopPhase)
    requires k < |stoppers|
    ensures var after := stoppers[k := stoppers[k].(phase := p)];
            && (Forces(stoppers[k]) == Forces(after[k]) ==> Forced(after) == Forced(stoppers))
            && (Forces(after[k]) ==> Forced(after))
  {
    var after := stoppers[k := stoppers[k].(phase := p)];
    assert forall j :: 0 <= j < |stoppers| && j != k ==> after[j] == stoppers[j];
    if j :| 0 <= j < |stoppers| && Forces(stoppers[j]) {
      assert j != k ==> Forces(after[j]);
    }
    if j :| 0 <= j < |after| && Forces(after[j]) {
      assert j != k ==> Forces(stoppers[j]);
    }
  }

  lemma GentlePhase(v: View, k: nat)
    requires Gentle(v) && k < |v.stoppers|
    ensures v.stoppers[k].phase == AwaitLock ==> Gentle(Deafened(v, k))
    ensures v.stoppers[k].phase == AwaitConns ==> Gentle(Emptying(v, k))
    ensures v.stoppers[k].phase == AwaitHandlers ==> Gentle(StopAt(v, k, Returned))
  {
    hide Forced, AllOpen, StopAt;
    GentleStopAt(v, k, AwaitServe);
    GentleStopAt(v, k, AwaitHandlers);
    GentleStopAt(v, k, Returned);
  }

  lemma GentleStopAt(v: View, k: nat, p: StopPhase)
    requires Gentle(v) && k < |v.stoppers|
    ensures Forces(v.stoppers[k]) == Forces(v.stoppers[k].(phase := p)) ==> Gentle(StopAt(v, k, p))
  {
    hide Forced, AllOpen;
    ForcedBy(v.stoppers, k, p);
  }

  /** A Stop closes every transport in the table; a GracefulStop closes only those of HTTP handlers, by draining
      them. */
  lemma SweepCloses(conns: Option<Conns>, transports: seq<Transport>, graceful: bool)
    ensures var after := Swept(conns, transports, graceful);
            && |after| == |transports|
            && forall t {:trigger after[t]} :: 0 <= t < |after| ==>
                 && after[t] == transports[t].(drains := after[t].drains, closed := after[t].closed)
                 && var swept := Holds(conns, transports[t].addr, t);
                 && (after[t].closed <==> transports[t].closed || (swept && (graceful ==> transports[t].http)))
                 && after[t].drains == transports[t].drains + if graceful && swept then 1 else 0
  {
    hide Holds;
  }

  lemma SweepOpen(conns: Option<Conns>, transports: seq<Transport>, graceful: bool, forced: bool)
    requires AllOpen(transports, forced)
    ensures AllOpen(Swept(conns, transports, graceful), forced || !graceful)
  {
    hide Holds;
  }

  lemma GentleSweep(v: View, k: nat)
    requires Gentle(v) && k < |v.stoppers|
    ensures v.stoppers[k].phase == AwaitServe ==> Gentle(Draining(v, k))
  {
    hide Forced, AllOpen, Swept;
    ForcedBy(v.stoppers, k, AwaitConns);
    SweepOpen(v.conns, v.transports, v.stoppers[k].graceful, Forced(v.stoppers));
    Weaken(v.transports, Forced(v.stoppers));
  }

  lemma Weaken(transports: seq<Transport>, forced: bool)
    requires AllOpen(transports, forced)
    ensures AllOpen(transports, true)
  {
  }

  // ---------------------------------------------------------------- stopping ends

  lemma RunOne(v: View, steps: seq<Step>, step: Step)
    ensures Run(v, []) == v && Run(v, steps + [step]) == Next(Run(v, steps), step)
  {
    assert (steps + [step])[..|steps|] == steps;
  }

  /** The steps of a transport's goroutine, and of a stop call, while they can be taken. */
  lemma ServeSteps(v: View, st: nat)
    requires st < |v.transports|
    ensures v.transports[st].phase.Calling? ==> Next(v, DoDispatch(st)) == Dispatching(v, st)
    ensures v.transports[st].phase == Serving ==> Next(v, DoEndStreams(st)) == EndingStreams(v, st)
    ensures v.transports[st].phase == Leaving ==> Next(v, DoRemoveConn(st)) == Removing(v, st)
  {
    hide Dispatching, EndingStreams, Removing, Calls;
  }

  lemma StopSteps(v: View, k: nat)
    requires k < |v.stoppers|
    ensures v.stoppers[k].phase == AwaitLock ==> Next(v, StopAdvances(k)) == Deafened(v, k)
    ensures v.stoppers[k].phase == AwaitServe && v.serveWG == 0 ==> Next(v, StopAdvances(k)) == Draining(v, k)
    ensures v.stoppers[k].phase == AwaitConns ==> Next(v, StopAdvances(k)) == Emptying(v, k)
    ensures v.stoppers[k].phase == AwaitHandlers && v.handlersWG == 0 ==>
              Next(v, StopAdvances(k)) == StopAt(v, k, Returned)
  {
    hide Deafened, Draining, Emptying, StopAt;
  }

  /** Whatever a server has reached, there are steps that bring a call of `stop` that is under way to its end: accept
      loops and handshakes end, streams and handlers finish, and no step it waits for is missing. */
  method CanFinish(s: Server, k: nat) returns (ghost steps: seq<Step>)
    requires s.Valid() && k < |s.stoppers|
    modifies s
    ensures s.Valid() && s.Look() == Run(old(s.Look()), steps)
    ensures k < |s.stoppers| && s.stoppers[k].phase == Returned
  {
    hide Server.Valid, Run, Next, Emptying, StopAt;
    ghost var start := s.Look();
    RunOne(start, [], DoServe);
    steps := PassServe(s, k, start, []);
    steps := EndTransports(s, start, steps);
    steps := PassConns(s, k, start, steps);
    steps := EndHandlers(s, start, steps);
    if s.stoppers[k].phase == AwaitHandlers {
      RunOne(start, steps, StopAdvances(k));
      StopSteps(s.Look(), k);
      s.AfterHandlers(k);
      steps := steps + [StopAdvances(k)];
    }
  }

  method PassConns(s: Server, k: nat, ghost start: View, ghost before: seq<Step>) returns (ghost steps: seq<Step>)
    requires s.Valid() && k < |s.stoppers| && s.stoppers[k].phase != AwaitLock && s.stoppers[k].phase != AwaitServe
    requires s.Look() == Run(start, before) && forall t :: 0 <= t < |s.transports| ==> s.transports[t].phase == Gone
    modifies s`conns, s`channelClosed, s`stoppers
    ensures s.Valid() && s.Look() == Run(start, steps)
    ensures k < |s.stoppers| && (s.stoppers[k].phase == AwaitHandlers || s.stoppers[k].phase == Returned)
  {
    hide Server.Valid, Run, Next, Emptying;
    steps := before;
    TableEmpty(s);
    if s.stoppers[k].phase == AwaitConns {
      RunOne(start, steps, StopAdvances(k));
      StopSteps(s.Look(), k);
      s.AfterConns(k);
      steps := steps + [StopAdvances(k)];
    }
  }

  method PassServe(s: Server, k: nat, ghost start: View, ghost before: seq<Step>) returns (ghost steps: seq<Step>)
    requires s.Valid() && k < |s.stoppers| && s.Look() == Run(start, before)
    modifies s
    ensures s.Valid() && s.Look() == Run(start, steps)
    ensures k < |s.stoppers| && s.stoppers[k].phase != AwaitLock && s.stoppers[k].phase != AwaitServe
  {
    hide ConnsOK, CallsOK, DrainedOK, StopsOK, Swept, Run, Next, Deafened, Draining;
    steps := EndAccepting(s, k, start, before);
    if s.stoppers[k].phase == AwaitLock {
      RunOne(start, steps, StopAdvances(k));
      StopSteps(s.Look(), k);
      s.CloseListeners(k);
      steps := steps + [StopAdvances(k)];
    }
    if s.stoppers[k].phase == AwaitServe {
      RunOne(start, steps, StopAdvances(k));
      StopSteps(s.Look(), k);
      s.AfterServe(k);
      steps := steps + [StopAdvances(k)];
    }
  }

  method EndAccepting(s: Server, k: nat, ghost start: View, ghost before: seq<Step>) returns (ghost steps: seq<Step>)
    requires s.Valid() && k < |s.stoppers| && s.Look() == Run(start, before)
    modifies s`serveWG, s`loops, s`accepted, s`shaking, s`handedOver
    ensures s.Valid() && s.serveWG == 0 && s.Look() == Run(start, steps)
  {
    hide ConnsOK, CallsOK, DrainedOK, StopsOK, Run, Next;
    steps := EndLoops(s, start, before);
    steps := EndHandshakes(s, start, steps);
  }

  method EndLoops(s: Server, ghost start: View, ghost before: seq<Step>) returns (ghost steps: seq<Step>)
    requires s.Valid() && s.Look() == Run(start, before)
    modifies s`serveWG, s`loops, s`handedOver
    ensures s.Valid() && s.handedOver == 0 && s.loops == 0 && s.Look() == Run(start, steps)
  {
    hide Server.Valid, Run, EndingRawConn, EndingLoop, NextServe, NextStop;
    steps := before;
    while s.handedOver > 0
      invariant s.Valid() && s.Look() == Run(start, steps)
    {
      RunOne(start, steps, DoEndRawConn);
      s.EndRawConn();
      steps := steps + [DoEndRawConn];
    }
    while s.loops > 0
      invariant s.Valid() && s.handedOver == 0 && s.Look() == Run(start, steps)
    {
      RunOne(start, steps, DoEndLoop);
      s.EndLoop();
      steps := steps + [DoEndLoop];
    }
  }

  method EndHandshakes(s: Server, ghost start: View, ghost before: seq<Step>) returns (ghost steps: seq<Step>)
    requires s.Valid() && s.Look() == Run(start, before)
    modifies s`serveWG, s`accepted, s`shaking
    ensures s.Valid() && s.accepted == 0 && s.shaking == 0 && s.Look() == Run(start, steps)
  {
    hide Server.Valid, Run, HandlingRawConn, FailingHandshake, NextServe, NextStop;
    steps := before;
    while s.accepted > 0
      invariant s.Valid() && s.Look() == Run(start, steps)
    {
      RunOne(start, steps, DoRawConn);
      s.HandleRawConn();
      steps := steps + [DoRawConn];
    }
    while s.shaking > 0
      invariant s.Valid() && s.accepted == 0 && s.Look() == Run(start, steps)
    {
      RunOne(start, steps, DoHandshake(false, 0));
      s.HandshakeFails();
      steps := steps + [DoHandshake(false, 0)];
    }
  }

  method EndTransports(s: Server, ghost start: View, ghost before: seq<Step>) returns (ghost steps: seq<Step>)
    requires s.Valid() && s.Look() == Run(start, before)
    modifies s`transports, s`conns, s`panicked
    ensures s.Valid() && (forall t :: 0 <= t < |s.transports| ==> s.transports[t].phase == Gone)
    ensures (s.conns.Some? <==> old(s.conns).Some?) && s.Look() == Run(start, steps)
  {
    hide ConnsOK, CallsOK, DrainedOK, StopsOK, Run;
    steps := before;
    for t := 0 to |s.transports|
      invariant s.Valid() && |s.transports| == |old(s.transports)| && s.Look() == Run(start, steps)
      invariant s.conns.Some? <==> old(s.conns).Some?
      invariant forall u :: 0 <= u < t ==> s.transports[u].phase == Gone
    {
      steps := EndTransport(s, t, start, steps);
    }
  }

  method EndTransport(s: Server, t: nat, ghost start: View, ghost before: seq<Step>) returns (ghost steps: seq<Step>)
    requires s.Valid() && t < |s.transports| && s.Look() == Run(start, before)
    modifies s`transports, s`conns, s`panicked
    ensures s.Valid() && s.Look() == Run(start, steps) && (s.conns.Some? <==> old(s.conns).Some?)
    ensures |s.transports| == |old(s.transports)| && s.transports[t].phase == Gone
    ensures forall u :: 0 <= u < |s.transports| && u != t ==> s.transports[u] == old(s.transports)[u]
  {
    hide Server.Valid, Run, Next, Removing;
    steps := EndService(s, t, start, before);
    if s.transports[t].phase == Leaving {
      RunOne(start, steps, DoRemoveConn(t));
      ServeSteps(s.Look(), t);
      s.RemoveConn(t);
      steps := steps + [DoRemoveConn(t)];
    }
  }

  method EndService(s: Server, t: nat, ghost start: View, ghost before: seq<Step>) returns (ghost steps: seq<Step>)
    requires s.Valid() && t < |s.transports| && s.Look() == Run(start, before)
    modifies s`transports, s`panicked
    ensures s.Valid() && s.Look() == Run(start, steps)
    ensures |s.transports| == |old(s.transports)| && (s.transports[t].phase == Leaving || s.transports[t].phase == Gone)
    ensures forall u :: 0 <= u < |s.transports| && u != t ==> s.transports[u] == old(s.transports)[u]
  {
    hide Server.Valid, Run, Next, Dispatching, EndingStreams;
    steps := before;
    if s.transports[t].phase.Calling? {
      RunOne(start, steps, DoDispatch(t));
      ServeSteps(s.Look(), t);
      s.Dispatch(t);
      steps := steps + [DoDispatch(t)];
    }
    if s.transports[t].phase == Serving {
      RunOne(start, steps, DoEndStreams(t));
      ServeSteps(s.Look(), t);
      s.EndStreams(t);
      steps := steps + [DoEndStreams(t)];
    }
  }

  method EndHandlers(s: Server, ghost start: View, ghost before: seq<Step>) returns (ghost steps: seq<Step>)
    requires s.Valid() && (forall t :: 0 <= t < |s.transports| ==> s.transports[t].phase == Gone)
    requires s.Look() == Run(start, before)
    modifies s`handlersWG, s`handlers
    ensures s.Valid() && s.handlers == {} && s.handlersWG == 0 && s.Look() == Run(start, steps)
  {
    hide ConnsOK, CallsOK, DrainedOK, StopsOK, Run, Returning;
    steps := before;
    while s.handlers != {}
      invariant s.Valid() && s.Look() == Run(start, steps)
      decreases s.handlers
    {
      var h :| h in s.handlers;
      RunOne(start, steps, DoHandlerReturns(h));
      s.HandlerReturns(h);
      steps := steps + [DoHandlerReturns(h)];
    }
  }

  /** Without transports the table has no addresses. */
  lemma TableEmpty(s: Server)
    requires s.Valid() && forall t :: 0 <= t < |s.transports| ==> s.transports[t].phase == Gone
    ensures s.conns.Some? ==> s.conns.value == map[]
  {
    if s.conns.Some? && s.conns.value != map[] {
      var a :| a in s.conns.value;
      var t :| t in s.conns.value[a];
      assert Holds(s.conns, a, t);
    }
  }
}
