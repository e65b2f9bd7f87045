/** The health service (`health/server.go`): the status of every service, and watchers that learn of changes through
    a channel with one slot, in which a newer status replaces one not yet taken.  Critical sections of `s.mu` and
    channel operations come in any order; a setter, which holds the lock throughout, takes one step for each service,
    and for each watcher one that empties the slot and one that fills it, so that watchers may receive in between. */
module Health {

  import opened Wrappers

  datatype Status = UNKNOWN | SERVING | NOT_SERVING | SERVICE_UNKNOWN

  type Service = string

  /** A call of `Watch`: its channel, the last status it took from there, and what it sent to its client. */
  datatype Watcher = Watcher(service: Service, slot: Option<Status>, taken: Option<Status>, sent: seq<Status>,
      ended: bool)

  type Statuses = map<Service, Status>

  type Updates = map<Service, set<nat>>

  function Current(statuses: Statuses, service: Service): Status {
    if service in statuses then statuses[service] else SERVICE_UNKNOWN
  }

  predicate Registered(updates: Updates, service: Service, w: nat) {
    service in updates && w in updates[service]
  }

  /** Nothing is sent twice in a row, and the last status sent is the last one taken. */
  ghost predicate SentOK(w: Watcher) {
    && (forall i :: 1 <= i < |w.sent| ==> w.sent[i] != w.sent[i - 1])
    && w.taken == if w.sent == [] then None else Some(w.sent[|w.sent| - 1])
  }

  /** The pending update, or else the last status taken, is the current one. */
  predicate UpToDate(w: Watcher, now: Status) {
    if w.slot.Some? then w.slot.value == now else w.taken == Some(now)
  }

  ghost predicate AllSentOK(watchers: seq<Watcher>) {
    forall i {:trigger watchers[i]} :: 0 <= i < |watchers| ==> SentOK(watchers[i])
  }

  /** The lock: free, or held by a setter that still has to set these services, to tell these watchers of the last
      one set, and to fill the slot it emptied. */
  datatype Lock = Free | Held(status: Status, services: set<Service>, todo: set<nat>, drained: Option<nat>)

  /** The setter has yet to tell the watcher. */
  predicate Untold(lock: Lock, w: nat) {
    lock.Held? && (w in lock.todo || lock.drained == Some(w))
  }

  /** Every registered watcher is up to date, but those the setter at work has yet to tell. */
  ghost predicate AllUpToDate(watchers: seq<Watcher>, updates: Updates, statuses: Statuses, lock: Lock) {
    forall i {:trigger watchers[i]} ::
      0 <= i < |watchers| && Registered(updates, watchers[i].service, i) && !Untold(lock, i) ==>
        UpToDate(watchers[i], Current(statuses, watchers[i].service))
  }

  /** Those it has yet to tell watch a service that has the new status; a slot that it emptied is still empty. */
  ghost predicate LockOK(watchers: seq<Watcher>, statuses: Statuses, lock: Lock) {
    && (forall w: nat :: Untold(lock, w) ==> w < |watchers| && Current(statuses, watchers[w].service) == lock.status)
    && (lock.Held? && lock.drained.Some? ==>
          && lock.drained.value < |watchers| && watchers[lock.drained.value].slot.None?
          && lock.drained.value !in lock.todo)
  }

  /** Watchers are registered under their service, and no service has an empty entry. */
  ghost predicate UpdatesOK(watchers: seq<Watcher>, updates: Updates) {
    && (forall s, w: nat :: Registered(updates, s, w) ==> w < |watchers| && watchers[w].service == s)
    && (forall s :: s in updates ==> updates[s] != {})
  }

  /** One watcher more, and one less: a service goes with its last watcher. */
  function Joined(updates: Updates, service: Service, w: nat): Updates {
    updates[service := (if service in updates then updates[service] else {}) + {w}]
  }

  function Left(updates: Updates, service: Service, w: nat): Updates {
    if service !in updates then updates
    else if updates[service] == {w} then updates - {service}
    else updates[service := updates[service] - {w}]
  }

  lemma JoinedKeeps(watchers: seq<Watcher>, updates: Updates, x: Watcher)
    requires UpdatesOK(watchers, updates)
    ensures var after := Joined(updates, x.service, |watchers|);
            && UpdatesOK(watchers + [x], after)
            && forall s, v: nat :: Registered(after, s, v) <==>
                 Registered(updates, s, v) || (s == x.service && v == |watchers|)
  {
    var after := Joined(updates, x.service, |watchers|);
    forall s, v: nat
      ensures Registered(after, s, v) <==> Registered(updates, s, v) || (s == x.service && v == |watchers|)
    {
    }
  }

  lemma LeftKeeps(watchers: seq<Watcher>, updates: Updates, w: nat)
    requires UpdatesOK(watchers, updates) && w < |watchers| && Registered(updates, watchers[w].service, w)
    ensures var after := Left(updates, watchers[w].service, w);
            && UpdatesOK(watchers, after)
            && forall s, v: nat :: Registered(after, s, v) <==> Registered(updates, s, v) && v != w
  {
    var service := watchers[w].service;
    var after := Left(updates, service, w);
    forall s, v: nat
      ensures Registered(after, s, v) <==> Registered(updates, s, v) && v != w
    {
      assert Registered(updates, s, v) ==> v < |watchers| && watchers[v].service == s;
    }
    assert updates[service] - {w} == {} ==> updates[service] == {w};
  }

  /** While shut down, every known service is NOT_SERVING, or the setter at work is about to make it so. */
  ghost predicate DownOK(shutdown: bool, statuses: Statuses, lock: Lock) {
    shutdown ==>
      && (forall s :: s in statuses ==> statuses[s] == NOT_SERVING || (lock.Held? && s in lock.services))
      && (lock.Held? ==> lock.status == NOT_SERVING)
  }

  /** The watchers of a service, and of several. */
  function Listening(updates: Updates, service: Service): set<nat> {
    if service in updates then updates[service] else {}
  }

  function Listeners(updates: Updates, services: set<Service>): set<nat> {
    set s, w | s in services && s in updates && w in updates[s] :: w
  }

  /** The watchers in `ws` have the status in their channel; nothing else changed. */
  function Told(watchers: seq<Watcher>, ws: set<nat>, status: Status): seq<Watcher> {
    seq(|watchers|, i requires 0 <= i < |watchers| =>
      if i in ws then watchers[i].(slot := Some(status)) else watchers[i])
  }

  ghost predicate WatchersOK(watchers: seq<Watcher>, updates: Updates, statuses: Statuses, lock: Lock) {
    && UpdatesOK(watchers, updates) && AllSentOK(watchers) && AllUpToDate(watchers, updates, statuses, lock)
    && LockOK(watchers, statuses, lock)
  }

  /** One watcher changes, and stays up to date if it has been told. */
  lemma OneKeeps(watchers: seq<Watcher>, updates: Updates, statuses: Statuses, lock: Lock, w: nat, x: Watcher)
    requires WatchersOK(watchers, updates, statuses, lock) && w < |watchers|
    requires x.service == watchers[w].service && SentOK(x) && (watchers[w].slot.None? ==> x.slot.None?)
    requires !Untold(lock, w) && Registered(updates, x.service, w) ==> UpToDate(x, Current(statuses, x.service))
    ensures WatchersOK(watchers[w := x], updates, statuses, lock)
  {
    hide SentOK, UpToDate, Current, Registered;
  }

  lemma ReceiveKeeps(watchers: seq<Watcher>, updates: Updates, statuses: Statuses, lock: Lock, w: nat, fails: bool)
    requires WatchersOK(watchers, updates, statuses, lock) && w < |watchers| && watchers[w].slot.Some?
    ensures WatchersOK(watchers[w := Received(watchers[w], fails)], updates, statuses, lock)
  {
    hide UpdatesOK, LockOK;
    var x := watchers[w];
    assert SentOK(x);
    if x.slot == x.taken {
      assert x.sent + [] == x.sent;
    }
    OneKeeps(watchers, updates, statuses, lock, w, Received(x, fails));
  }

  /** The next service gets its status: its watchers have yet to be told, and all others are as up to date as before. */
  lemma NextServiceKeeps(watchers: seq<Watcher>, updates: Updates, statuses: Statuses, lock: Lock, s: Service)
    requires WatchersOK(watchers, updates, statuses, lock)
    requires lock.Held? && lock.todo == {} && lock.drained.None?
    ensures WatchersOK(watchers, updates, statuses[s := lock.status],
                       lock.(services := lock.services - {s}, todo := Listening(updates, s)))
  {
    hide SentOK, UpToDate;
    var lock' := lock.(services := lock.services - {s}, todo := Listening(updates, s));
    forall w: nat | Untold(lock', w)
      ensures w < |watchers| && watchers[w].service == s
    {
      assert Registered(updates, s, w);
    }
    forall i | 0 <= i < |watchers| && Registered(updates, watchers[i].service, i) && !Untold(lock', i)
      ensures UpToDate(watchers[i], Current(statuses[s := lock.status], watchers[i].service))
    {
      assert watchers[i].service != s && !Untold(lock, i);
    }
  }

  lemma DrainKeeps(watchers: seq<Watcher>, updates: Updates, statuses: Statuses, lock: Lock, w: nat)
    requires WatchersOK(watchers, updates, statuses, lock)
    requires lock.Held? && w in lock.todo && lock.drained.None?
    ensures w < |watchers|
    ensures WatchersOK(watchers[w := watchers[w].(slot := None)], updates, statuses,
                       lock.(todo := lock.todo - {w}, drained := Some(w)))
  {
    hide UpToDate, Current;
    assert Untold(lock, w) && SentOK(watchers[w]);
    OneKeeps(watchers, updates, statuses, lock, w, watchers[w].(slot := None));
    var lock' := lock.(todo := lock.todo - {w}, drained := Some(w));
    assert forall v: nat :: Untold(lock', v) <==> Untold(lock, v);
  }

  lemma PutKeeps(watchers: seq<Watcher>, updates: Updates, statuses: Statuses, lock: Lock)
    requires WatchersOK(watchers, updates, statuses, lock) && lock.Held? && lock.drained.Some?
    ensures var w := lock.drained.value;
            && w < |watchers|
            && WatchersOK(watchers[w := watchers[w].(slot := Some(lock.status))], updates, statuses,
                 lock.(drained := None))
  {
    hide Current, Registered;
    var w := lock.drained.value;
    assert Untold(lock, w) && SentOK(watchers[w]);
    var after, lock' := watchers[w := watchers[w].(slot := Some(lock.status))], lock.(drained := None);
    assert forall v: nat :: Untold(lock', v) <==> Untold(lock, v) && v != w;
    assert SentOK(after[w]) && UpToDate(after[w], lock.status);
  }

  /** A watcher that took the pending update: it has sent it unless it was the last one sent, and a failed send ended
      it. */
  function Received(x: Watcher, sendFails: bool): Watcher
    requires x.slot.Some?
  {
    var news := x.slot != x.taken;
    var sent := x.sent + if news then [x.slot.value] else [];
    x.(slot := None, taken := x.slot, sent := sent, ended := news && sendFails)
  }

  /** A watcher sends what it took exactly if it differs from what it took before, and ends exactly if that send
      fails. */
  lemma ReceivedMeans(x: Watcher, sendFails: bool)
    requires x.slot.Some?
    ensures var y := Received(x, sendFails);
            && y.service == x.service && y.slot.None? && y.taken == x.slot
            && (if x.taken == x.slot then y.sent == x.sent else y.sent == x.sent + [x.slot.value])
            && (y.ended <==> sendFails && |y.sent| > |x.sent|)
  {
  }

  class Server {
    var shutdown: bool
    var statusMap: Statuses
    var updates: Updates
    var watchers: seq<Watcher>
    var lock: Lock

    ghost predicate Valid()
      reads this
    {
      WatchersOK(watchers, updates, statusMap, lock) && DownOK(shutdown, statusMap, lock)
    }

    function Look(blocked: bool): View
      reads this
    {
      View(shutdown, statusMap, updates, watchers, lock, blocked)
    }

    constructor ()
      ensures Valid() && Look(false) == Init()
      ensures !shutdown && statusMap == map["" := SERVING] && updates == map[] && watchers == [] && lock.Free?
    {
      shutdown, statusMap, updates, watchers, lock := false, map["" := SERVING], map[], [], Free;
    }

    method Check(service: Service) returns (r: Option<Status>)
      requires Valid() && lock.Free?
      ensures r == if service in statusMap then Some(statusMap[service]) else None
      ensures shutdown && r.Some? ==> r.value == NOT_SERVING
    {
      if service in statusMap {
        return Some(statusMap[service]);
      }
      r := None;
    }

    /** A watcher registers with the current status in its channel. */
    method Watch(service: Service) returns (w: nat)
      requires Valid() && lock.Free?
      modifies this`updates, this`watchers
      ensures Valid() && w == |old(watchers)|
      ensures watchers == old(watchers) + [Watcher(service, Some(Current(statusMap, service)), None, [], false)]
      ensures watchers[w].slot == Some(if service in statusMap then statusMap[service] else SERVICE_UNKNOWN)
      ensures updates == Joined(old(updates), service, w)
      ensures forall s, v: nat :: Registered(updates, s, v) <==>
                Registered(old(updates), s, v) || (s == service && v == w)
    {
      w := |watchers|;
      var status := if service in statusMap then statusMap[service] else SERVICE_UNKNOWN;
      var x := Watcher(service, Some(status), None, [], false);
      JoinedKeeps(watchers, updates, x);
      hide Joined, UpdatesOK, Registered;
      updates := Joined(updates, service, w);
      watchers := watchers + [x];
    }

    /** The watcher takes the pending update, and sends it unless it was the last one sent.  A failed send ends it. */
    method Receive(w: nat, sendFails: bool)
      requires Valid() && w < |watchers| && watchers[w].slot.Some? && !watchers[w].ended
      modifies this`watchers
      ensures Valid() && watchers == old(watchers)[w := Received(old(watchers)[w], sendFails)]
    {
      hide WatchersOK, DownOK;
      var x := watchers[w];
      var status := x.slot.value;
      ReceiveKeeps(watchers, updates, statusMap, lock, w, sendFails);
      if x.taken == Some(status) {
        assert x.sent + [] == x.sent;
        watchers := watchers[w := x.(slot := None)];
        return;
      }
      watchers := watchers[w := x.(slot := None, taken := Some(status), sent := x.sent + [status], ended := sendFails)];
    }

    method ContextDone(w: nat)
      requires Valid() && w < |watchers|
      modifies this`watchers
      ensures Valid() && watchers == old(watchers)[w := old(watchers)[w].(ended := true)]
    {
      watchers := watchers[w := watchers[w].(ended := true)];
    }

    method Unregister(w: nat)
      requires Valid() && lock.Free? && w < |watchers| && Registered(updates, watchers[w].service, w)
      modifies this`updates
      ensures Valid()
      ensures updates == Left(old(updates), watchers[w].service, w)
      ensures forall s, v: nat :: Registered(updates, s, v) <==> Registered(old(updates), s, v) && v != w
    {
      LeftKeeps(watchers, updates, w);
      hide Left, UpdatesOK, Registered;
      updates := Left(updates, watchers[w].service, w);
    }

    /** A setter takes the lock, and gives up once the server is shut down. */
    method SetServingStatus(service: Service, status: Status)
      requires Valid() && lock.Free?
      modifies this`lock
      ensures Valid() && lock == if shutdown then Free else Held(status, {service}, {}, None)
    {
      if shutdown {
        return;
      }
      lock := Held(status, {service}, {}, None);
    }

    /** `Shutdown` and `Resume`: every known service to one status. */
    method SetAll(down: bool)
      requires Valid() && lock.Free?
      modifies this`shutdown, this`lock
      ensures Valid() && shutdown == down
      ensures lock == Held(if down then NOT_SERVING else SERVING, statusMap.Keys, {}, None)
    {
      shutdown := down;
      lock := Held(if down then NOT_SERVING else SERVING, statusMap.Keys, {}, None);
    }

    /** The beginning of `setServingStatusLocked`: the status is set, and the loop over the watchers lies ahead. */
    method SetServingStatusLocked(service: Service)
      requires Valid() && lock.Held? && service in lock.services && lock.todo == {} && lock.drained.None?
      modifies this`statusMap, this`lock
      ensures Valid() && statusMap == old(statusMap)[service := old(lock).status]
      ensures lock == old(lock).(services := old(lock).services - {service}, todo := Listening(updates, service))
    {
      hide WatchersOK;
      NextServiceKeeps(watchers, updates, statusMap, lock, service);
      statusMap := statusMap[service := lock.status];
      lock := lock.(services := lock.services - {service}, todo := Listening(updates, service));
    }

    /** Clears an update the watcher has not taken. */
    method Drain(w: nat)
      requires Valid() && lock.Held? && w in lock.todo && lock.drained.None?
      modifies this`watchers, this`lock
      ensures Valid() && w < |old(watchers)| && watchers == old(watchers)[w := old(watchers)[w].(slot := None)]
      ensures lock == old(lock).(todo := old(lock).todo - {w}, drained := Some(w))
    {
      hide WatchersOK, DownOK;
      DrainKeeps(watchers, updates, statusMap, lock, w);
      DownKeeps(shutdown, statusMap, lock);
      watchers := watchers[w := watchers[w].(slot := None)];
      lock := lock.(todo := lock.todo - {w}, drained := Some(w));
    }

    /** Puts the new status into the channel it emptied.  The send would block if the slot were taken; it never is. */
    method Put() returns (blocked: bool)
      requires Valid() && lock.Held? && lock.drained.Some?
      modifies this`watchers, this`lock
      ensures Valid() && !blocked && lock == old(lock).(drained := None)
      ensures var w := old(lock).drained.value;
              w < |old(watchers)| && watchers == old(watchers)[w := old(watchers)[w].(slot := Some(old(lock).status))]
    {
      hide WatchersOK, DownOK;
      PutKeeps(watchers, updates, statusMap, lock);
      EmptySlot(watchers, updates, statusMap, lock);
      DownKeeps(shutdown, statusMap, lock);
      var w := lock.drained.value;
      blocked := watchers[w].slot.Some?;
      if !blocked {
        watchers := watchers[w := watchers[w].(slot := Some(lock.status))];
        lock := lock.(drained := None);
      }
    }

    method Unlock()
      requires Valid() && lock.Held? && lock.services == {} && lock.todo == {} && lock.drained.None?
      modifies this`lock
      ensures Valid() && lock.Free?
    {
      hide UpdatesOK, SentOK;
      lock := Free;
    }
  }

  lemma DownKeeps(shutdown: bool, statuses: Statuses, lock: Lock)
    requires DownOK(shutdown, statuses, lock) && lock.Held?
    ensures forall todo, drained :: DownOK(shutdown, statuses, Held(lock.status, lock.services, todo, drained))
  {
  }

  lemma EmptySlot(watchers: seq<Watcher>, updates: Updates, statuses: Statuses, lock: Lock)
    requires WatchersOK(watchers, updates, statuses, lock) && lock.Held? && lock.drained.Some?
    ensures lock.drained.value < |watchers| && watchers[lock.drained.value].slot.None?
  {
  }

  // ---------------------------------------------------------------- every run

  datatype Step =
    | DoWatch(service: Service)
    | DoReceive(w: nat, sendFails: bool)
    | DoContextDone(w: nat)
    | DoUnregister(w: nat)
    | DoSet(service: Service, status: Status)
    | DoSetAll(down: bool)
    | DoService(service: Service)
    | DoDrain(w: nat)
    | DoPut
    | DoUnlock

  /** `blocked`: a send of a setter would have blocked, with the lock held. */
  datatype View = View(
    shutdown: bool, statuses: Statuses, updates: Updates, watchers: seq<Watcher>, lock: Lock, blocked: bool)

  function Init(): View {
    View(false, map["" := SERVING], map[], [], Free, false)
  }

  predicate CanReceive(v: View, w: nat) {
    w < |v.watchers| && v.watchers[w].slot.Some? && !v.watchers[w].ended
  }

  predicate CanUnregister(v: View, w: nat) {
    v.lock.Free? && w < |v.watchers| && v.watchers[w].ended && Registered(v.updates, v.watchers[w].service, w)
  }

  /** The setter is between two services, or between two watchers. */
  predicate BetweenWatchers(lock: Lock) {
    lock.Held? && lock.drained.None?
  }

  predicate BetweenServices(lock: Lock) {
    BetweenWatchers(lock) && lock.todo == {}
  }

  /** What the setter that holds the lock does. */
  function NextSetting(v: View, step: Step): View {
    match step
    case DoService(service) =>
      if BetweenServices(v.lock) && service in v.lock.services then
        v.(statuses := v.statuses[service := v.lock.status],
           lock := v.lock.(services := v.lock.services - {service}, todo := Listening(v.updates, service)))
      else v
    case DoDrain(w) =>
      if BetweenWatchers(v.lock) && w in v.lock.todo && w < |v.watchers| then
        v.(watchers := v.watchers[w := v.watchers[w].(slot := None)],
           lock := v.lock.(todo := v.lock.todo - {w}, drained := Some(w)))
      else v
    case DoPut =>
      if v.lock.Held? && v.lock.drained.Some? && v.lock.drained.value < |v.watchers| then
        var w := v.lock.drained.value;
        if v.watchers[w].slot.Some? then v.(blocked := true)
        else
          v.(watchers := v.watchers[w := v.watchers[w].(slot := Some(v.lock.status))], lock := v.lock.(drained := None))
      else v
    case DoUnlock => if BetweenServices(v.lock) && v.lock.services == {} then v.(lock := Free) else v
    case _ => v
  }

  /** A step that cannot be taken changes nothing. */
  function Next(v: View, step: Step): View {
    match step
    case DoWatch(service) =>
      if !v.lock.Free? then v
      else
        v.(updates := Joined(v.updates, service, |v.watchers|),
           watchers := v.watchers + [Watcher(service, Some(Current(v.statuses, service)), None, [], false)])
    case DoReceive(w, sendFails) =>
      if CanReceive(v, w) then v.(watchers := v.watchers[w := Received(v.watchers[w], sendFails)]) else v
    case DoContextDone(w) =>
      if w < |v.watchers| then v.(watchers := v.watchers[w := v.watchers[w].(ended := true)]) else v
    case DoUnregister(w) => if CanUnregister(v, w) then v.(updates := Left(v.updates, v.watchers[w].service, w)) else v
    case DoSet(service, status) =>
      if v.lock.Free? && !v.shutdown then v.(lock := Held(status, {service}, {}, None)) else v
    case DoSetAll(down) =>
      if v.lock.Free?
      then v.(shutdown := down, lock := Held(if down then NOT_SERVING else SERVING, v.statuses.Keys, {}, None))
      else v
    case _ => NextSetting(v, step)
  }

  /** A send blocks exactly if its slot is taken, and then the setter stays where it is. */
  lemma BlocksExactly(v: View, step: Step)
    ensures Next(v, step).blocked <==>
              || v.blocked
              || (&& step.DoPut? && v.lock.Held? && v.lock.drained.Some? && v.lock.drained.value < |v.watchers|
                  && v.watchers[v.lock.drained.value].slot.Some?)
  {
  }

  function Run(v: View, steps: seq<Step>): View {
    if steps == [] then v else Next(Run(v, steps[..|steps| - 1]), steps[|steps| - 1])
  }

  /** One step of the object is that function of its fields, and no send blocks. */
  method Perform(s: Server, step: Step) returns (blocked: bool)
    requires s.Valid()
    modifies s
    ensures s.Valid() && !blocked && s.Look(blocked) == Next(old(s.Look(false)), step)
  {
    hide Server.Valid, Joined, Left, Registered, Listening, Received, Current, NextSetting;
    blocked := false;
    match step {
      case DoWatch(service) => if s.lock.Free? { var w := s.Watch(service); }
      case DoReceive(w, sendFails) =>
        if w < |s.watchers| && s.watchers[w].slot.Some? && !s.watchers[w].ended { s.Receive(w, sendFails); }
      case DoContextDone(w) => if w < |s.watchers| { s.ContextDone(w); }
      case DoUnregister(w) =>
        if s.lock.Free? && w < |s.watchers| && s.watchers[w].ended && Registered(s.updates, s.watchers[w].service, w) {
          s.Unregister(w);
        }
      case DoSet(service, status) => if s.lock.Free? { s.SetServingStatus(service, status); }
      case DoSetAll(down) => if s.lock.Free? { s.SetAll(down); }
      case _ => blocked := PerformSetting(s, step);
    }
  }

  method PerformSetting(s: Server, step: Step) returns (blocked: bool)
    requires s.Valid()
    modifies s
    ensures s.Valid() && !blocked && s.Look(blocked) == NextSetting(old(s.Look(false)), step)
  {
    hide Server.Valid, Listening;
    blocked := false;
    DrainedIsEmpty(s);
    if s.lock.Held? {
      match step {
        case DoService(service) =>
          if service in s.lock.services && s.lock.todo == {} && s.lock.drained.None? {
            s.SetServingStatusLocked(service);
          }
        case DoDrain(w) => if w in s.lock.todo && s.lock.drained.None? { s.Drain(w); }
        case DoPut => if s.lock.drained.Some? { blocked := s.Put(); }
        case DoUnlock =>
          if s.lock.services == {} && s.lock.todo == {} && s.lock.drained.None? { s.Unlock(); }
        case _ =>
      }
    }
  }

  lemma DrainedIsEmpty(s: Server)
    requires s.Valid()
    ensures s.lock.Held? && s.lock.drained.Some? ==>
              s.lock.drained.value < |s.watchers| && s.watchers[s.lock.drained.value].slot.None?
    ensures s.lock.Held? ==> forall w :: w in s.lock.todo ==> w < |s.watchers|
  {
    if s.lock.Held? {
      assert forall w :: w in s.lock.todo ==> Untold(s.lock, w);
    }
  }

  /** Every registered watcher's pending update, or else the last status it took, is current, unless a setter at work
      has yet to tell it; no watcher sent a status twice in a row; while shut down, every known service is
      NOT_SERVING or about to be; and no setter ever blocked. */
  ghost predicate Safe(v: View) {
    WatchersOK(v.watchers, v.updates, v.statuses, v.lock) && DownOK(v.shutdown, v.statuses, v.lock) && !v.blocked
  }

  /** The state any interleaving leads to is safe. */
  method AnyRun(steps: seq<Step>) returns (v: View)
    ensures v == Run(Init(), steps) && Safe(v)
  {
    hide Next, Safe, Server.Valid;
    var s := new Server();
    for i := 0 to |steps|
      invariant fresh(s) && s.Valid() && s.Look(false) == Run(Init(), steps[..i])
    {
      assert steps[..i + 1][..i] == steps[..i];
      var blocked := Perform(s, steps[i]);
    }
    assert steps[..|steps|] == steps;
    ValidIsSafe(s);
    v := s.Look(false);
  }

  lemma ValidIsSafe(s: Server)
    requires s.Valid()
    ensures Safe(s.Look(false))
  {
  }

  // ---------------------------------------------------------------- a setter comes to its end

  /** All services set, and their watchers told. */
  function Finished(v: View): View
    requires v.lock.Held?
  {
    var l := v.lock;
    var ws := l.todo + Listeners(v.updates, l.services) + if l.drained.Some? then {l.drained.value} else {};
    v.(statuses := v.statuses + map s | s in l.services :: l.status, watchers := Told(v.watchers, ws, l.status),
        lock := Free)
  }

  lemma RunOne(v: View, steps: seq<Step>, step: Step)
    ensures Run(v, []) == v && Run(v, steps + [step]) == Next(Run(v, steps), step)
  {
    assert (steps + [step])[..|steps|] == steps;
  }

  lemma {:induction false} RunOn(v: View, first: seq<Step>, more: seq<Step>)
    ensures Run(v, first + more) == Run(Run(v, first), more)
  {
    if more == [] {
      assert first + more == first;
    } else {
      var before := more[..|more| - 1];
      RunOn(v, first, before);
      assert (first + more)[..|first + more| - 1] == first + before;
    }
  }

  /** A setter is at work, and what it has to do can be done. */
  ghost predicate AtWork(v: View) {
    v.lock.Held? && UpdatesOK(v.watchers, v.updates) && LockOK(v.watchers, v.statuses, v.lock)
  }

  /** `w` is one step closer to the same end. */
  ghost predicate Closer(v: View, w: View)
    requires v.lock.Held?
  {
    && AtWork(w) && Finished(w) == Finished(v)
    && var l, l' := v.lock, w.lock;
       || l'.services < l.services
       || (l'.services == l.services && l'.todo < l.todo)
       || (l'.services == l.services && l'.todo == l.todo && l.drained.Some? && l'.drained.None?)
  }

  lemma ServiceCloser(v: View, service: Service)
    requires AtWork(v) && BetweenServices(v.lock) && service in v.lock.services
    ensures Closer(v, Next(v, DoService(service)))
  {
    hide Told, Listeners, Listening;
    var w := Next(v, DoService(service));
    ServiceFirst(v.updates, v.lock.services, service);
    assert Finished(w).statuses == Finished(v).statuses;
    assert {} + Listeners(v.updates, v.lock.services) + {} == w.lock.todo + Listeners(v.updates, w.lock.services) + {};
    assert LockOK(w.watchers, w.statuses, w.lock) by {
      ListeningWatch(v.watchers, v.updates, service);
    }
  }

  lemma ServiceFirst(updates: Updates, services: set<Service>, service: Service)
    requires service in services
    ensures Listeners(updates, services) == Listening(updates, service) + Listeners(updates, services - {service})
  {
  }

  lemma ListeningWatch(watchers: seq<Watcher>, updates: Updates, service: Service)
    requires UpdatesOK(watchers, updates)
    ensures forall w :: w in Listening(updates, service) ==> w < |watchers| && watchers[w].service == service
  {
    assert forall w :: w in Listening(updates, service) ==> Registered(updates, service, w);
  }

  lemma DrainCloser(v: View, x: nat)
    requires AtWork(v) && BetweenWatchers(v.lock) && x in v.lock.todo
    ensures Closer(v, Next(v, DoDrain(x)))
  {
    hide Listeners, Current;
    assert Untold(v.lock, x);
    var w := Next(v, DoDrain(x));
    assert forall y: nat :: Untold(w.lock, y) <==> Untold(v.lock, y);
    assert Finished(w).watchers == Finished(v).watchers;
  }

  lemma PutCloser(v: View)
    requires AtWork(v) && v.lock.drained.Some?
    ensures Closer(v, Next(v, DoPut))
  {
    hide Listeners, Current;
    var w := Next(v, DoPut);
    assert forall y: nat :: Untold(w.lock, y) ==> Untold(v.lock, y);
    assert Finished(w).watchers == Finished(v).watchers;
  }

  lemma UnlockFinishes(v: View)
    requires BetweenServices(v.lock) && v.lock.services == {}
    ensures Next(v, DoUnlock) == Finished(v)
  {
    assert Listeners(v.updates, v.lock.services) == {};
    assert Told(v.watchers, {}, v.lock.status) == v.watchers;
  }

  /** From every state with a setter at work, its own steps bring it to its end, whatever the order of the maps: it
      never waits for a watcher, and what it leaves is as if it had done everything at once. */
  lemma {:induction false} SetterFinishes(v: View) returns (steps: seq<Step>)
    requires AtWork(v)
    ensures Run(v, steps) == Finished(v)
    ensures forall k :: 0 <= k < |steps| ==>
              steps[k].DoService? || steps[k].DoDrain? || steps[k].DoPut? || steps[k].DoUnlock?
    decreases v.lock.services, v.lock.todo, if v.lock.drained.Some? then 1 else 0
  {
    hide Run, Next, Finished, UpdatesOK, LockOK;
    var step := DoUnlock;
    if v.lock.drained.Some? {
      step := DoPut;
      PutCloser(v);
    } else if w :| w in v.lock.todo {
      step := DoDrain(w);
      DrainCloser(v, w);
    } else if s :| s in v.lock.services {
      step := DoService(s);
      ServiceCloser(v, s);
    } else {
      UnlockFinishes(v);
    }
    RunOne(v, [], step);
    assert [] + [step] == [step];
    steps := [step];
    if !step.DoUnlock? {
      var more := SetterFinishes(Next(v, step));
      RunOn(v, [step], more);
      steps := [step] + more;
    }
  }

  /** A status that is set becomes the service's and reaches its watchers, unless the server is shut down: then
      nothing changes. */
  lemma SetTakesEffect(v: View, service: Service, status: Status) returns (steps: seq<Step>)
    requires v.lock.Free? && UpdatesOK(v.watchers, v.updates)
    ensures v.shutdown ==> Next(v, DoSet(service, status)) == v
    ensures !v.shutdown ==>
              var w := Run(Next(v, DoSet(service, status)), steps);
              && w.lock.Free? && !w.shutdown && w.statuses == v.statuses[service := status]
              && |w.watchers| == |v.watchers|
              && forall x: nat :: Registered(v.updates, service, x) ==> w.watchers[x].slot == Some(status)
  {
    steps := [];
    if !v.shutdown {
      steps := SetterFinishes(Next(v, DoSet(service, status)));
    }
  }

  /** Shutdown and Resume set every known service, and from then on statuses are ignored or taken. */
  lemma SetAllTakesEffect(v: View, down: bool) returns (steps: seq<Step>)
    requires v.lock.Free? && UpdatesOK(v.watchers, v.updates)
    ensures var w := Run(Next(v, DoSetAll(down)), steps);
            && w.lock.Free? && w.shutdown == down && w.statuses.Keys == v.statuses.Keys
            && forall s :: s in w.statuses ==> w.statuses[s] == if down then NOT_SERVING else SERVING
  {
    steps := SetterFinishes(Next(v, DoSetAll(down)));
  }
}
