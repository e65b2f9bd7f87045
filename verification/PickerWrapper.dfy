/** Picking a transport for each RPC while the balancer replaces pickers (`picker_wrapper.go`).  The pointer to the
    current picker generation is swapped atomically and the old generation's channel closed afterwards; RPCs load
    the pointer, call the picker, and wait on the channel, in any order. */
module PickerWrapper {

  import opened Wrappers

  /** A generation: whether it has a picker, and how often its channel was closed. */
  datatype Generation = Generation(picker: bool, closes: nat)

  /** What a picker call comes to. */
  datatype Outcome =
    | NoSubConn | StatusError(restricted: bool) | OtherError | Foreign | NotReady | IsReady(transport: nat)

  datatype Verdict =
    | Closing
    | DeadlineExceeded(lastPickErr: bool)
    | Canceled(lastPickErr: bool)
    | Dropped(internal: bool)
    | Unavailable
    | Picked(transport: nat, blocked: bool)

  datatype Phase = Top | Blocked | Asking | Done(verdict: Verdict)

  /** One RPC: the channel it knows, its local flags, and, for the specification, the generations it asked and
      whether it met one without a picker. */
  datatype Rpc = Rpc(
    failfast: bool, phase: Phase, ch: Option<nat>, lastPickErr: bool, pickBlocked: bool, asked: seq<nat>, metNone: bool)

  ghost predicate Increasing(s: seq<nat>) {
    forall i, j :: 0 <= i < j < |s| ==> s[i] < s[j]
  }

  /** The current generation's channel is open; every earlier one's is closed, once, or about to be. */
  ghost predicate GensOK(gens: seq<Generation>, current: Option<nat>, swappedOut: set<nat>) {
    && (current.Some? ==> current.value == |gens| - 1)
    && (forall g {:trigger gens[g]} :: 0 <= g < |gens| ==>
          && (current == Some(g) ==> gens[g].closes == 0 && g !in swappedOut)
          && (current != Some(g) ==> gens[g].closes == if g in swappedOut then 0 else 1))
    && (forall g :: g in swappedOut ==> g < |gens|)
  }

  /** The generations an RPC asked strictly advance, up to the channel it knows; it asks and waits only there.  It
      has been blocked when it asked a second generation, or one after meeting none. */
  ghost predicate RpcOK(r: Rpc, gens: seq<Generation>) {
    && Increasing(r.asked) && (r.ch.Some? ==> r.ch.value < |gens|)
    && (r.asked != [] ==> r.ch.Some? && r.asked[|r.asked| - 1] <= r.ch.value)
    && (forall i :: 0 <= i < |r.asked| ==> r.asked[i] < |gens| && gens[r.asked[i]].picker)
    && (r.phase == Blocked || r.phase == Asking ==> r.ch.Some?)
    && (r.ch.Some? <==> r.asked != [] || r.metNone) && (r.ch.None? ==> !r.pickBlocked)
    && (r.phase == Asking ==> r.asked != [] && (r.pickBlocked <==> |r.asked| > 1 || r.metNone))
    && (r.phase.Done? && r.phase.verdict.Picked? ==>
          r.asked != [] && (r.phase.verdict.blocked <==> |r.asked| > 1 || r.metNone))
  }

  ghost predicate RpcsOK(rpcs: seq<Rpc>, gens: seq<Generation>) {
    forall i {:trigger rpcs[i]} :: 0 <= i < |rpcs| ==> RpcOK(rpcs[i], gens)
  }

  lemma AskKeeps(r: Rpc, gens: seq<Generation>, g: nat)
    requires RpcOK(r, gens) && g == |gens| - 1 && gens[g].picker && r.ch != Some(g) && r.phase == Top
    ensures g !in r.asked
    ensures var blocked := r.pickBlocked || r.ch.Some?;
            RpcOK(r.(ch := Some(g), phase := Asking, asked := r.asked + [g], pickBlocked := blocked), gens)
  {
  }

  lemma ClosingKeeps(r: Rpc, gens: seq<Generation>)
    requires RpcOK(r, gens)
    ensures RpcOK(r.(phase := Done(Closing)), gens)
  {
  }

  lemma WaitKeeps(r: Rpc, gens: seq<Generation>, g: nat)
    requires RpcOK(r, gens) && g == |gens| - 1 && r.phase == Top
    ensures r.ch == Some(g) ==> RpcOK(r.(phase := Blocked), gens)
    ensures RpcOK(r.(ch := Some(g), metNone := true, phase := Blocked), gens)
  {
  }

  lemma RpcsUnaffected(rpcs: seq<Rpc>, gens: seq<Generation>, g: nat)
    requires RpcsOK(rpcs, gens) && g < |gens|
    ensures RpcsOK(rpcs, gens[g := gens[g].(closes := gens[g].closes + 1)])
  {
  }

  /** What becomes of an RPC that loads the pointer: it ends after `close`, waits for a generation without a picker
      and for one it asked before, and asks any other. */
  function Loaded(r: Rpc, gens: seq<Generation>, current: Option<nat>): Rpc {
    if current.None? || current.value >= |gens| then r.(phase := Done(Closing))
    else if !gens[current.value].picker then r.(ch := current, metNone := true, phase := Blocked)
    else if r.ch == current then r.(phase := Blocked)
    else
      var blocked := r.pickBlocked || r.ch.Some?;
      r.(ch := current, phase := Asking, asked := r.asked + [current.value], pickBlocked := blocked)
  }

  /** An RPC counts as blocked when it asked a second generation, or one after meeting none. */
  function Answered(r: Rpc, o: Outcome): Rpc {
    match o
    case NoSubConn => r.(phase := Top)
    case StatusError(restricted) => r.(phase := Done(Dropped(restricted)))
    case OtherError => if r.failfast then r.(phase := Done(Unavailable)) else r.(phase := Top, lastPickErr := true)
    case Foreign => r.(phase := Top)
    case NotReady => r.(phase := Top)
    case IsReady(t) => r.(phase := Done(Picked(t, |r.asked| > 1 || r.metNone)))
  }

  function Expired(r: Rpc, deadline: bool): Rpc {
    r.(phase := Done(if deadline then DeadlineExceeded(r.lastPickErr) else Canceled(r.lastPickErr)))
  }

  /** When an RPC asks, waits or ends as it loads the pointer. */
  lemma LoadedMeans(r: Rpc, gens: seq<Generation>, current: Option<nat>)
    requires current.Some? ==> current.value < |gens|
    ensures var l := Loaded(r, gens, current);
            && l.failfast == r.failfast && l.lastPickErr == r.lastPickErr
            && (l.phase == Done(Closing) <==> current.None?)
            && (l.phase == Asking <==> current.Some? && gens[current.value].picker && r.ch != current)
            && (l.phase == Blocked <==> current.Some? && (gens[current.value].picker ==> r.ch == current))
            && (current.Some? ==> l.ch == current)
            && (l.asked == if l.phase == Asking then r.asked + [current.value] else r.asked)
            && (l.pickBlocked <==> r.pickBlocked || (l.phase == Asking && r.ch.Some?))
            && (l.metNone <==> r.metNone || (current.Some? && !gens[current.value].picker))
  {
  }

  /** How each answer of a picker ends an RPC, or lets it go on. */
  lemma AnsweredMeans(r: Rpc, o: Outcome)
    ensures var a := Answered(r, o);
            && a == r.(phase := a.phase, lastPickErr := a.lastPickErr)
            && (forall t, b ::
                  a.phase == Done(Picked(t, b)) <==> o == IsReady(t) && (b <==> |r.asked| > 1 || r.metNone))
            && (forall i :: a.phase == Done(Dropped(i)) <==> o == StatusError(i))
            && (a.phase == Done(Unavailable) <==> o.OtherError? && r.failfast)
            && (a.phase == Top <==> o.NoSubConn? || o.Foreign? || o.NotReady? || (o.OtherError? && !r.failfast))
            && (a.lastPickErr <==> r.lastPickErr || (o.OtherError? && !r.failfast))
  {
  }

  /** The context's own error ends a waiting RPC, and tells whether the balancer had failed before. */
  lemma ExpiredMeans(r: Rpc, deadline: bool)
    ensures var e := Expired(r, deadline);
            && e == r.(phase := e.phase)
            && (e.phase == Done(DeadlineExceeded(r.lastPickErr)) <==> deadline)
            && (e.phase == Done(Canceled(r.lastPickErr)) <==> !deadline)
  {
  }

  class Wrapper {
    var gens: seq<Generation>
    var current: Option<nat>

    /** Generations swapped out whose channel is about to be closed. */
    var swappedOut: set<nat>

    var rpcs: seq<Rpc>

    ghost predicate Valid()
      reads this
    {
      GensOK(gens, current, swappedOut) && RpcsOK(rpcs, gens)
    }

    function Look(panicked: bool): View
      reads this
    {
      View(gens, current, swappedOut, rpcs, panicked)
    }

    constructor ()
      ensures Valid() && gens == [Generation(false, 0)] && current == Some(0) && swappedOut == {} && rpcs == []
    {
      gens, current, swappedOut, rpcs := [Generation(false, 0)], Some(0), {}, [];
    }

    /** The swap of `updatePicker` and of `reset`.  After `close` there is no old generation, and reaching for its
        channel panics. */
    method Swap(picker: bool) returns (ok: bool)
      requires Valid()
      modifies this`gens, this`current, this`swappedOut
      ensures Valid() && (ok <==> old(current).Some?)
      ensures gens == old(gens) + [Generation(picker, 0)] && current == Some(|old(gens)|)
      ensures swappedOut == if ok then old(swappedOut) + {old(current).value} else old(swappedOut)
    {
      var before := current;
      gens := gens + [Generation(picker, 0)];
      current := Some(|gens| - 1);
      if before.None? {
        return false;
      }
      swappedOut := swappedOut + {before.value};
      ok := true;
    }

    /** The swap of `close`. */
    method Close() returns (ok: bool)
      requires Valid()
      modifies this`current, this`swappedOut
      ensures Valid() && (ok <==> old(current).Some?) && current.None?
      ensures swappedOut == if ok then old(swappedOut) + {old(current).value} else old(swappedOut)
    {
      ok := current.Some?;
      if ok {
        swappedOut := swappedOut + {current.value};
      }
      current := None;
    }

    /** The channel of a generation that was swapped out is closed; it was open until now. */
    method CloseChannel(g: nat) returns (panicked: bool)
      requires Valid() && g in swappedOut
      modifies this`gens, this`swappedOut
      ensures Valid() && !panicked && swappedOut == old(swappedOut) - {g}
      ensures g < |old(gens)| && old(gens)[g].closes == 0 && gens == old(gens)[g := old(gens)[g].(closes := 1)]
    {
      hide RpcOK;
      RpcsUnaffected(rpcs, gens, g);
      assert current != Some(g);
      panicked := gens[g].closes > 0;
      gens := gens[g := gens[g].(closes := gens[g].closes + 1)];
      swappedOut := swappedOut - {g};
    }

    method Begin(failfast: bool)
      requires Valid()
      modifies this`rpcs
      ensures Valid() && rpcs == old(rpcs) + [Rpc(failfast, Top, None, false, false, [], false)]
    {
      rpcs := rpcs + [Rpc(failfast, Top, None, false, false, [], false)];
    }

    /** The top of the loop: ask the current generation, unless it has no picker or was asked before. */
    method Load(i: nat)
      requires Valid() && i < |rpcs| && rpcs[i].phase == Top
      modifies this`rpcs
      ensures Valid()
      ensures rpcs == old(rpcs)[i := Loaded(old(rpcs)[i], gens, current)]
      ensures rpcs[i].phase == Asking ==> current.Some? && current.value !in old(rpcs)[i].asked
    {
      var r := rpcs[i];
      assert RpcOK(r, gens);
      hide RpcOK;
      if current.None? {
        ClosingKeeps(r, gens);
        rpcs := rpcs[i := r.(phase := Done(Closing))];
        return;
      }
      var g := current.value;
      WaitKeeps(r, gens, g);
      if !gens[g].picker {
        r := r.(ch := Some(g), metNone := true);
      }
      if r.ch == Some(g) {
        rpcs := rpcs[i := r.(phase := Blocked)];
        return;
      }
      AskKeeps(r, gens, g);
      if r.ch.Some? {
        r := r.(pickBlocked := true);
      }
      rpcs := rpcs[i := r.(ch := Some(g), phase := Asking, asked := r.asked + [g])];
    }

    /** The picker answers. */
    method Answer(i: nat, o: Outcome)
      requires Valid() && i < |rpcs| && rpcs[i].phase == Asking
      modifies this`rpcs
      ensures Valid()
      ensures rpcs == old(rpcs)[i := Answered(old(rpcs)[i], o)]
    {
      var r := rpcs[i];
      match o {
        case NoSubConn => r := r.(phase := Top);
        case StatusError(restricted) => r := r.(phase := Done(Dropped(restricted)));
        case OtherError =>
          if !r.failfast {
            r := r.(phase := Top, lastPickErr := true);
          } else {
            r := r.(phase := Done(Unavailable));
          }
        case Foreign => r := r.(phase := Top);
        case IsReady(t) => r := r.(phase := Done(Picked(t, r.pickBlocked)));
        case NotReady => r := r.(phase := Top);
      }
      rpcs := rpcs[i := r];
    }

    /** A blocked RPC goes on when its channel is closed. */
    method Wake(i: nat) returns (ok: bool)
      requires Valid() && i < |rpcs| && rpcs[i].phase == Blocked
      modifies this`rpcs
      ensures Valid() && rpcs == if ok then old(rpcs)[i := old(rpcs)[i].(phase := Top)] else old(rpcs)
      ensures ok <==> rpcs[i].ch.Some? && rpcs[i].ch.value < |gens| && gens[rpcs[i].ch.value].closes > 0
      ensures !ok ==> rpcs[i].ch == current || rpcs[i].ch.value in swappedOut
    {
      ok := gens[rpcs[i].ch.value].closes > 0;
      if ok {
        rpcs := rpcs[i := rpcs[i].(phase := Top)];
      }
    }

    method ContextDone(i: nat, deadline: bool)
      requires Valid() && i < |rpcs| && rpcs[i].phase == Blocked
      modifies this`rpcs
      ensures Valid()
      ensures rpcs == old(rpcs)[i := Expired(old(rpcs)[i], deadline)]
    {
      var r := rpcs[i];
      var verdict := if deadline then DeadlineExceeded(r.lastPickErr) else Canceled(r.lastPickErr);
      rpcs := rpcs[i := r.(phase := Done(verdict))];
    }
  }

  // ---------------------------------------------------------------- every run

  datatype Step =
    | DoSwap(picker: bool)
    | DoClose
    | DoCloseChannel(g: nat)
    | DoBegin(failfast: bool)
    | DoLoad(i: nat)
    | DoAnswer(i: nat, o: Outcome)
    | DoWake(i: nat)
    | DoContextDone(i: nat, deadline: bool)

  /** Swaps the pointer. */
  predicate Replaces(step: Step) {
    step.DoSwap? || step.DoClose?
  }

  /** A waiting RPC waits for the current generation to be replaced, or for a close that is due or done. */
  ghost predicate NoneOverslept(rpcs: seq<Rpc>, gens: seq<Generation>, current: Option<nat>, swappedOut: set<nat>) {
    forall i {:trigger rpcs[i]} :: 0 <= i < |rpcs| && rpcs[i].phase == Blocked ==>
      rpcs[i].ch.Some? && rpcs[i].ch.value < |gens| &&
      (rpcs[i].ch == current || rpcs[i].ch.value in swappedOut || gens[rpcs[i].ch.value].closes == 1)
  }

  datatype View = View(gens: seq<Generation>, current: Option<nat>, swappedOut: set<nat>, rpcs: seq<Rpc>,
      panicked: bool)

  function Init(): View {
    View([Generation(false, 0)], Some(0), {}, [], false)
  }

  predicate At(v: View, i: nat, p: Phase) {
    i < |v.rpcs| && v.rpcs[i].phase == p
  }

  /** Swapping in `next` for the current generation. */
  function Replaced(v: View, next: Option<nat>): View {
    if v.current.None? then v.(current := next, panicked := true)
    else v.(current := next, swappedOut := v.swappedOut + {v.current.value})
  }

  /** Closing the channel of generation `g`. */
  function ChannelClosed(v: View, g: nat): View {
    if g >= |v.gens| then v
    else
      v.(gens := v.gens[g := v.gens[g].(closes := v.gens[g].closes + 1)], swappedOut := v.swappedOut - {g},
         panicked := v.gens[g].closes > 0)
  }

  /** The channel that an RPC knows is closed. */
  predicate Woken(r: Rpc, gens: seq<Generation>) {
    r.ch.Some? && r.ch.value < |gens| && gens[r.ch.value].closes > 0
  }

  /** A step that cannot be taken changes nothing, and nothing happens after a panic. */
  function Next(v: View, step: Step): View {
    if v.panicked then v
    else
      match step
      case DoSwap(picker) => Replaced(v, Some(|v.gens|)).(gens := v.gens + [Generation(picker, 0)])
      case DoClose => Replaced(v, None)
      case DoCloseChannel(g) => if g in v.swappedOut then ChannelClosed(v, g) else v
      case DoBegin(failfast) => v.(rpcs := v.rpcs + [Rpc(failfast, Top, None, false, false, [], false)])
      case DoLoad(i) => if At(v, i, Top) then v.(rpcs := v.rpcs[i := Loaded(v.rpcs[i], v.gens, v.current)]) else v
      case DoAnswer(i, o) => if At(v, i, Asking) then v.(rpcs := v.rpcs[i := Answered(v.rpcs[i], o)]) else v
      case DoWake(i) =>
        if At(v, i, Blocked) && Woken(v.rpcs[i], v.gens) then v.(rpcs := v.rpcs[i := v.rpcs[i].(phase := Top)]) else v
      case DoContextDone(i, deadline) =>
        if At(v, i, Blocked) then v.(rpcs := v.rpcs[i := Expired(v.rpcs[i], deadline)]) else v
  }

  function Run(v: View, steps: seq<Step>): View {
    if steps == [] then v else Next(Run(v, steps[..|steps| - 1]), steps[|steps| - 1])
  }

  /** One step of the object is that function of its fields. */
  method Perform(w: Wrapper, step: Step) returns (panicked: bool)
    requires w.Valid()
    modifies w
    ensures w.Valid() && w.Look(panicked) == Next(old(w.Look(false)), step)
  {
    hide Wrapper.Valid, Loaded, Answered, Expired;
    panicked := false;
    match step {
      case DoSwap(picker) => var ok := w.Swap(picker); panicked := !ok;
      case DoClose => var ok := w.Close(); panicked := !ok;
      case DoCloseChannel(g) => if g in w.swappedOut { panicked := w.CloseChannel(g); }
      case DoBegin(failfast) => w.Begin(failfast);
      case DoLoad(i) => if i < |w.rpcs| && w.rpcs[i].phase == Top { w.Load(i); }
      case DoAnswer(i, o) => if i < |w.rpcs| && w.rpcs[i].phase == Asking { w.Answer(i, o); }
      case DoWake(i) => if i < |w.rpcs| && w.rpcs[i].phase == Blocked { var ok := w.Wake(i); }
      case DoContextDone(i, deadline) => if i < |w.rpcs| && w.rpcs[i].phase == Blocked { w.ContextDone(i, deadline); }
    }
  }

  /** Every channel is closed once at most, and exactly once when its generation is gone; the generations each RPC
      asks strictly advance; no RPC sleeps through a newer picker. */
  ghost predicate Safe(v: View) {
    && GensOK(v.gens, v.current, v.swappedOut) && NoneOverslept(v.rpcs, v.gens, v.current, v.swappedOut)
    && forall i {:trigger v.rpcs[i]} :: 0 <= i < |v.rpcs| ==> Increasing(v.rpcs[i].asked)
  }

  /** The state any interleaving leads to is safe. */
  method AnyRun(steps: seq<Step>) returns (v: View)
    ensures v == Run(Init(), steps) && Safe(v)
  {
    hide Next, Safe, Wrapper.Valid;
    var w := new Wrapper();
    var panicked := false;
    for k := 0 to |steps|
      invariant fresh(w) && w.Valid() && w.Look(panicked) == Run(Init(), steps[..k])
    {
      assert steps[..k + 1][..k] == steps[..k];
      if panicked {
        Over(w.Look(true), steps[k]);
      } else {
        panicked := Perform(w, steps[k]);
      }
    }
    assert steps[..|steps|] == steps;
    ValidIsSafe(w, panicked);
    v := w.Look(panicked);
  }

  lemma Over(v: View, step: Step)
    requires v.panicked
    ensures Next(v, step) == v
  {
  }

  lemma ValidIsSafe(w: Wrapper, panicked: bool)
    requires w.Valid()
    ensures Safe(w.Look(panicked))
  {
  }

  /** A run panics exactly when something is swapped in after `close`: no channel is closed twice. */
  lemma {:induction false} PanicsExactly(steps: seq<Step>)
    ensures var v := Run(Init(), steps);
            && (v.panicked <==> exists i, j :: 0 <= i < j < |steps| && steps[i].DoClose? && Replaces(steps[j]))
            && (!v.panicked ==>
                  && GensOK(v.gens, v.current, v.swappedOut)
                  && (v.current.None? <==> exists i :: 0 <= i < |steps| && steps[i].DoClose?))
  {
    hide Next, GensOK;
    if steps == [] {
      FirstGeneration();
    } else {
      var before := steps[..|steps| - 1];
      var v := Run(Init(), before);
      PanicsExactly(before);
      assert forall k :: 0 <= k < |before| ==> steps[k] == before[k];
      if v.panicked {
        Over(v, steps[|before|]);
      } else {
        PanicStep(v, steps[|before|]);
      }
    }
  }

  lemma FirstGeneration()
    ensures var v := Init(); GensOK(v.gens, v.current, v.swappedOut)
  {
  }

  lemma PanicStep(v: View, step: Step)
    requires !v.panicked && GensOK(v.gens, v.current, v.swappedOut)
    ensures var w := Next(v, step);
            && GensOK(w.gens, w.current, w.swappedOut) && (w.panicked <==> Replaces(step) && v.current.None?)
            && (!w.panicked ==> (w.current.None? <==> step.DoClose? || v.current.None?))
  {
    hide Loaded, Answered, Expired, Woken;
    if step.DoCloseChannel? && step.g in v.swappedOut {
      assert v.gens[step.g].closes == 0;
    }
  }

  lemma RunOne(v: View, steps: seq<Step>, step: Step)
    ensures Run(v, []) == v && Run(v, steps + [step]) == Next(Run(v, steps), step)
  {
    assert (steps + [step])[..|steps|] == steps;
  }

  /** A new picker, the close that is due, and the RPC going on. */
  function Unblocking(i: nat, ch: nat): seq<Step> {
    [DoSwap(true)] + [DoCloseChannel(ch)] + [DoWake(i)] + [DoLoad(i)]
  }

  /** Whatever a blocked RPC waits for, once a new picker is in and the close that is due has happened, if it has not
      already, it goes on and asks that picker. */
  lemma NewPickerUnblocks(v: View, i: nat)
    requires Safe(v) && !v.panicked && v.current.Some? && At(v, i, Blocked)
    ensures v.rpcs[i].ch.Some?
    ensures var w := Run(v, Unblocking(i, v.rpcs[i].ch.value));
            && !w.panicked && At(w, i, Asking) && w.rpcs[i].ch == w.current == Some(|v.gens|)
            && w.rpcs[i].asked == v.rpcs[i].asked + [|v.gens|]
  {
    hide Run, Next, Safe;
    SafeWaiter(v, i);
    var ch := v.rpcs[i].ch.value;
    NewPickerIn(v, ch);
    GoesOn(Next(Next(v, DoSwap(true)), DoCloseChannel(ch)), i, |v.gens|);
    RunOne(v, [], DoSwap(true));
    RunOne(v, [DoSwap(true)], DoCloseChannel(ch));
    RunOne(v, [DoSwap(true)] + [DoCloseChannel(ch)], DoWake(i));
    RunOne(v, [DoSwap(true)] + [DoCloseChannel(ch)] + [DoWake(i)], DoLoad(i));
    assert [] + [DoSwap(true)] == [DoSwap(true)];
  }

  /** The new picker is in, and the channel of generation `ch` is closed. */
  lemma NewPickerIn(v: View, ch: nat)
    requires !v.panicked && v.current.Some? && ch < |v.gens|
    requires if v.current == Some(ch) || ch in v.swappedOut then v.gens[ch].closes == 0 else v.gens[ch].closes == 1
    ensures var w := Next(Next(v, DoSwap(true)), DoCloseChannel(ch));
            && !w.panicked && w.rpcs == v.rpcs && w.current == Some(|v.gens|) && |w.gens| == |v.gens| + 1
            && w.gens[|v.gens|].picker && w.gens[ch].closes > 0
  {
  }

  lemma GoesOn(v: View, i: nat, g: nat)
    requires !v.panicked && At(v, i, Blocked) && Woken(v.rpcs[i], v.gens) && v.rpcs[i].ch != Some(g)
    requires v.current == Some(g) && g < |v.gens| && v.gens[g].picker
    ensures var w := Next(Next(v, DoWake(i)), DoLoad(i));
            && !w.panicked && At(w, i, Asking) && w.rpcs[i].ch == w.current == Some(g)
            && w.rpcs[i].asked == v.rpcs[i].asked + [g]
  {
  }

  lemma SafeWaiter(v: View, i: nat)
    requires Safe(v) && At(v, i, Blocked)
    ensures v.rpcs[i].ch.Some? && v.rpcs[i].ch.value < |v.gens|
    ensures var ch := v.rpcs[i].ch.value;
            if v.current == Some(ch) || ch in v.swappedOut then v.gens[ch].closes == 0 else v.gens[ch].closes == 1
  {
  }
}
