/** When a failed attempt of a call may be retried (`csAttempt.shouldRetry`), the channel's
    retry throttler, and the clamp that turns a service config policy into a usable one.
    Token counts are reals: rounding of `float64` is not modelled. */
module RetryPolicy {

  import opened Wrappers

  // ---------------------------------------------------------------- policy conversion

  datatype JsonPolicy = JsonPolicy(
    maxAttempts: int, initialBackoff: int, maxBackoff: int, backoffMultiplier: real, codes: seq<int>)

  datatype Policy = Policy(maxAttempts: int, codes: set<int>)

  predicate IsValidRetryPolicy(j: JsonPolicy) {
    && j.maxAttempts > 1
    && j.initialBackoff > 0
    && j.maxBackoff > 0
    && j.backoffMultiplier > 0.0
    && |j.codes| > 0
  }

  function Min(a: int, b: int): int {
    if a < b then a else b
  }

  /** A usable policy exactly for one that was configured: the smaller of the two maxima, and the codes listed. */
  ghost predicate Converted(j: Option<JsonPolicy>, channelMax: int, p: Option<Policy>) {
    && (p.Some? <==> j.Some?)
    && (p.Some? ==> && p.value.maxAttempts == Min(j.value.maxAttempts, channelMax)
                    && forall c :: c in p.value.codes <==> c in j.value.codes)
  }

  /** `convertRetryPolicy`: the loop turns the list of codes into the lookup table.  The result is
      never more generous than either the policy or the channel's own maximum, and a code can be
      retried exactly when the configuration lists it. */
  method ConvertRetryPolicy(j: Option<JsonPolicy>, channelMax: int) returns (r: Result<Option<Policy>, ()>)
    ensures r.Err? <==> j.Some? && !IsValidRetryPolicy(j.value)
    ensures r.Err? <==> j.Some? && (|| j.value.maxAttempts <= 1 || j.value.initialBackoff <= 0
                                    || j.value.maxBackoff <= 0 || j.value.backoffMultiplier <= 0.0
                                    || j.value.codes == [])
    ensures r.Ok? ==> Converted(j, channelMax, r.value)
  {
    if j.None? {
      return Ok(None);
    }
    if !IsValidRetryPolicy(j.value) {
      return Err(());
    }
    var maxAttempts := channelMax;
    if j.value.maxAttempts < maxAttempts {
      maxAttempts := j.value.maxAttempts;
    }
    var codes := {};
    for i := 0 to |j.value.codes|
      invariant forall c :: c in codes <==> c in j.value.codes[..i]
    {
      codes := codes + {j.value.codes[i]};
    }
    assert j.value.codes[..|j.value.codes|] == j.value.codes;
    r := Ok(Some(Policy(maxAttempts, codes)));
  }

  // ---------------------------------------------------------------- throttler

  datatype Throttler = Throttler(tokens: real, max: real, thresh: real, ratio: real)

  /** The bounds `parseServiceConfig` checks, and the threshold `applyServiceConfigAndBalancer` derives. */
  ghost predicate ValidThrottler(t: Throttler) {
    0.0 < t.max <= 1000.0 && 0.0 < t.ratio && t.thresh == t.max / 2.0 && 0.0 <= t.tokens <= t.max
  }

  function NewThrottler(max: real, ratio: real): Throttler {
    Throttler(max, max, max / 2.0, ratio)
  }

  function Spend(t: Throttler): Throttler {
    if t.tokens - 1.0 < 0.0 then t.(tokens := 0.0) else t.(tokens := t.tokens - 1.0)
  }

  function Earn(t: Throttler): Throttler {
    if t.tokens + t.ratio > t.max then t.(tokens := t.max) else t.(tokens := t.tokens + t.ratio)
  }

  /** The throttler object: every call of every RPC on the channel goes through these two methods. */
  class RetryThrottler {
    const max: real
    const thresh: real
    const ratio: real
    var tokens: real

    ghost function State(): Throttler
      reads this
    {
      Throttler(tokens, max, thresh, ratio)
    }

    constructor (maxTokens: real, tokenRatio: real)
      requires 0.0 < maxTokens <= 1000.0 && 0.0 < tokenRatio
      ensures State() == NewThrottler(maxTokens, tokenRatio) && ValidThrottler(State())
    {
      tokens, max, thresh, ratio := maxTokens, maxTokens, maxTokens / 2.0, tokenRatio;
    }

    method Throttle() returns (refuse: bool)
      requires ValidThrottler(State())
      modifies this
      ensures State() == Spend(old(State())) && ValidThrottler(State())
      ensures tokens == (if old(tokens) >= 1.0 then old(tokens) - 1.0 else 0.0) && (refuse <==> tokens <= thresh)
    {
      tokens := tokens - 1.0;
      if tokens < 0.0 {
        tokens := 0.0;
      }
      refuse := tokens <= thresh;
    }

    method SuccessfulRPC()
      requires ValidThrottler(State())
      modifies this
      ensures State() == Earn(old(State())) && ValidThrottler(State())
      ensures tokens == if old(tokens) + ratio <= max then old(tokens) + ratio else max
    {
      tokens := tokens + ratio;
      if tokens > max {
        tokens := max;
      }
    }
  }

  /** The throttler after `n` failures in a row, and after `n` successes. */
  function Failures(t: Throttler, n: nat): Throttler {
    if n == 0 then t else Spend(Failures(t, n - 1))
  }

  function Successes(t: Throttler, n: nat): Throttler {
    if n == 0 then t else Earn(Successes(t, n - 1))
  }

  /** From a full bucket retries are refused from the first failure on that leaves half of it or less. */
  lemma {:induction false} FailuresRefuse(max: real, ratio: real, n: nat)
    requires 0.0 < max <= 1000.0 && 0.0 < ratio
    ensures var t := Failures(NewThrottler(max, ratio), n);
            && t == NewThrottler(max, ratio).(tokens := if n as real <= max then max - n as real else 0.0)
            && (Refuses(Some(t)) <==> n as real >= max / 2.0)
  {
    if n > 0 {
      FailuresRefuse(max, ratio, n - 1);
      assert n as real == (n - 1) as real + 1.0;
    }
  }

  lemma OneMore(ratio: real, n: nat)
    ensures ratio * (n + 1) as real == ratio * n as real + ratio
  {
  }

  /** Successes fill it up again, one ratio each. */
  lemma {:induction false} SuccessesRefill(t: Throttler, n: nat)
    requires ValidThrottler(t)
    ensures var earned := t.tokens + t.ratio * n as real;
            Successes(t, n) == t.(tokens := if earned <= t.max then earned else t.max)
  {
    if n > 0 {
      SuccessesRefill(t, n - 1);
      OneMore(t.ratio, n - 1);
    }
  }

  // ---------------------------------------------------------------- the retry decision

  datatype Config = Config(disableRetry: bool, policy: Option<Policy>)

  /** The `grpc-retry-pushback-ms` trailer, as far as the decision looks at it. */
  datatype Pushback = Absent | Millis(ms: nat) | Invalid | Repeated

  /** What the transport reports about the failed attempt. */
  datatype Facts = Facts(
    drop: bool, hasStream: bool, allowTransparent: bool, unprocessed: bool,
    trailersOnly: bool, pushback: Pushback, code: int, cancelledInBackoff: bool)

  /** The fields of `clientStream` the decision reads and writes. */
  datatype Budget = Budget(numRetries: nat, sincePushback: nat, firstAttempt: bool)

  datatype Decision = Transparent | ByPolicy | Refused

  function ShouldRetry(cfg: Config, closed: bool, b: Budget, rt: Option<Throttler>, f: Facts)
    : (r: (Decision, Budget, Option<Throttler>))
    // The conditions of the retry design (gRFC A6) under which a policy retry is granted, all of them.
    ensures r.0.ByPolicy? <==>
              && !closed && !f.drop && !cfg.disableRetry && !f.cancelledInBackoff
              && (if f.hasStream
                  then !(b.firstAttempt && f.unprocessed) && f.trailersOnly &&
                      (f.pushback.Absent? || f.pushback.Millis?)
                  else !f.allowTransparent)
              && cfg.policy.Some? && f.code in cfg.policy.value.codes
              && b.numRetries + 1 < cfg.policy.value.maxAttempts
              && !Refuses(SpendOpt(rt))
    ensures r.0.Transparent? <==>
              && !closed && !f.drop
              && (if f.hasStream then b.firstAttempt && f.unprocessed else f.allowTransparent)
    ensures r.1.numRetries == b.numRetries + if r.0.ByPolicy? then 1 else 0
    ensures r.1.firstAttempt == b.firstAttempt
    // A token is taken for a failure that counts, whatever the answer: pushback that says no, or a code that is listed.
    ensures r.2 == (
              if !closed && !f.drop && !r.0.Transparent? && !cfg.disableRetry && (f.hasStream ==> f.trailersOnly) &&
                 ((f.hasStream && (f.pushback.Invalid? || f.pushback.Repeated?)) ||
                  (cfg.policy.Some? && f.code in cfg.policy.value.codes))
              then SpendOpt(rt) else rt)
    // Pushback that says when starts the count for the backoff over.
    ensures r.0.ByPolicy? ==> r.1.sincePushback == if f.hasStream && f.pushback.Millis? then 0 else b.sincePushback + 1
  {
    if closed || f.drop then (Refused, b, rt)
    else if !f.hasStream && f.allowTransparent then (Transparent, b, rt)
    else if b.firstAttempt && f.hasStream && f.unprocessed then (Transparent, b, rt)
    else if cfg.disableRetry then (Refused, b, rt)
    else if f.hasStream && !f.trailersOnly then (Refused, b, rt)
    else if f.hasStream && (f.pushback.Invalid? || f.pushback.Repeated?) then (Refused, b, SpendOpt(rt))
    else if cfg.policy.None? || f.code !in cfg.policy.value.codes then (Refused, b, rt)
    else if Refuses(SpendOpt(rt)) then (Refused, b, SpendOpt(rt))
    else if b.numRetries + 1 >= cfg.policy.value.maxAttempts then (Refused, b, SpendOpt(rt))
    else
      var waited := b.(sincePushback := if f.hasStream && f.pushback.Millis? then 0 else b.sincePushback + 1);
      if f.cancelledInBackoff then (Refused, waited, SpendOpt(rt))
      else (ByPolicy, waited.(numRetries := b.numRetries + 1), SpendOpt(rt))
  }

  function SpendOpt(rt: Option<Throttler>): Option<Throttler> {
    if rt.None? then None else Some(Spend(rt.value))
  }

  predicate Refuses(rt: Option<Throttler>) {
    rt.Some? && rt.value.tokens <= rt.value.thresh
  }

  // ---------------------------------------------------------------- whole-channel runs

  /** Calls sharing one throttler.  `Retry` is one `shouldRetry` by call `i`; `Success` is
      `successfulRPC` at the end of a call; after a positive answer `retryLocked` clears
      `firstAttempt`. */
  datatype Event = Retry(i: nat, closed: bool, facts: Facts) | Success

  /** `policyRetries` and `unprocessedRetries` count, per call, the positive answers of each kind. */
  datatype Call = Call(cfg: Config, budget: Budget, policyRetries: nat, unprocessedRetries: nat)

  datatype Channel = Channel(calls: seq<Call>, rt: Option<Throttler>, admitted: nat, successes: nat)

  function Fresh(cfgs: seq<Config>, rt: Option<Throttler>): Channel {
    Channel(seq(|cfgs|, i requires 0 <= i < |cfgs| => Call(cfgs[i], Budget(0, 0, true), 0, 0)), rt, 0, 0)
  }

  function Next(c: Channel, e: Event): Channel {
    match e
    case Success => c.(rt := if c.rt.None? then None else Some(Earn(c.rt.value)), successes := c.successes + 1)
    case Retry(i, closed, f) =>
      if i >= |c.calls| then c
      else
        var call := c.calls[i];
        var (d, b, rt) := ShouldRetry(call.cfg, closed, call.budget, c.rt, f);
        var call' := call.(
          budget := if d.Refused? then b else b.(firstAttempt := false),
          policyRetries := call.policyRetries + (if d.ByPolicy? then 1 else 0),
          unprocessedRetries := call.unprocessedRetries + (if d.Transparent? && f.hasStream then 1 else 0));
        c.(calls := c.calls[i := call'], rt := rt, admitted := c.admitted + (if d.ByPolicy? then 1 else 0))
  }

  function Run(c: Channel, events: seq<Event>): Channel {
    if events == [] then c else Next(Run(c, events[..|events| - 1]), events[|events| - 1])
  }

  ghost predicate CallBounded(c: Call) {
    && c.policyRetries == c.budget.numRetries
    && (c.policyRetries > 0 ==> c.cfg.policy.Some? && c.policyRetries <= c.cfg.policy.value.maxAttempts - 1)
    && c.unprocessedRetries <= 1
    && (c.unprocessedRetries == 1 ==> !c.budget.firstAttempt)
  }

  /** The potential: every admitted retry paid a whole token, every success earned at most `ratio`. */
  ghost predicate TokensPaid(c: Channel) {
    c.rt.Some? ==> Paid(c.rt.value, c.admitted, c.successes)
  }

  ghost predicate Paid(t: Throttler, admitted: nat, successes: nat) {
    && ValidThrottler(t)
    && t.tokens <= t.max - admitted as real + t.ratio * successes as real
    && admitted as real <= t.max / 2.0 + t.ratio * successes as real
  }

  lemma EarnPays(t: Throttler, admitted: nat, successes: nat)
    requires Paid(t, admitted, successes)
    ensures Paid(Earn(t), admitted, successes + 1) && Earn(t) == t.(tokens := Earn(t).tokens)
  {
    OneMore(t.ratio, successes);
    EarnCovers(t, admitted as real, t.ratio * successes as real);
  }

  lemma EarnCovers(t: Throttler, paid: real, earned: real)
    requires ValidThrottler(t) && t.tokens <= t.max - paid + earned && paid <= t.max / 2.0 + earned
    ensures ValidThrottler(Earn(t)) && Earn(t) == t.(tokens := Earn(t).tokens)
    ensures Earn(t).tokens <= t.max - paid + (earned + t.ratio) && paid <= t.max / 2.0 + (earned + t.ratio)
  {
  }

  lemma SpendPays(t: Throttler, admitted: nat, successes: nat)
    requires Paid(t, admitted, successes)
    ensures Paid(Spend(t), admitted, successes) && Spend(t) == t.(tokens := Spend(t).tokens)
    ensures Spend(t).tokens > Spend(t).thresh ==> Paid(Spend(t), admitted + 1, successes)
  {
    var earned, paid := t.ratio * successes as real, admitted as real;
    assert (admitted + 1) as real == paid + 1.0;
    assert Spend(t).ratio == t.ratio && Spend(t).ratio * successes as real == earned;
    assert t.tokens <= t.max - paid + earned;
    if Spend(t).tokens > Spend(t).thresh {
      assert Spend(t).tokens <= t.max - (paid + 1.0) + earned && paid + 1.0 <= t.max / 2.0 + earned;
    }
  }

  lemma NextKeepsTokens(c: Channel, e: Event)
    requires TokensPaid(c)
    ensures TokensPaid(Next(c, e))
    ensures c.rt.Some? ==>
              Next(c, e).rt.Some? && Next(c, e).rt.value == c.rt.value.(tokens := Next(c, e).rt.value.tokens)
  {
    hide ShouldRetry, Paid, Earn, Spend;
    if e.Retry? && e.i < |c.calls| {
      var call := c.calls[e.i];
      ThrottlerEffect(call.cfg, e.closed, call.budget, c.rt, e.facts);
    }
    if c.rt.Some? {
      EarnPays(c.rt.value, c.admitted, c.successes);
      SpendPays(c.rt.value, c.admitted, c.successes);
    }
  }

  /** A retry by policy has paid a token, and tokens above the threshold are left. */
  lemma ThrottlerEffect(cfg: Config, closed: bool, b: Budget, rt: Option<Throttler>, f: Facts)
    ensures var (d, _, rt') := ShouldRetry(cfg, closed, b, rt, f);
            || (rt' == rt && !d.ByPolicy?)
            || (rt' == SpendOpt(rt) && (d.ByPolicy? ==> !Refuses(rt')))
  {
  }

  lemma NextKeepsCalls(c: Channel, e: Event)
    requires forall i :: 0 <= i < |c.calls| ==> CallBounded(c.calls[i])
    ensures forall i :: 0 <= i < |Next(c, e).calls| ==> CallBounded(Next(c, e).calls[i])
    ensures |Next(c, e).calls| == |c.calls|
    ensures forall i :: 0 <= i < |c.calls| ==> Next(c, e).calls[i].cfg == c.calls[i].cfg
  {
  }

  /** What is counted: a retry by policy for its call, its budget and the channel, a retry of a stream the server did
      not process for its call, a success for the channel.  A call's first attempt is over once one of them is
      granted. */
  lemma NextCounts(c: Channel, e: Event)
    ensures var c' := Next(c, e);
            && |c'.calls| == |c.calls| && c'.successes == c.successes + (if e.Success? then 1 else 0)
            && (forall j :: 0 <= j < |c.calls| && !(e.Retry? && e.i == j) ==> c'.calls[j] == c.calls[j])
            && (e.Retry? && e.i < |c.calls| ==>
                  && var was, now := c.calls[e.i], c'.calls[e.i];
                     var d := ShouldRetry(was.cfg, e.closed, was.budget, c.rt, e.facts).0;
                     && c'.admitted == c.admitted + (if d.ByPolicy? then 1 else 0)
                     && now.policyRetries == was.policyRetries + (if d.ByPolicy? then 1 else 0)
                     && now.budget.numRetries == was.budget.numRetries + (if d.ByPolicy? then 1 else 0)
                     && now.unprocessedRetries ==
                          was.unprocessedRetries + (if d.Transparent? && e.facts.hasStream then 1 else 0)
                     && (now.budget.firstAttempt <==> was.budget.firstAttempt && d.Refused?))
            && (!e.Retry? || e.i >= |c.calls| ==> c'.admitted == c.admitted)
  {
    hide ShouldRetry;
  }

  /** Every call starts with its first attempt: a stream the server did not process is tried again, whatever the
      policy. */
  lemma FreshRetries(cfgs: seq<Config>, rt: Option<Throttler>, i: nat, f: Facts)
    requires i < |cfgs| && f.hasStream && f.unprocessed && !f.drop
    ensures var c := Fresh(cfgs, rt);
            |c.calls| == |cfgs| && ShouldRetry(c.calls[i].cfg, false, c.calls[i].budget, c.rt, f).0 == Transparent
  {
  }

  /** Retry limits over every interleaving of any number of calls on one channel: no call is retried
      by policy more than `maxAttempts - 1` times, at most one retry per call comes from a stream the
      server never processed, and one throttler admits at most half its capacity plus what successes earned. */
  lemma {:induction false} RetryLimits(cfgs: seq<Config>, rt: Option<Throttler>, events: seq<Event>)
    requires rt.Some? ==> ValidThrottler(rt.value)
    ensures var c := Run(Fresh(cfgs, rt), events);
            && |c.calls| == |cfgs|
            && (forall i :: 0 <= i < |cfgs| ==> c.calls[i].cfg == cfgs[i] && CallBounded(c.calls[i]))
            && TokensPaid(c)
            && (rt.Some? ==> c.rt.Some? && c.rt.value == rt.value.(tokens := c.rt.value.tokens))
  {
    if events != [] {
      var before := events[..|events| - 1];
      RetryLimits(cfgs, rt, before);
      NextKeepsTokens(Run(Fresh(cfgs, rt), before), events[|events| - 1]);
      NextKeepsCalls(Run(Fresh(cfgs, rt), before), events[|events| - 1]);
    }
  }

  /** From the service config to the limits: with policies that convert, no call is retried by policy more than the
      smaller of its policy's and the channel's maximum, less one; with one that does not, there is no channel. */
  method ConfiguredLimits(js: seq<Option<JsonPolicy>>, disableRetry: bool, channelMax: int, rt: Option<Throttler>,
      events: seq<Event>)
    returns (c: Option<Channel>, cfgs: seq<Config>)
    requires rt.Some? ==> ValidThrottler(rt.value)
    ensures c.Some? <==> forall i :: 0 <= i < |js| && js[i].Some? ==> IsValidRetryPolicy(js[i].value)
    ensures c.Some? ==>
              && |cfgs| == |js| && c.value == Run(Fresh(cfgs, rt), events) && |c.value.calls| == |js| &&
                   TokensPaid(c.value)
              && forall i :: 0 <= i < |js| ==>
                   && cfgs[i].disableRetry == disableRetry && Converted(js[i], channelMax, cfgs[i].policy)
                   && c.value.calls[i].unprocessedRetries <= 1
                   && (c.value.calls[i].policyRetries > 0 ==>
                         js[i].Some? && c.value.calls[i].policyRetries <= Min(js[i].value.maxAttempts, channelMax) - 1)
  {
    hide Run, IsValidRetryPolicy, TokensPaid;
    cfgs := [];
    for k := 0 to |js|
      invariant |cfgs| == k
      invariant forall i :: 0 <= i < k ==> (js[i].Some? ==> IsValidRetryPolicy(js[i].value))
      invariant forall i :: 0 <= i < k ==>
                  cfgs[i].disableRetry == disableRetry && Converted(js[i], channelMax, cfgs[i].policy)
    {
      var p := ConvertRetryPolicy(js[k], channelMax);
      if p.Err? {
        return None, [];
      }
      cfgs := cfgs + [Config(disableRetry, p.value)];
    }
    RetryLimits(cfgs, rt, events);
    c := Some(Run(Fresh(cfgs, rt), events));
  }
}
