/**
  Properties of the client engine over whole traces of callbacks: throttle
  spacing, one send per accepted sample, at most one fallback poller, the
  connected-means-no-poller invariant, and append-only growth of the local
  cache between wipes.
 */
module ClientTraces {
  import opened Actions
  import opened Client

  /** The callbacks `es`, handled one after another from `s`; effects in the order performed. */
  function Run(s: ClientState, es: seq<Event>): Transition
    decreases |es|
  {
    if es == [] then Transition(s, [])
    else
      var t := Step(s, es[0]);
      var rest := Run(t.next, es[1..]);
      Transition(rest.next, t.effects + rest.effects)
  }

  /** A two-callback trace is the first step followed by the second. */
  lemma RunTwo(s: ClientState, e1: Event, e2: Event)
    ensures var t1 := Step(s, e1);
      var t2 := Step(t1.next, e2);
      Run(s, [e1, e2]) == Transition(t2.next, t1.effects + t2.effects)
  {
    var es := [e1, e2];
    var t1 := Step(s, e1);
    var t2 := Step(t1.next, e2);
    assert es[1..] == [e2] && es[1..][1..] == [];
    assert Run(t1.next, es[1..]) == Transition(t2.next, t2.effects + []);
    assert t2.effects + [] == t2.effects;
  }

  /** The clock readings of the samples in `es` that pass the throttle, in order. */
  function AcceptedTimes(s: ClientState, es: seq<Event>): seq<int>
    decreases |es|
  {
    if es == [] then []
    else
      (if es[0].Sample? && Accepts(s, es[0].now) then [es[0].now] else [])
      + AcceptedTimes(Step(s, es[0]).next, es[1..])
  }

  // ----------------------------------------------------------------------
  // Throttle

  /**
    The times `ts` all come at least one throttle window after `base`, any
    two of them are at least a window apart, and the last is at least `|ts| - 1`
    windows after the first.
   */
  predicate Spaced(ts: seq<int>, base: int) {
    && (forall i :: 0 <= i < |ts| ==> ts[i] >= base + SendThrottleMs)
    && (forall i, j :: 0 <= i < j < |ts| ==> ts[i] + SendThrottleMs <= ts[j])
    && (ts != [] ==> ts[0] + SendThrottleMs * (|ts| - 1) <= ts[|ts| - 1])
  }

  lemma SpacedCons(t: int, rest: seq<int>, base: int)
    requires t >= base + SendThrottleMs && Spaced(rest, t)
    ensures Spaced([t] + rest, base)
  {
    var ts := [t] + rest;
    if rest != [] {
      assert ts[|ts| - 1] == rest[|rest| - 1];
    }
  }

  /**
    Accepted samples come at least 20 ms after the last accepted send before
    the trace, and any two of them are at least 20 ms apart.
   */
  lemma {:induction false} ThrottleSpacing(s: ClientState, es: seq<Event>)
    ensures Spaced(AcceptedTimes(s, es), s.lastSent)
    decreases |es|
  {
    if es != [] {
      var t := Step(s, es[0]);
      ThrottleSpacing(t.next, es[1..]);
      if es[0].Sample? && Accepts(s, es[0].now) {
        SpacedCons(es[0].now, AcceptedTimes(t.next, es[1..]), s.lastSent);
      } else {
        assert AcceptedTimes(s, es) == AcceptedTimes(t.next, es[1..]);
      }
    }
  }

  /** Every accepted time is the clock reading of some sample in the trace. */
  lemma {:induction false} AcceptedWithin(s: ClientState, es: seq<Event>, lo: int, hi: int)
    requires forall i :: 0 <= i < |es| && es[i].Sample? ==> lo <= es[i].now < hi
    ensures forall k :: 0 <= k < |AcceptedTimes(s, es)| ==> lo <= AcceptedTimes(s, es)[k] < hi
    decreases |es|
  {
    if es != [] {
      AcceptedWithin(Step(s, es[0]).next, es[1..], lo, hi);
    }
  }

  /** However many samples arrive within one throttle window, at most one is accepted. */
  lemma BurstAcceptsAtMostOne(s: ClientState, es: seq<Event>, t0: int)
    requires forall i :: 0 <= i < |es| && es[i].Sample? ==> t0 <= es[i].now < t0 + SendThrottleMs
    ensures |AcceptedTimes(s, es)| <= 1
  {
    AcceptedWithin(s, es, t0, t0 + SendThrottleMs);
    ThrottleSpacing(s, es);
    var ts := AcceptedTimes(s, es);
    if ts != [] {
      assert t0 <= ts[0] && ts[|ts| - 1] < t0 + SendThrottleMs;
    }
  }

  /** However many samples arrive within one throttle window, at most one point action is sent. */
  lemma BurstSendsAtMostOne(s: ClientState, es: seq<Event>, t0: int)
    requires forall i :: 0 <= i < |es| && es[i].Sample? ==> t0 <= es[i].now < t0 + SendThrottleMs
    ensures DrawSends(Run(s, es).effects) <= 1
  {
    BurstAcceptsAtMostOne(s, es, t0);
    OneSendPerAcceptedSample(s, es);
  }

  /** Exactly one point-action send leaves the client per accepted sample, and no other. */
  lemma {:induction false} OneSendPerAcceptedSample(s: ClientState, es: seq<Event>)
    ensures DrawSends(Run(s, es).effects) == |AcceptedTimes(s, es)|
    decreases |es|
  {
    if es != [] {
      var t := Step(s, es[0]);
      OneSendPerAcceptedSample(t.next, es[1..]);
      StepDrawSends(s, es[0]);
      DrawSendsAppend(t.effects, Run(t.next, es[1..]).effects);
    }
  }

  // ----------------------------------------------------------------------
  // Connection invariant

  /** While the push channel is up, no fallback poller is held, in every reachable state. */
  lemma {:induction false} RunPreservesInv(s: ClientState, es: seq<Event>)
    requires Inv(s)
    ensures Inv(Run(s, es).next)
    decreases |es|
  {
    if es != [] {
      RunPreservesInv(Step(s, es[0]).next, es[1..]);
    }
  }

  // ----------------------------------------------------------------------
  // Fallback pollers

  /** 1 when a poller id is held, 0 otherwise. */
  function Bit(b: bool): nat {
    if b then 1 else 0
  }

  /** The number of live pollers after effect `e`, starting from `n`. */
  function PollerStep(n: nat, e: Effect): nat {
    match e
    case StartPoller(_) => n + 1
    case CancelPoller => if n == 0 then 0 else n - 1
    case _ => n
  }

  /** The number of live pollers after the effects `effs`, starting from `n`. */
  function Live(n: nat, effs: seq<Effect>): nat
    decreases |effs|
  {
    if effs == [] then n else Live(PollerStep(n, effs[0]), effs[1..])
  }

  /** At no point while performing `effs` from `n` live pollers are two or more live. */
  predicate AtMostOne(n: nat, effs: seq<Effect>)
    decreases |effs|
  {
    n <= 1 && (effs == [] || AtMostOne(PollerStep(n, effs[0]), effs[1..]))
  }

  lemma {:induction false} LiveAppend(n: nat, a: seq<Effect>, b: seq<Effect>)
    ensures Live(n, a + b) == Live(Live(n, a), b)
    ensures AtMostOne(n, a + b) <==> AtMostOne(n, a) && AtMostOne(Live(n, a), b)
    decreases |a|
  {
    if a == [] {
      assert a + b == b;
    } else {
      LiveAppend(PollerStep(n, a[0]), a[1..], b);
      assert (a + b)[1..] == a[1..] + b;
    }
  }

  lemma {:induction false} LiveQuiet(n: nat, q: seq<Effect>)
    requires Quiet(q)
    ensures Live(n, q) == n
    ensures AtMostOne(n, q) <==> n <= 1
    decreases |q|
  {
    if q != [] {
      LiveQuiet(n, q[1..]);
    }
  }

  /** A successful handshake cancels the held poller, if any, and starts none. */
  lemma ConnectOkPollers(s: ClientState)
    ensures Live(Bit(s.polling), OnConnectOk(s).effects) == 0
    ensures AtMostOne(Bit(s.polling), OnConnectOk(s).effects)
  {
    var n := Bit(s.polling);
    var mid := if s.polling then [CancelPoller] else [];
    var pre: seq<Effect> := [ShowStatus(Online)];
    var post := [SubscribeBoard, SubscribeClear];
    assert OnConnectOk(s).effects == pre + mid + post;
    LiveQuiet(n, pre);
    LiveAppend(n, pre, mid);
    LiveQuiet(Live(n, pre + mid), post);
    LiveAppend(n, pre + mid, post);
  }

  /** A failure starts a poller only when none is held, and cancels none. */
  lemma ConnectFailedPollers(s: ClientState)
    ensures Live(Bit(s.polling), OnConnectFailed(s).effects) == 1
    ensures AtMostOne(Bit(s.polling), OnConnectFailed(s).effects)
  {
    var n := Bit(s.polling);
    var mid := if s.polling then [] else [StartPoller(FallbackPollRateMs)];
    var pre: seq<Effect> := [ShowStatus(Offline)];
    var post := [ScheduleReconnect(ReconnectDelayMs)];
    assert OnConnectFailed(s).effects == pre + mid + post;
    LiveQuiet(n, pre);
    LiveAppend(n, pre, mid);
    LiveQuiet(Live(n, pre + mid), post);
    LiveAppend(n, pre + mid, post);
  }

  /** One callback starts a poller only when none is held and cancels one only when one is. */
  lemma StepPollers(s: ClientState, e: Event)
    ensures Live(Bit(s.polling), Step(s, e).effects) == Bit(Step(s, e).next.polling)
    ensures AtMostOne(Bit(s.polling), Step(s, e).effects)
  {
    if e.ConnectOk? {
      assert Step(s, e) == OnConnectOk(s);
      ConnectOkPollers(s);
    } else if e.ConnectFailed? {
      assert Step(s, e) == OnConnectFailed(s);
      ConnectFailedPollers(s);
    } else {
      LiveQuiet(Bit(s.polling), Step(s, e).effects);
    }
  }

  /**
    Over any trace, the pollers started minus those cancelled always match
    the held poller id: at most one poller is ever live, however many
    failures are reported.
   */
  lemma {:induction false} RunPollers(s: ClientState, es: seq<Event>)
    ensures Live(Bit(s.polling), Run(s, es).effects) == Bit(Run(s, es).next.polling)
    ensures AtMostOne(Bit(s.polling), Run(s, es).effects)
    decreases |es|
  {
    if es != [] {
      var t := Step(s, es[0]);
      StepPollers(s, es[0]);
      RunPollers(t.next, es[1..]);
      LiveAppend(Bit(s.polling), t.effects, Run(t.next, es[1..]).effects);
    }
  }

  /** From page start, whenever the push channel is up no fallback poller is live. */
  lemma ConnectedNoLive(es: seq<Event>)
    ensures Run(Init, es).next.connected ==> Live(0, Run(Init, es).effects) == 0
  {
    RunPollers(Init, es);
    RunPreservesInv(Init, es);
  }

  // ----------------------------------------------------------------------
  // Local cache

  /** The number of actions the callbacks `es` append to the local cache. */
  function AppendCount(s: ClientState, es: seq<Event>): nat
    decreases |es|
  {
    if es == [] then 0
    else
      (if Appends(s, es[0]) then 1 else 0) + AppendCount(Step(s, es[0]).next, es[1..])
  }

  /**
    Between wipes and snapshots the cache only grows at the tail, by one
    action per accepted sample or inbound point: nothing is reordered,
    deduplicated or dropped.
   */
  lemma {:induction false} CacheOnlyGrows(s: ClientState, es: seq<Event>)
    requires forall i :: 0 <= i < |es| ==> !Rewrites(es[i])
    ensures IsPrefix(s.points, Run(s, es).next.points)
    ensures |Run(s, es).next.points| == |s.points| + AppendCount(s, es)
    decreases |es|
  {
    if es != [] {
      var t := Step(s, es[0]);
      CacheOnlyGrows(t.next, es[1..]);
    }
  }
}
