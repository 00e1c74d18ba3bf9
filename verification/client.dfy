/**
  The browser client's synchronisation engine. Every callback of the page
  script (an animation-frame sample, a push message, a fetch that settles, a
  timer that fires, a button click) is one `Event`; `Step` turns the current
  `ClientState` and an event into the next state plus the outside effects the
  callback performs (network sends, timers, painting), in the order the
  callback performs them. Nothing is sent or painted here: effects are data.
 */
module Client {
  import opened Actions
  import HexColor

  /** Minimum spacing, in milliseconds, between two accepted local samples. */
  const SendThrottleMs := 20
  /** Period of the fallback poller started when the push channel fails. */
  const FallbackPollRateMs := 5000
  /** Delay before a new push connection is attempted after a failure. */
  const ReconnectDelayMs := 3000
  /** Colour in use until the random-colour request settles. */
  const InitialColor := "#000000"

  /**
    The script's module-level state. `hasStompClient` says whether a push
    client object exists (it is created on the first connection attempt and
    never discarded); `polling` says whether a fallback poller id is held.
   */
  datatype ClientState = ClientState(
    points: seq<Action>,
    connected: bool,
    hasStompClient: bool,
    polling: bool,
    lastSent: int,
    isDrawing: bool,
    userColor: string)

  /** The state the script starts in. */
  const Init := ClientState([], false, false, false, 0, false, InitialColor)

  /** The transport an outgoing message takes. */
  datatype Route = Push | Fallback

  /** The connectivity label shown to the user. */
  datatype Status = Connecting | Online | Offline

  /** What a callback does to the world outside the script's own variables. */
  datatype Effect =
    | PublishDraw(action: Action)   // push send to /app/draw
    | PublishClear                  // push send to /app/clear
    | PostDraw(action: Action)      // HTTP POST /api/draw
    | PostClear                     // HTTP POST /api/clear
    | GetBoard                      // HTTP GET /api/board
    | GetRandomColor                // HTTP GET /api/randomColor
    | OpenPush                      // open a socket on /ws and start the push handshake
    | SubscribeBoard                // subscribe to /topic/board
    | SubscribeClear                // subscribe to /topic/clear
    | StartPoller(periodMs: int)    // setInterval(refreshBoard, periodMs)
    | CancelPoller                  // clearInterval of the held poller id
    | ScheduleReconnect(delayMs: int)
    | PaintPoint(action: Action)    // paint one point on top of the canvas
    | Repaint(board: seq<Action>)   // blank the canvas, then paint `board`
    | ResizeCanvas
    | ShowStatus(status: Status)
    | ShowColor(color: string)

  /** How an HTTP request settles: a success body, a non-ok status, or a thrown error. */
  datatype Fetch<T> = Ok(data: T) | NotOk | Failed

  /** A push message body: an action, or a body that could not be read as one. */
  datatype Inbound = Parsed(action: Action) | Unparseable

  /** The callbacks the script reacts to. */
  datatype Event =
    | Setup                                   // page start
    | PressStart                              // mouse or touch down
    | PressEnd                                // mouse or touch up
    | Sample(now: int, mouseX: int, mouseY: int)  // one animation frame
    | FallbackSendSettled(sendOk: bool)       // the POST /api/draw settled
    | PushAction(message: Inbound)            // a /topic/board message
    | PushClear                               // a /topic/clear message
    | ReloadClicked                           // the manual reload button
    | PollTick                                // the fallback poller fired
    | Snapshot(result: Fetch<seq<Action>>)    // the GET /api/board settled
    | ClearClicked                            // the clear button
    | FallbackClearSettled(clearOk: bool)     // the POST /api/clear settled
    | ConnectOk                               // push handshake succeeded
    | ConnectFailed                           // push handshake failed or the channel dropped
    | ReconnectTimer                          // the reconnect delay elapsed
    | Resize                                  // the window was resized
    | ColorFetched(colorResult: Fetch<string>, random: HexColor.Rand24)  // the colour request settled

  /** The state after a callback and the effects it performed, in order. */
  datatype Transition = Transition(next: ClientState, effects: seq<Effect>)

  /** True iff `e` sends a point action over some transport. */
  predicate IsDrawSend(e: Effect) {
    e.PublishDraw? || e.PostDraw?
  }

  /** The number of point-action sends in `effs`. */
  function DrawSends(effs: seq<Effect>): nat
    decreases |effs|
  {
    if effs == [] then 0 else (if IsDrawSend(effs[0]) then 1 else 0) + DrawSends(effs[1..])
  }

  lemma {:induction false} DrawSendsAppend(a: seq<Effect>, b: seq<Effect>)
    ensures DrawSends(a + b) == DrawSends(a) + DrawSends(b)
    decreases |a|
  {
    if a == [] {
      assert a + b == b;
    } else {
      DrawSendsAppend(a[1..], b);
      assert (a + b)[1..] == a[1..] + b;
    }
  }

  /** True iff no effect of `effs` sends a point action. */
  predicate SendsNothing(effs: seq<Effect>) {
    forall i :: 0 <= i < |effs| ==> !IsDrawSend(effs[i])
  }

  /** A list of effects none of which sends a point action holds no draw sends. */
  lemma {:induction false} NoDrawSends(effs: seq<Effect>)
    requires SendsNothing(effs)
    ensures DrawSends(effs) == 0
    decreases |effs|
  {
    if effs != [] {
      NoDrawSends(effs[1..]);
    }
  }

  /** True iff no effect of `effs` starts or cancels a fallback poller. */
  predicate Quiet(effs: seq<Effect>) {
    forall i :: 0 <= i < |effs| ==> !effs[i].StartPoller? && !effs[i].CancelPoller?
  }

  // ----------------------------------------------------------------------
  // Transport selection

  /** The push channel is used exactly when it is connected and a client object exists. */
  function RouteFor(s: ClientState): (r: Route)
    ensures r == Push <==> s.connected && s.hasStompClient
  {
    if s.connected && s.hasStompClient then Push else Fallback
  }

  /**
    `sendAction`: the one effect that carries `a` to the server. Nothing is
    kept for later: the state does not change and no retry is planned.
   */
  function SendAction(s: ClientState, a: Action): (e: Effect)
    ensures IsDrawSend(e) && e.action == a
    ensures e.PublishDraw? <==> s.connected && s.hasStompClient
  {
    match RouteFor(s)
    case Push => PublishDraw(a)
    case Fallback => PostDraw(a)
  }

  // ----------------------------------------------------------------------
  // Local drawing

  /** `mousePressed`/`touchStarted` and `mouseReleased`/`touchEnded`. */
  function OnPress(s: ClientState, down: bool): (t: Transition)
    ensures t.next.isDrawing == down && t.effects == []
    ensures t.next.(isDrawing := s.isDrawing) == s
    ensures Quiet(t.effects) && SendsNothing(t.effects)
  {
    Transition(s.(isDrawing := down), [])
  }

  /** True iff a sample taken at `now` passes the throttle. */
  predicate Accepts(s: ClientState, now: int) {
    s.isDrawing && now - s.lastSent >= SendThrottleMs
  }

  /**
    `draw`: an accepted sample builds one point in the user's colour at the
    mouse position, sends it, then paints it and appends it to the local cache; a
    sample that is not accepted changes nothing and does nothing.
   */
  function OnSample(s: ClientState, now: int, mx: int, my: int): (t: Transition)
    ensures !(s.isDrawing && now - s.lastSent >= SendThrottleMs) ==> t == Transition(s, [])
    ensures s.isDrawing && now - s.lastSent >= SendThrottleMs ==>
      var a := Action(mx, my, s.userColor, false);
      && t.next.lastSent == now
      && |t.next.points| == |s.points| + 1
      && IsPrefix(s.points, t.next.points)
      && t.next.points[|s.points|] == a
      && t.next.(points := s.points, lastSent := s.lastSent) == s
      && |t.effects| == 2 && DrawSends(t.effects) == 1
      && IsDrawSend(t.effects[0]) && t.effects[0].action == a
      && (t.effects[0].PublishDraw? <==> s.connected && s.hasStompClient)
      && t.effects[1] == PaintPoint(a)
    ensures Quiet(t.effects)
  {
    if Accepts(s, now) then
      var a := Action(mx, my, s.userColor, false);
      var effs := [SendAction(s, a), PaintPoint(a)];
      NoDrawSends(effs[1..]);
      Transition(s.(points := s.points + [a], lastSent := now), effs)
    else
      Transition(s, [])
  }

  /** A settled fallback send is swallowed whatever its outcome: nothing is queued or retried. */
  function OnFallbackSendSettled(s: ClientState, sendOk: bool): (t: Transition)
    ensures t.next == s && t.effects == []
    ensures Quiet(t.effects) && SendsNothing(t.effects)
  {
    Transition(s, [])
  }

  // ----------------------------------------------------------------------
  // Inbound push messages

  /**
    A `/topic/board` message: a clear empties the cache and blanks the
    canvas; any other action is appended at the tail and painted; a body
    that cannot be read changes nothing and raises nothing.
   */
  function OnPushAction(s: ClientState, m: Inbound): (t: Transition)
    ensures m.Unparseable? ==> t == Transition(s, [])
    ensures m.Parsed? && m.action.clear ==> t.next.points == [] && t.effects == [Repaint([])]
    ensures m.Parsed? && !m.action.clear ==>
      && |t.next.points| == |s.points| + 1
      && IsPrefix(s.points, t.next.points)
      && t.next.points[|s.points|] == m.action
      && t.effects == [PaintPoint(m.action)]
    ensures t.next.(points := s.points) == s
    ensures Quiet(t.effects) && SendsNothing(t.effects)
  {
    match m
    case Unparseable => Transition(s, [])
    case Parsed(a) =>
      if a.clear then Transition(s.(points := []), [Repaint([])])
      else Transition(s.(points := s.points + [a]), [PaintPoint(a)])
  }

  /** A `/topic/clear` message empties the cache and blanks the canvas. */
  function OnPushClear(s: ClientState): (t: Transition)
    ensures t.next.points == [] && t.effects == [Repaint([])]
    ensures t.next.(points := s.points) == s
    ensures Quiet(t.effects) && SendsNothing(t.effects)
  {
    Transition(s.(points := []), [Repaint([])])
  }

  // ----------------------------------------------------------------------
  // Snapshot polling

  /** `refreshBoard`, first half: ask the server for the whole board. */
  function OnRefresh(s: ClientState): (t: Transition)
    ensures t.next == s && t.effects == [GetBoard]
    ensures Quiet(t.effects) && SendsNothing(t.effects)
  {
    Transition(s, [GetBoard])
  }

  /**
    `refreshBoard`, second half: a successful snapshot replaces the cache
    wholesale with exactly the server's list and repaints it; a non-ok
    status or an error leaves everything as it was.
   */
  function OnSnapshot(s: ClientState, res: Fetch<seq<Action>>): (t: Transition)
    ensures res.Ok? ==> t.next.points == res.data && t.effects == [Repaint(res.data)]
    ensures !res.Ok? ==> t == Transition(s, [])
    ensures t.next.(points := s.points) == s
    ensures Quiet(t.effects) && SendsNothing(t.effects)
  {
    match res
    case Ok(data) => Transition(s.(points := data), [Repaint(data)])
    case _ => Transition(s, [])
  }

  // ----------------------------------------------------------------------
  // Clearing

  /**
    `clearBoardRealtime`: while the push channel is up, publish a clear and
    leave the cache alone (it empties when the broadcast comes back);
    otherwise start the fallback clear request.
   */
  function OnClearClicked(s: ClientState): (t: Transition)
    ensures t.next == s
    ensures t.effects == [PublishClear] <==> s.connected && s.hasStompClient
    ensures t.effects == [PostClear] <==> !(s.connected && s.hasStompClient)
    ensures Quiet(t.effects) && SendsNothing(t.effects)
  {
    match RouteFor(s)
    case Push => Transition(s, [PublishClear])
    case Fallback => Transition(s, [PostClear])
  }

  /** `clearBoardFallback` after its request settles: the cache empties whether or not it succeeded. */
  function OnFallbackClearSettled(s: ClientState, clearOk: bool): (t: Transition)
    ensures t.next.points == [] && t.effects == [Repaint([])]
    ensures t.next.(points := s.points) == s
    ensures Quiet(t.effects) && SendsNothing(t.effects)
  {
    Transition(s.(points := []), [Repaint([])])
  }

  // ----------------------------------------------------------------------
  // Connection lifecycle

  /** `initWebSocket`: show "connecting", create a push client and start the handshake. */
  function OnConnectAttempt(s: ClientState): (t: Transition)
    ensures t.next.hasStompClient && t.next.(hasStompClient := s.hasStompClient) == s
    ensures t.effects == [ShowStatus(Connecting), OpenPush]
    ensures Quiet(t.effects) && SendsNothing(t.effects)
  {
    Transition(s.(hasStompClient := true), [ShowStatus(Connecting), OpenPush])
  }

  /**
    Handshake success: the channel is up, any fallback poller is cancelled,
    and both broadcast topics are subscribed.
   */
  function OnConnectOk(s: ClientState): (t: Transition)
    ensures t.next.connected && !t.next.polling
    ensures (CancelPoller in t.effects) <==> s.polling
    ensures forall e :: e in t.effects ==> !e.StartPoller?
    ensures |t.effects| == 3 + (if s.polling then 1 else 0)
    ensures t.effects[0] == ShowStatus(Online)
    ensures s.polling ==> t.effects[1] == CancelPoller
    ensures t.effects[|t.effects| - 2..] == [SubscribeBoard, SubscribeClear]
    ensures SubscribeBoard in t.effects && SubscribeClear in t.effects
    ensures t.next.(connected := s.connected, polling := s.polling) == s
    ensures SendsNothing(t.effects)
  {
    var cancel := if s.polling then [CancelPoller] else [];
    Transition(s.(connected := true, polling := false),
               [ShowStatus(Online)] + cancel + [SubscribeBoard, SubscribeClear])
  }

  /**
    Handshake failure or a dropped channel: the channel is down, a fallback
    poller is started only when none is held, and a reconnect is scheduled.
   */
  function OnConnectFailed(s: ClientState): (t: Transition)
    ensures !t.next.connected && t.next.polling
    ensures (StartPoller(FallbackPollRateMs) in t.effects) <==> !s.polling
    ensures forall e :: e in t.effects && e.StartPoller? ==> e == StartPoller(FallbackPollRateMs) && !s.polling
    ensures CancelPoller !in t.effects
    ensures ScheduleReconnect(ReconnectDelayMs) in t.effects
    ensures |t.effects| == 2 + (if s.polling then 0 else 1)
    ensures t.effects[0] == ShowStatus(Offline)
    ensures !s.polling ==> t.effects[1] == StartPoller(FallbackPollRateMs)
    ensures t.effects[|t.effects| - 1] == ScheduleReconnect(ReconnectDelayMs)
    ensures t.next.(connected := s.connected, polling := s.polling) == s
    ensures SendsNothing(t.effects)
  {
    var start := if s.polling then [] else [StartPoller(FallbackPollRateMs)];
    Transition(s.(connected := false, polling := true),
               [ShowStatus(Offline)] + start + [ScheduleReconnect(ReconnectDelayMs)])
  }

  // ----------------------------------------------------------------------
  // Page glue that touches the core state

  /**
    `resizeBoard`: resize and repaint the canvas from the cache, which stays
    as it was. The canvas library's own redraw during the resize is not part
    of this handler.
   */
  function OnResize(s: ClientState): (t: Transition)
    ensures t.next == s
    ensures t.effects == [ResizeCanvas, Repaint(s.points)]
    ensures Quiet(t.effects) && SendsNothing(t.effects)
  {
    Transition(s, [ResizeCanvas, Repaint(s.points)])
  }

  /**
    `fetchRandomColor` after its request settles: the server's colour on
    success, otherwise the local fallback colour drawn from `rnd`.
   */
  function OnColorFetched(s: ClientState, res: Fetch<string>, rnd: HexColor.Rand24): (t: Transition)
    ensures res.Ok? ==> t.next.userColor == res.data
    ensures !res.Ok? ==>
      && |t.next.userColor| == 7 && t.next.userColor[0] == '#'
      && HexColor.AllLowerHex(t.next.userColor[1..])
      && HexColor.ParseHex(t.next.userColor[1..]) == rnd
    ensures t.effects == [ShowColor(t.next.userColor)]
    ensures t.next.(userColor := s.userColor) == s
    ensures Quiet(t.effects) && SendsNothing(t.effects)
  {
    var c := match res
      case Ok(color) => color
      case _ => HexColor.RandomColorFallback(rnd);
    Transition(s.(userColor := c), [ShowColor(c)])
  }

  /** `setup`: request a colour, open the push channel, and load the first snapshot. */
  function OnSetup(s: ClientState): (t: Transition)
    ensures t.next.hasStompClient && t.next.(hasStompClient := s.hasStompClient) == s
    ensures t.effects == [GetRandomColor, ShowStatus(Connecting), OpenPush, GetBoard]
    ensures Quiet(t.effects) && SendsNothing(t.effects)
  {
    var ws := OnConnectAttempt(s);
    Transition(ws.next, [GetRandomColor] + ws.effects + [GetBoard])
  }

  // ----------------------------------------------------------------------
  // The engine

  /** The engine's invariant: while the push channel is up no fallback poller is held. */
  predicate Inv(s: ClientState) {
    s.connected ==> !s.polling
  }

  /** True iff `e` may wipe or replace the local cache. */
  predicate Rewrites(e: Event) {
    || e.PushClear?
    || (e.PushAction? && e.message.Parsed? && e.message.action.clear)
    || (e.Snapshot? && e.result.Ok?)
    || e.FallbackClearSettled?
  }

  /** True iff `e`, handled in `s`, appends one action to the local cache. */
  predicate Appends(s: ClientState, e: Event) {
    || (e.Sample? && Accepts(s, e.now))
    || (e.PushAction? && e.message.Parsed? && !e.message.action.clear)
  }

  /** One callback, dispatched to its handler. */
  function Step(s: ClientState, e: Event): (t: Transition)
    ensures Inv(s) ==> Inv(t.next)
    ensures e.Sample? && Accepts(s, e.now) ==> t.next.lastSent == e.now
    ensures !(e.Sample? && Accepts(s, e.now)) ==> t.next.lastSent == s.lastSent
    ensures !e.ConnectOk? && !e.ConnectFailed? ==> Quiet(t.effects) && t.next.polling == s.polling
    ensures !e.Sample? ==> SendsNothing(t.effects)
    ensures !Rewrites(e) ==>
      && IsPrefix(s.points, t.next.points)
      && |t.next.points| == |s.points| + (if Appends(s, e) then 1 else 0)
    ensures t.next.points == s.points
      || t.next.points == []
      || (e.Snapshot? && e.result.Ok? && t.next.points == e.result.data)
      || (|t.next.points| == |s.points| + 1 && IsPrefix(s.points, t.next.points))
  {
    match e
    case Setup => OnSetup(s)
    case PressStart => OnPress(s, true)
    case PressEnd => OnPress(s, false)
    case Sample(now, mx, my) => OnSample(s, now, mx, my)
    case FallbackSendSettled(ok) => OnFallbackSendSettled(s, ok)
    case PushAction(m) => OnPushAction(s, m)
    case PushClear => OnPushClear(s)
    case ReloadClicked => OnRefresh(s)
    case PollTick => OnRefresh(s)
    case Snapshot(res) => OnSnapshot(s, res)
    case ClearClicked => OnClearClicked(s)
    case FallbackClearSettled(ok) => OnFallbackClearSettled(s, ok)
    case ConnectOk => OnConnectOk(s)
    case ConnectFailed => OnConnectFailed(s)
    case ReconnectTimer => OnConnectAttempt(s)
    case Resize => OnResize(s)
    case ColorFetched(res, rnd) => OnColorFetched(s, res, rnd)
  }

  /** Only an accepted sample sends a point action, and it sends exactly one. */
  lemma StepDrawSends(s: ClientState, e: Event)
    ensures DrawSends(Step(s, e).effects) == if e.Sample? && Accepts(s, e.now) then 1 else 0
  {
    if !e.Sample? {
      NoDrawSends(Step(s, e).effects);
    }
  }
}
