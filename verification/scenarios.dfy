/**
  Short concrete runs that tie the client engine to the server store: the
  push echo of a client's own stroke, a stroke travelling from one client to
  another, and the two ways a clear reaches the local cache.

  The server's push handler stores an incoming action and broadcasts that
  same action unchanged on `/topic/board`; the lemmas below take the
  broadcast action to be the sent one.
 */
module Scenarios {
  import opened Actions
  import BoardStore
  import opened Client
  import opened ClientTraces

  /**
    A stroke sent over push is appended locally at once and appended again
    when the server's echo arrives: the cache holds it twice, by design.
   */
  lemma EchoIsAppendedTwice(s: ClientState, now: int, mx: int, my: int)
    requires s.connected && s.hasStompClient && Accepts(s, now)
    ensures var a := Action(mx, my, s.userColor, false);
      var sent := Step(s, Sample(now, mx, my));
      && sent.effects[0] == PublishDraw(a)
      && Step(sent.next, PushAction(Parsed(a))).next.points == s.points + [a, a]
  {
    var a := Action(mx, my, s.userColor, false);
    var sent := Step(s, Sample(now, mx, my));
    assert sent.next.points == s.points + [a];
    assert (s.points + [a]) + [a] == s.points + [a, a];
  }

  /**
    A stroke published by one connected client is stored at the tail of the
    server's board and reaches a second client as exactly one more action
    with the same coordinates and colour.
   */
  lemma StrokeReachesOtherClient(sender: ClientState, receiver: ClientState,
                                 store: BoardStore.Store, now: int, mx: int, my: int)
    requires sender.connected && sender.hasStompClient && Accepts(sender, now)
    ensures var out := Step(sender, Sample(now, mx, my)).effects[0];
      && out.PublishDraw?
      && var a := out.action;
      && a.x == mx && a.y == my && a.color == sender.userColor && !a.clear
      && var st := BoardStore.AddAction(store, a);
      && BoardStore.GetActions(st) == BoardStore.GetActions(store) + [a]
      && var got := Step(receiver, PushAction(Parsed(a))).next.points;
      && |got| == |receiver.points| + 1
      && got[|got| - 1] == a
  {
  }

  /**
    While connected, the clear button publishes a clear and keeps the cache;
    the cache empties only when the clear broadcast comes back.
   */
  lemma ConnectedClearWaitsForBroadcast(s: ClientState)
    requires s.connected && s.hasStompClient
    ensures Step(s, ClearClicked).effects == [PublishClear]
    ensures Step(s, ClearClicked).next.points == s.points
    ensures Step(Step(s, ClearClicked).next, PushClear).next.points == []
  {
  }

  /** Offline, the clear button posts a clear and the cache empties once the request settles, either way. */
  lemma OfflineClearEmptiesCache(s: ClientState, ok: bool)
    requires !(s.connected && s.hasStompClient)
    ensures Step(s, ClearClicked).effects == [PostClear]
    ensures Step(s, ClearClicked).next.points == s.points
    ensures Step(Step(s, ClearClicked).next, FallbackClearSettled(ok)).next.points == []
    ensures Step(Step(s, ClearClicked).next, FallbackClearSettled(ok)).effects == [Repaint([])]
  {
  }

  /**
    From page start, a successful handshake leaves the client connected,
    subscribed, routing over push, and with no fallback poller live.
   */
  lemma StartupThenConnect()
    ensures var r := Run(Init, [Setup, ConnectOk]);
      && r.next.connected && !r.next.polling
      && RouteFor(r.next) == Push
      && SubscribeBoard in r.effects && SubscribeClear in r.effects
      && Live(0, r.effects) == 0
  {
    RunTwo(Init, Setup, ConnectOk);
    RunPollers(Init, [Setup, ConnectOk]);
  }

  /**
    A channel that drops while connected leaves the client disconnected,
    routing over HTTP, with exactly one poller live and a reconnect scheduled.
   */
  lemma DropWhileConnected(s: ClientState)
    requires Inv(s) && s.connected
    ensures var t := Step(s, ConnectFailed);
      && !t.next.connected && RouteFor(t.next) == Fallback
      && Live(0, t.effects) == 1
      && StartPoller(FallbackPollRateMs) in t.effects
      && ScheduleReconnect(ReconnectDelayMs) in t.effects
  {
    StepPollers(s, ConnectFailed);
  }
}
