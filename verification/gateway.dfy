/** The realtime market-data gateway (`RealtimeService`), as a pure state
    machine. Both copies of the class are covered: `MarketStream` is the one
    with the simulated news side-channel, `Realtime` the one without.
    Every event of the class (a public call, a socket callback, a timer
    firing) is a function from the current state to a `Transition`: the next
    state and the effects of the event (frames sent on the socket, deliveries
    to listeners, a retry scheduled). */
module StreamGateway {
  import opened Wrappers
  import opened Frames

  /** A registered callback. Dafny has no function identity, so callbacks are
      named by ids; two registrations of the same callback share an id. */
  type ListenerId = nat

  /** Minimum gap between two dispatched non-news messages (`updateThreshold`). */
  const ThrottleMs: int := 1000
  /** Backoff base and cap, in milliseconds. */
  const BaseDelayMs: nat := 1000
  const MaxDelayMs: nat := 30000
  /** The symbol `subscribeForex` subscribes, whatever pair it is given. */
  const ForexSymbol: Symbol := "IC MARKETS:1"

  datatype Flavor = MarketStream | Realtime

  /** `WebSocket.readyState`. The gateway never calls `close()` itself, but a
      close started by the server leaves the socket CLOSING until `onclose`
      fires. */
  datatype ReadyState = Connecting | Open | Closing | Closed

  /** A socket object. Ids are handed out in creation order, so a socket that
      `connect` replaced keeps an id that differs from the current one. */
  datatype Socket = Socket(id: nat, ready: ReadyState)

  datatype Gateway = Gateway(
    flavor: Flavor,
    socket: Option<Socket>,     // `this.socket`
    created: nat,               // sockets created so far, the next socket id
    active: seq<Symbol>,        // `activeSubscriptions`, in Set insertion order
    listeners: seq<ListenerId>, // `subscribers`, in registration order
    lastUpdate: int,            // time of the last dispatch, ms
    reconnectAttempts: nat,
    newsInterval: bool)         // whether the simulated news interval exists

  /** One call of one listener with one message. */
  datatype Delivery = Delivery(listener: ListenerId, msg: Frame)

  /** What an event did besides changing the state. */
  datatype Effects = Effects(
    sent: seq<Outbound>,
    delivered: seq<Delivery>,
    retryIn: Option<nat>)       // a `setTimeout(connect, delay)` scheduled

  const NoEffects: Effects := Effects([], [], None)

  datatype Transition = Transition(next: Gateway, fx: Effects)

  /** The events the gateway reacts to. The backoff timer calls `connect`,
      so its firing is `CallConnect`. Time, the news item's UUID and the
      random draw picking its headline are inputs of the events. */
  datatype Event =
    | CallConnect
    | CallSubscribeTicker(symbol: Symbol)
    | CallSubscribeForex(from: string, to: string)
    | CallSubscribe(listener: ListenerId)
    | CallUnsubscribe(listener: ListenerId)
    | SocketOpen(sock: nat)
    | SocketClosing(sock: nat)
    | SocketClose(sock: nat)
    | SocketMessage(sock: nat, now: int, frame: Frame)
    | NewsTimer(now: int, uuid: string, roll: real)

  /** `Math.random()` lies in [0, 1), and a decoded frame of another type
      never carries the tag "news" or "trade". */
  predicate WellFormedEvent(ev: Event) {
    && (ev.NewsTimer? ==> 0.0 <= ev.roll < 1.0)
    && (ev.SocketMessage? && ev.frame.Other? ==> ev.frame.tag != "news" && ev.frame.tag != "trade")
  }

  predicate NoDup<T(==)>(s: seq<T>) {
    forall i, j :: 0 <= i < j < |s| ==> s[i] != s[j]
  }

  function Elems<T>(s: seq<T>): set<T> {
    set x | x in s
  }

  /** The state invariant: the active set is a set, the current socket is one
      that was created, and only the market-stream copy has a news interval. */
  predicate Valid(g: Gateway) {
    && NoDup(g.active)
    && (g.socket.Some? ==> g.socket.value.id < g.created)
    && (g.flavor == Realtime ==> !g.newsInterval)
  }

  /** A fresh instance, as created at module load. */
  function Init(flavor: Flavor): (g: Gateway)
    ensures Valid(g)
    ensures g.socket.None? && g.active == [] && g.listeners == []
    ensures g.lastUpdate == 0 && g.reconnectAttempts == 0 && !g.newsInterval
  {
    Gateway(flavor, None, 0, [], [], 0, 0, false)
  }

  predicate IsOpen(g: Gateway) {
    g.socket.Some? && g.socket.value.ready == Open
  }

  predicate IsCurrent(g: Gateway, sock: nat) {
    g.socket.Some? && g.socket.value.id == sock
  }

  // ---------------------------------------------------------------------
  // Backoff

  function Pow2(n: nat): (r: nat)
    ensures r >= 1
  {
    if n == 0 then 1 else 2 * Pow2(n - 1)
  }

  /** `Math.min(1000 * 2 ** attempts, 30000)`. */
  function RetryDelay(attempts: nat): (d: nat)
    ensures d <= MaxDelayMs
    ensures attempts >= 1 ==> d >= 2 * BaseDelayMs
  {
    PowAtLeastDouble(attempts);
    if BaseDelayMs * Pow2(attempts) < MaxDelayMs then BaseDelayMs * Pow2(attempts) else MaxDelayMs
  }

  lemma PowAtLeastDouble(n: nat)
    ensures n >= 1 ==> Pow2(n) >= 2
  {
  }

  lemma {:induction false} Pow2Monotone(a: nat, b: nat)
    requires a <= b
    ensures Pow2(a) <= Pow2(b)
  {
    if a < b {
      Pow2Monotone(a, b - 1);
    }
  }

  /** Delays never decrease as the attempt counter grows. */
  lemma RetryDelayMonotone(a: nat, b: nat)
    requires a <= b
    ensures RetryDelay(a) <= RetryDelay(b)
  {
    Pow2Monotone(a, b);
  }

  /** From the fifth consecutive failure on, the delay sits at the cap. */
  lemma {:induction false} RetryDelayCapped(n: nat)
    requires n >= 5
    ensures RetryDelay(n) == MaxDelayMs
  {
    Pow2Monotone(5, n);
  }

  /** The first five delays are 2 s, 4 s, 8 s, 16 s and 30 s. */
  lemma RetryDelayTable()
    ensures RetryDelay(1) == 2000 && RetryDelay(2) == 4000 && RetryDelay(3) == 8000
    ensures RetryDelay(4) == 16000 && RetryDelay(5) == 30000
  {
  }

  // ---------------------------------------------------------------------
  // Subscription set

  /** `Set.add`: a no-op when the symbol is present, an append otherwise. */
  function Insert(active: seq<Symbol>, s: Symbol): (r: seq<Symbol>)
    ensures Elems(r) == Elems(active) + {s}
    ensures NoDup(active) ==> NoDup(r)
    ensures active <= r
  {
    if s in active then active else active + [s]
  }

  /** The frames of `resubscribeAll`: one subscribe frame per active symbol,
      in iteration order. */
  function Replay(active: seq<Symbol>): (r: seq<Outbound>)
    ensures |r| == |active|
    ensures forall i :: 0 <= i < |active| ==> r[i] == SubscribeFrame(active[i])
  {
    if active == [] then [] else [SubscribeFrame(active[0])] + Replay(active[1..])
  }

  /** On a duplicate-free active set the replay sends exactly one frame for
      each active symbol and none for any other. */
  lemma {:induction false} ReplayOncePerSymbol(active: seq<Symbol>, x: Symbol)
    requires NoDup(active)
    ensures multiset(Replay(active))[SubscribeFrame(x)] == if x in active then 1 else 0
  {
    if active != [] {
      ReplayOncePerSymbol(active[1..], x);
      assert Replay(active) == [SubscribeFrame(active[0])] + Replay(active[1..]);
      assert x == active[0] ==> x !in active[1..];
      assert x in active <==> x == active[0] || x in active[1..];
    }
  }

  // ---------------------------------------------------------------------
  // Listener registry

  /** The registry after `subscribers.filter(s => s !== callback)`. */
  function Without(ls: seq<ListenerId>, id: ListenerId): (r: seq<ListenerId>)
    ensures id !in r
    ensures forall x :: x != id ==> (x in r <==> x in ls)
    ensures |r| <= |ls|
  {
    if ls == [] then []
    else if ls[0] == id then Without(ls[1..], id)
    else [ls[0]] + Without(ls[1..], id)
  }

  /** Removal keeps the relative order of the remaining registrations. */
  lemma {:induction false} WithoutDistributes(a: seq<ListenerId>, b: seq<ListenerId>, id: ListenerId)
    ensures Without(a + b, id) == Without(a, id) + Without(b, id)
  {
    if a != [] {
      assert (a + b)[1..] == a[1..] + b;
      WithoutDistributes(a[1..], b, id);
    } else {
      assert a + b == b;
    }
  }

  /** Removal leaves a registry without `id` unchanged, hence is idempotent. */
  lemma {:induction false} WithoutAbsent(ls: seq<ListenerId>, id: ListenerId)
    requires id !in ls
    ensures Without(ls, id) == ls
  {
    if ls != [] {
      WithoutAbsent(ls[1..], id);
    }
  }

  /** One delivery per registration, in registration order. */
  function Fanout(ls: seq<ListenerId>, msg: Frame): (r: seq<Delivery>)
    ensures |r| == |ls|
    ensures forall i :: 0 <= i < |ls| ==> r[i] == Delivery(ls[i], msg)
  {
    if ls == [] then [] else [Delivery(ls[0], msg)] + Fanout(ls[1..], msg)
  }

  // ---------------------------------------------------------------------
  // Public calls

  /** `connect()`: a no-op exactly when the current socket is OPEN; in every
      other case, still-connecting included, a new socket replaces it. */
  function Connect(g: Gateway): (t: Transition)
    ensures t.fx == NoEffects
    ensures IsOpen(g) ==> t.next == g
    ensures !IsOpen(g) ==>
      && t.next.socket == Some(Socket(g.created, Connecting))
      && t.next.created == g.created + 1
      && t.next == g.(socket := t.next.socket, created := t.next.created)
    ensures Valid(g) ==> Valid(t.next)
  {
    if IsOpen(g) then Transition(g, NoEffects)
    else Transition(g.(socket := Some(Socket(g.created, Connecting)), created := g.created + 1), NoEffects)
  }

  /** `subscribeTicker(s)`: `s` joins the active set in every state; one
      subscribe frame goes out per call while the socket is open, none
      otherwise. */
  function SubscribeTicker(g: Gateway, s: Symbol): (t: Transition)
    ensures Elems(t.next.active) == Elems(g.active) + {s}
    ensures g.active <= t.next.active
    ensures t.next == g.(active := t.next.active)
    ensures t.fx.sent == (if IsOpen(g) then [SubscribeFrame(s)] else [])
    ensures t.fx.delivered == [] && t.fx.retryIn.None?
    ensures Valid(g) ==> Valid(t.next)
  {
    Transition(g.(active := Insert(g.active, s)),
               Effects(if IsOpen(g) then [SubscribeFrame(s)] else [], [], None))
  }

  /** `subscribeForex(from, to)` ignores its pair and subscribes the fixed
      placeholder symbol. */
  function SubscribeForex(g: Gateway, from: string, to: string): (t: Transition)
    ensures ForexSymbol in t.next.active
    ensures Elems(t.next.active) == Elems(g.active) + {"IC MARKETS:1"}
    ensures t.fx.sent == (if IsOpen(g) then [SubscribeFrame("IC MARKETS:1")] else [])
    ensures t.next == g.(active := t.next.active)
  {
    SubscribeTicker(g, ForexSymbol)
  }

  /** `subscribe(callback)`: the callback is appended to the registry. */
  function Subscribe(g: Gateway, id: ListenerId): (t: Transition)
    ensures t.next.listeners == g.listeners + [id]
    ensures t.next == g.(listeners := t.next.listeners)
    ensures t.fx == NoEffects
  {
    Transition(g.(listeners := g.listeners + [id]), NoEffects)
  }

  /** The handle returned by `subscribe`: every registration of that callback
      goes, the others stay in order, and nothing else changes. */
  function Unsubscribe(g: Gateway, id: ListenerId): (t: Transition)
    ensures id !in t.next.listeners
    ensures forall x :: x != id ==> (x in t.next.listeners <==> x in g.listeners)
    ensures t.next == g.(listeners := t.next.listeners)
    ensures t.fx == NoEffects
  {
    Transition(g.(listeners := Without(g.listeners, id)), NoEffects)
  }

  // ---------------------------------------------------------------------
  // Socket callbacks and timers

  /** The throttle rule of `notifySubscribers`: a news message always passes;
      any other message passes once `ThrottleMs` have elapsed since the last
      dispatch. */
  predicate PassesThrottle(g: Gateway, now: int, msg: Frame) {
    msg.News? || now - g.lastUpdate >= ThrottleMs
  }

  /** `notifySubscribers(data)` at time `now`. */
  function Notify(g: Gateway, now: int, msg: Frame): (t: Transition)
    ensures PassesThrottle(g, now, msg) ==>
      && t.fx.delivered == Fanout(g.listeners, msg)
      && t.next == g.(lastUpdate := now)
    ensures !PassesThrottle(g, now, msg) ==> t.next == g && t.fx.delivered == []
    ensures t.fx.sent == [] && t.fx.retryIn.None?
  {
    if now - g.lastUpdate < ThrottleMs && !msg.News? then Transition(g, NoEffects)
    else Transition(g.(lastUpdate := now), Effects([], Fanout(g.listeners, msg), None))
  }

  /** `onmessage`: the frame is parsed and handed to `notifySubscribers`. A
      frame that does not parse throws before that, so it reaches nobody and
      changes nothing. The handler of a replaced socket still runs, so the
      socket id plays no part. */
  function OnMessage(g: Gateway, sock: nat, now: int, frame: Frame): (t: Transition)
    ensures frame.Malformed? ==> t == Transition(g, NoEffects)
    ensures !frame.Malformed? ==> t == Notify(g, now, frame)
  {
    if frame.Malformed? then Transition(g, NoEffects) else Notify(g, now, frame)
  }

  /** `onopen`: the attempt counter drops to 0, every active symbol is
      replayed if the CURRENT socket is open, and (market-stream copy only)
      the news interval is started unless it already exists. An open event
      from a socket that `connect` has since replaced runs the same handler
      but leaves the current socket's state alone. */
  function OnOpen(g: Gateway, sock: nat): (t: Transition)
    ensures t.next.reconnectAttempts == 0
    ensures t.next.active == g.active && t.next.listeners == g.listeners
    ensures t.next.lastUpdate == g.lastUpdate && t.next.created == g.created
    ensures t.next.flavor == g.flavor
    ensures IsCurrent(g, sock) ==> t.next.socket == Some(Socket(sock, Open))
    ensures !IsCurrent(g, sock) ==> t.next.socket == g.socket
    ensures t.fx.sent == (if IsOpen(t.next) then Replay(g.active) else [])
    ensures t.fx.delivered == [] && t.fx.retryIn.None?
    ensures t.next.newsInterval == (g.flavor == MarketStream || g.newsInterval)
    ensures Valid(g) ==> Valid(t.next)
  {
    var socket := if IsCurrent(g, sock) then Some(Socket(sock, Open)) else g.socket;
    var news := if g.flavor == MarketStream then true else g.newsInterval;
    var g' := g.(socket := socket, reconnectAttempts := 0, newsInterval := news);
    Transition(g', Effects(if IsOpen(g') then Replay(g.active) else [], [], None))
  }

  /** The browser starting the close handshake: the current socket, unless
      already closed, turns CLOSING. No handler runs, but from now on
      `subscribeTicker` sends nothing and `connect` replaces the socket. */
  function OnClosing(g: Gateway, sock: nat): (t: Transition)
    ensures t.fx == NoEffects
    ensures t.next == g.(socket := t.next.socket)
    ensures IsCurrent(g, sock) && g.socket.value.ready != Closed ==>
      t.next.socket == Some(Socket(sock, Closing))
    ensures !IsCurrent(g, sock) || g.socket.value.ready == Closed ==> t.next == g
    ensures IsCurrent(g, sock) ==> !IsOpen(t.next)
    ensures Valid(g) ==> Valid(t.next)
  {
    if IsCurrent(g, sock) && g.socket.value.ready != Closed
    then Transition(g.(socket := Some(Socket(sock, Closing))), NoEffects)
    else Transition(g, NoEffects)
  }

  /** `onclose`: the attempt counter goes up by one, a reconnect is scheduled
      after `RetryDelay` of the new count, and the news interval is cleared. */
  function OnClose(g: Gateway, sock: nat): (t: Transition)
    ensures t.next.reconnectAttempts == g.reconnectAttempts + 1
    ensures t.fx.retryIn == Some(RetryDelay(g.reconnectAttempts + 1))
    ensures 2 * BaseDelayMs <= t.fx.retryIn.value <= MaxDelayMs
    ensures !t.next.newsInterval
    ensures IsCurrent(g, sock) ==> t.next.socket == Some(Socket(sock, Closed))
    ensures !IsCurrent(g, sock) ==> t.next.socket == g.socket
    ensures !IsOpen(g) ==> !IsOpen(t.next)
    ensures t.next.active == g.active && t.next.listeners == g.listeners
    ensures t.next.lastUpdate == g.lastUpdate && t.next.created == g.created
    ensures t.next.flavor == g.flavor
    ensures t.fx.sent == [] && t.fx.delivered == []
    ensures Valid(g) ==> Valid(t.next)
  {
    var socket := if IsCurrent(g, sock) then Some(Socket(sock, Closed)) else g.socket;
    var attempts := g.reconnectAttempts + 1;
    Transition(g.(socket := socket, reconnectAttempts := attempts, newsInterval := false),
               Effects([], [], Some(RetryDelay(attempts))))
  }

  datatype Headline = Headline(headline: string, source: string, summary: string)

  /** The eight canned items of the simulated wire. */
  const MockHeadlines: seq<Headline> := [
    Headline("Fed Chairman Powell Signals Possible Rate Cut in Q3", "Bloomberg",
             "Federal Reserve officials discuss monetary easing strategies amid cooling inflation metrics."),
    Headline("Tech Sector Rally Continues as AI Demand Surges", "Reuters",
             "Major chipmakers see record volumes as data center expansion accelerates globally."),
    Headline("Oil Prices Stabilize After Volatile Week", "CNBC",
             "Crude futures find support near $80/barrel following OPEC+ production announcements."),
    Headline("Bitcoin Breaks Key Resistance Level at $65k", "CoinDesk",
             "Institutional inflows via ETFs drive crypto market sentiment higher."),
    Headline("ECB President Lagarde Comments on Eurozone Growth", "Financial Times",
             "European Central Bank maintains cautious outlook for fiscal year 2026."),
    Headline("Tesla Gigafactory Expansion Plans Leaked", "The Verge",
             "Internal documents suggest new manufacturing hub planned for Southeast Asia."),
    Headline("Apple Unveils New Vision Pro Enterprise Features", "TechCrunch",
             "Spatial computing platform targets corporate adoption with new software suite."),
    Headline("Goldman Sachs Raises S&P 500 Year-End Target", "WSJ",
             "Analysts cite resilient consumer spending and corporate earnings growth.")
  ]

  /** `mockNews[Math.floor(Math.random() * mockNews.length)]`. */
  function PickHeadline(roll: real): (h: Headline)
    requires 0.0 <= roll < 1.0
    ensures h in MockHeadlines
  {
    var k := (roll * (|MockHeadlines| as real)).Floor;
    MockHeadlines[k]
  }

  /** The item one interval tick broadcasts at time `now`. */
  function MockNewsItem(now: int, uuid: string, roll: real): (item: NewsPayload)
    requires 0.0 <= roll < 1.0
    ensures item.id == uuid && item.url == "#"
    ensures item.datetime * 1000.0 == now as real
    ensures exists h :: h in MockHeadlines && item.headline == h.headline
                        && item.summary == h.summary && item.source == h.source
  {
    var h := PickHeadline(roll);
    NewsPayload(uuid, h.headline, h.summary, h.source, "#", now as real / 1000.0)
  }

  /** One tick of the news interval: broadcast as if it came from the socket,
      so it goes through `notifySubscribers` and, being news, is never
      throttled. Without an interval there is no tick to fire. */
  function NewsTick(g: Gateway, now: int, uuid: string, roll: real): (t: Transition)
    requires 0.0 <= roll < 1.0
    ensures !g.newsInterval ==> t == Transition(g, NoEffects)
    ensures g.newsInterval ==>
      && t.next == g.(lastUpdate := now)
      && |t.fx.delivered| == |g.listeners|
      && forall i :: 0 <= i < |g.listeners| ==>
           t.fx.delivered[i] == Delivery(g.listeners[i], News(MockNewsItem(now, uuid, roll)))
  {
    if !g.newsInterval then Transition(g, NoEffects)
    else Notify(g, now, News(MockNewsItem(now, uuid, roll)))
  }

  /** The gateway's reaction to any event. */
  function Step(g: Gateway, ev: Event): (t: Transition)
    requires WellFormedEvent(ev)
    ensures Valid(g) ==> Valid(t.next)
    ensures t.next.flavor == g.flavor
    ensures Elems(g.active) <= Elems(t.next.active)
  {
    match ev
    case CallConnect => Connect(g)
    case CallSubscribeTicker(s) => SubscribeTicker(g, s)
    case CallSubscribeForex(from, to) => SubscribeForex(g, from, to)
    case CallSubscribe(id) => Subscribe(g, id)
    case CallUnsubscribe(id) => Unsubscribe(g, id)
    case SocketOpen(sock) => OnOpen(g, sock)
    case SocketClosing(sock) => OnClosing(g, sock)
    case SocketClose(sock) => OnClose(g, sock)
    case SocketMessage(sock, now, frame) => OnMessage(g, sock, now, frame)
    case NewsTimer(now, uuid, roll) => NewsTick(g, now, uuid, roll)
  }
}
