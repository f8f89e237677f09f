/** The news panel's buffer: the listener it registers with the gateway
    keeps the 50 most recent news items, newest first. The panel registers
    on the gateway copy without the simulated news wire; the last lemmas
    compare that with registering on the copy that runs it. */
module NewsFeed {
  import opened Frames
  import StreamGateway

  /** A stored item; `datetime` is in milliseconds. */
  datatype NewsItem = NewsItem(id: string, headline: string, summary: string, source: string, url: string, datetime: real)

  const MaxItems: nat := 50

  /** The item built from a news payload: the seconds timestamp becomes
      milliseconds, every other field is copied. */
  function ToItem(p: NewsPayload): (item: NewsItem)
    ensures item.datetime == p.datetime * 1000.0
    ensures item.id == p.id && item.headline == p.headline && item.summary == p.summary
    ensures item.source == p.source && item.url == p.url
  {
    NewsItem(p.id, p.headline, p.summary, p.source, p.url, p.datetime * 1000.0)
  }

  /** `[newItem, ...prev].slice(0, 50)` for news messages; anything else
      leaves the list alone. */
  function OnGatewayMessage(news: seq<NewsItem>, msg: Frame): (r: seq<NewsItem>)
    ensures !msg.News? ==> r == news
    ensures msg.News? ==>
      && |r| == (if |news| < MaxItems then |news| + 1 else MaxItems)
      && r[0] == ToItem(msg.item)
      && r[1..] == news[..|r| - 1]
    ensures |r| <= MaxItems || r == news
  {
    if msg.News? then ([ToItem(msg.item)] + news)[..if |news| + 1 < MaxItems then |news| + 1 else MaxItems]
    else news
  }

  /** The list after a run of messages. */
  function Feed(news: seq<NewsItem>, msgs: seq<Frame>): (r: seq<NewsItem>)
    ensures |news| <= MaxItems ==> |r| <= MaxItems
    decreases |msgs|
  {
    if msgs == [] then news else Feed(OnGatewayMessage(news, msgs[0]), msgs[1..])
  }

  /** Once the buffer is full, each news item pushes out the oldest one. */
  lemma FullBufferDropsOldest(news: seq<NewsItem>, p: NewsPayload)
    requires |news| == MaxItems
    ensures OnGatewayMessage(news, News(p)) == [ToItem(p)] + news[..MaxItems - 1]
  {
  }

  // ---------------------------------------------------------------------
  // Which gateway copy the panel listens on. The panel imports the copy
  // without the simulated news wire, while the app's trade handler listens on
  // the copy that runs it. The lemmas below show what each choice delivers.

  /** The gateway copy the panel's listener belongs on: the one whose open
      starts the simulated news interval. */
  const PanelFlavor: StreamGateway.Flavor := StreamGateway.MarketStream

  /** The panel's list after the gateway hands out the deliveries `ds`: the
      panel's listener `id` takes every frame addressed to it, in order, and
      frames for other listeners leave the list alone. */
  function Receive(news: seq<NewsItem>, ds: seq<StreamGateway.Delivery>, id: StreamGateway.ListenerId): (r: seq<NewsItem>)
    ensures (forall i :: 0 <= i < |ds| ==> ds[i].listener != id) ==> r == news
    ensures |news| <= MaxItems ==> |r| <= MaxItems
    decreases |ds|
  {
    if ds == [] then news
    else Receive(if ds[0].listener == id then OnGatewayMessage(news, ds[0].msg) else news, ds[1..], id)
  }

  /** A broadcast of one news item that reaches the panel's listener at least
      once leaves that item at the head of the list. */
  lemma {:induction false} ReceiveBroadcastNews(news: seq<NewsItem>, ds: seq<StreamGateway.Delivery>,
                                                id: StreamGateway.ListenerId, p: NewsPayload)
    requires forall i :: 0 <= i < |ds| ==> ds[i].msg == News(p)
    requires exists i :: 0 <= i < |ds| && ds[i].listener == id
    ensures |Receive(news, ds, id)| > 0 && Receive(news, ds, id)[0] == ToItem(p)
    decreases |ds|
  {
    var tail := ds[1..];
    assert forall i :: 0 <= i < |tail| ==> tail[i] == ds[i + 1];
    var news' := if ds[0].listener == id then OnGatewayMessage(news, ds[0].msg) else news;
    assert Receive(news, ds, id) == Receive(news', tail, id);
    if exists i :: 0 <= i < |tail| && tail[i].listener == id {
      ReceiveBroadcastNews(news', tail, id, p);
    } else {
      assert ds[0].listener == id;
    }
  }

  /** As the panel is wired: on the copy without the news wire, no news tick
      ever reaches the panel, even right after an open, so the simulated
      headlines never show up and the list stays as it was. */
  lemma RealtimePanelMissesSimulatedNews(g: StreamGateway.Gateway, sock: nat, news: seq<NewsItem>,
                                         id: StreamGateway.ListenerId, now: int, uuid: string, roll: real)
    requires StreamGateway.Valid(g) && g.flavor == StreamGateway.Realtime && 0.0 <= roll < 1.0
    ensures var afterOpen := StreamGateway.OnOpen(g, sock).next;
      Receive(news, StreamGateway.NewsTick(afterOpen, now, uuid, roll).fx.delivered, id) == news
  {
  }

  /** On the copy with the news wire, the first news tick after an open
      broadcasts the simulated item to every registered listener, in order. */
  lemma TickAfterOpenBroadcasts(g: StreamGateway.Gateway, sock: nat, now: int, uuid: string, roll: real)
    requires g.flavor == StreamGateway.MarketStream && 0.0 <= roll < 1.0
    ensures StreamGateway.NewsTick(StreamGateway.OnOpen(g, sock).next, now, uuid, roll).fx.delivered
      == StreamGateway.Fanout(g.listeners, News(StreamGateway.MockNewsItem(now, uuid, roll)))
  {
  }

  /** With the panel's listener on `PanelFlavor`, the first news tick after an
      open reaches it: the newest item is the simulated one, stamped with the
      tick's time in milliseconds (the division by 1000 in the gateway and the
      multiplication here cancel out). */
  lemma PanelGetsSimulatedNews(g: StreamGateway.Gateway, sock: nat, news: seq<NewsItem>,
                               id: StreamGateway.ListenerId, now: int, uuid: string, roll: real)
    requires g.flavor == PanelFlavor && id in g.listeners && 0.0 <= roll < 1.0
    ensures var afterOpen := StreamGateway.OnOpen(g, sock).next;
      var r := Receive(news, StreamGateway.NewsTick(afterOpen, now, uuid, roll).fx.delivered, id);
      && |r| > 0
      && r[0] == ToItem(StreamGateway.MockNewsItem(now, uuid, roll))
      && r[0].datetime == now as real
  {
    var item := StreamGateway.MockNewsItem(now, uuid, roll);
    var ds := StreamGateway.Fanout(g.listeners, News(item));
    TickAfterOpenBroadcasts(g, sock, now, uuid, roll);
    var k :| 0 <= k < |g.listeners| && g.listeners[k] == id;
    assert ds[k].listener == id;
    ReceiveBroadcastNews(news, ds, id, item);
  }
}
