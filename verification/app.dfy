/** The top-level application state that reacts to the gateway: the trade
    handler registered with `subscribe`, and adding or deleting a position. */
module App {
  import opened Wrappers
  import opened Frames
  import opened Portfolio
  import StreamGateway

  /** The symbols shown on the scrolling ticker. */
  const TickerSymbols: seq<Symbol> := ["AAPL", "GOOGL", "MSFT", "AMZN", "META", "TSLA", "NVDA", "BTC", "ETH"]

  datatype Quote = Quote(price: real, change: real)

  datatype AppState = AppState(assets: seq<Asset>, ticker: map<Symbol, Quote>)

  /** `prev[symbol]?.change || 0`. */
  function ChangeOr0(ticker: map<Symbol, Quote>, s: Symbol): real {
    if s in ticker then ticker[s].change else 0.0
  }

  /** The asset update of one trade: a new price and timestamp on every
      position with the traded symbol. */
  function ApplyTradeToAssets(assets: seq<Asset>, t: Tick, stamp: string): (r: seq<Asset>)
    ensures |r| == |assets|
    ensures forall i :: 0 <= i < |assets| && assets[i].symbol == t.s ==>
      r[i] == assets[i].(currentPrice := t.p, lastUpdated := stamp)
    ensures forall i :: 0 <= i < |assets| && assets[i].symbol != t.s ==> r[i] == assets[i]
  {
    if assets == [] then []
    else
      var a := assets[0];
      [if a.symbol == t.s then a.(currentPrice := t.p, lastUpdated := stamp) else a]
        + ApplyTradeToAssets(assets[1..], t, stamp)
  }

  /** The ticker update of one trade: only ticker symbols change, and they
      keep their previous 24h change (0 if there was none). */
  function ApplyTradeToTicker(ticker: map<Symbol, Quote>, t: Tick): (r: map<Symbol, Quote>)
    ensures t.s !in TickerSymbols ==> r == ticker
    ensures t.s in TickerSymbols ==> r == ticker[t.s := Quote(t.p, ChangeOr0(ticker, t.s))]
  {
    if t.s in TickerSymbols then ticker[t.s := Quote(t.p, ChangeOr0(ticker, t.s))] else ticker
  }

  /** The trades of one message, applied in array order. */
  function ApplyTrades(st: AppState, ticks: seq<Tick>, stamp: string): (r: AppState)
    ensures |r.assets| == |st.assets|
    ensures forall i :: 0 <= i < |st.assets| ==>
      r.assets[i] == st.assets[i].(currentPrice := r.assets[i].currentPrice, lastUpdated := r.assets[i].lastUpdated)
    decreases |ticks|
  {
    if ticks == [] then st
    else
      var st' := AppState(ApplyTradeToAssets(st.assets, ticks[0], stamp), ApplyTradeToTicker(st.ticker, ticks[0]));
      ApplyTrades(st', ticks[1..], stamp)
  }

  /** The listener the application registers with the gateway: only trade
      messages change anything. */
  function OnGatewayMessage(st: AppState, msg: Frame, stamp: string): (r: AppState)
    ensures !msg.Trade? ==> r == st
    ensures |r.assets| == |st.assets|
    ensures forall i :: 0 <= i < |st.assets| ==>
      && r.assets[i].id == st.assets[i].id && r.assets[i].symbol == st.assets[i].symbol
      && r.assets[i].quantity == st.assets[i].quantity && r.assets[i].avgPrice == st.assets[i].avgPrice
  {
    if msg.Trade? then ApplyTrades(st, msg.ticks, stamp) else st
  }

  /** The price of the last trade for `s` in a message, if any: a later trade
      overrides an earlier one. */
  function LastPrice(ticks: seq<Tick>, s: Symbol): (r: Option<real>)
    ensures r.None? <==> forall k :: 0 <= k < |ticks| ==> ticks[k].s != s
    ensures r.Some? ==> exists k :: 0 <= k < |ticks| && ticks[k].s == s && ticks[k].p == r.value
                                    && forall j :: k < j < |ticks| ==> ticks[j].s != s
  {
    if ticks == [] then None
    else
      var later := LastPrice(ticks[1..], s);
      if later.Some? then
        var k :| 0 <= k < |ticks[1..]| && ticks[1..][k].s == s && ticks[1..][k].p == later.value
                 && forall j :: k < j < |ticks[1..]| ==> ticks[1..][j].s != s;
        assert ticks[k + 1] == ticks[1..][k];
        later
      else if ticks[0].s == s then Some(ticks[0].p)
      else None
  }

  /** After a trade message every position ends at the price of the last
      trade for its symbol; a position whose symbol was not traded is left
      exactly as it was. */
  lemma {:induction false} LastTradeWins(st: AppState, ticks: seq<Tick>, stamp: string, i: nat)
    requires i < |st.assets|
    ensures var a := ApplyTrades(st, ticks, stamp).assets[i];
      && a.currentPrice == LastPrice(ticks, st.assets[i].symbol).GetOr(st.assets[i].currentPrice)
      && (LastPrice(ticks, st.assets[i].symbol).None? ==> a == st.assets[i])
    decreases |ticks|
  {
    if ticks != [] {
      var st' := AppState(ApplyTradeToAssets(st.assets, ticks[0], stamp), ApplyTradeToTicker(st.ticker, ticks[0]));
      LastTradeWins(st', ticks[1..], stamp, i);
    }
  }

  /** After a trade message the ticker changes only at ticker symbols that
      were traded: each of those holds the last traded price and the change
      it had before (0 if it had none); every other entry is untouched. */
  lemma {:induction false} TickerAfterTrades(st: AppState, ticks: seq<Tick>, stamp: string, s: Symbol)
    ensures var m := ApplyTrades(st, ticks, stamp).ticker;
      if s in TickerSymbols && LastPrice(ticks, s).Some? then
        s in m && m[s] == Quote(LastPrice(ticks, s).value, ChangeOr0(st.ticker, s))
      else
        (s in m <==> s in st.ticker) && (s in m ==> m[s] == st.ticker[s])
    decreases |ticks|
  {
    if ticks != [] {
      var st' := AppState(ApplyTradeToAssets(st.assets, ticks[0], stamp), ApplyTradeToTicker(st.ticker, ticks[0]));
      TickerAfterTrades(st', ticks[1..], stamp, s);
    }
  }

  /** `handleAddAsset`: the new position, completed with its id and
      timestamp, is appended, and its symbol is subscribed with the gateway. */
  function AddAsset(assets: seq<Asset>, gw: StreamGateway.Gateway, draft: Asset, id: string, stamp: string)
    : (r: (seq<Asset>, StreamGateway.Transition))
    ensures r.0 == assets + [draft.(id := id, lastUpdated := stamp)]
    ensures draft.symbol in r.1.next.active
    ensures StreamGateway.Elems(r.1.next.active) == StreamGateway.Elems(gw.active) + {draft.symbol}
    ensures r.1.fx.sent == (if StreamGateway.IsOpen(gw) then [SubscribeFrame(draft.symbol)] else [])
  {
    (assets + [draft.(id := id, lastUpdated := stamp)], StreamGateway.SubscribeTicker(gw, draft.symbol))
  }

  /** `handleDeleteAsset`: `assets.filter(a => a.id !== id)`. */
  function DeleteAsset(assets: seq<Asset>, id: string): (r: seq<Asset>)
    ensures forall a :: a in r <==> a in assets && a.id != id
    ensures |r| <= |assets|
  {
    if assets == [] then []
    else if assets[0].id == id then DeleteAsset(assets[1..], id)
    else [assets[0]] + DeleteAsset(assets[1..], id)
  }

  /** Deleting keeps the remaining positions in their order, and deleting an
      id that is not present changes nothing. */
  lemma {:induction false} DeleteKeepsOrder(a: seq<Asset>, b: seq<Asset>, id: string)
    ensures DeleteAsset(a + b, id) == DeleteAsset(a, id) + DeleteAsset(b, id)
    ensures (forall x :: x in a ==> x.id != id) ==> DeleteAsset(a, id) == a
  {
    if a != [] {
      assert (a + b)[1..] == a[1..] + b;
      DeleteKeepsOrder(a[1..], b, id);
    } else {
      assert a + b == b;
    }
  }
}
