/** The messages crossing the market-data socket, already decoded. Decoding
    the JSON text itself is not part of this model: a frame that `JSON.parse`
    rejects arrives as `Malformed`. */
module Frames {

  type Symbol = string

  /** One element of the `data` array of a trade frame: `{p, s, t, v}`. */
  datatype Tick = Tick(s: Symbol, p: real, t: int, v: real)

  /** The payload of a `news` message, as the simulated wire broadcasts it.
      `datetime` is in seconds (the source divides `Date.now()` by 1000). */
  datatype NewsPayload = NewsPayload(
    id: string,
    headline: string,
    summary: string,
    source: string,
    url: string,
    datetime: real)

  /** An inbound frame after decoding. `Other` stands for every well-formed
      object whose `type` is neither "trade" nor "news". */
  datatype Frame =
    | Trade(ticks: seq<Tick>)
    | News(item: NewsPayload)
    | Other(tag: string)
    | Malformed

  /** The only control message the gateway ever sends:
      `{"type": "subscribe", "symbol": <symbol>}`. */
  datatype Outbound = SubscribeFrame(symbol: Symbol)
}
