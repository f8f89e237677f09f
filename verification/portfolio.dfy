/** A portfolio position, as the dashboard, the analyst and the trade handler
    see it. Prices and quantities are exact reals. */
module Portfolio {

  datatype Asset = Asset(
    id: string,
    symbol: string,
    name: string,
    assetType: string,
    quantity: real,
    avgPrice: real,
    currentPrice: real,
    change24h: real,
    lastUpdated: string)

  /** `quantity * currentPrice`. */
  function MarketValue(a: Asset): real {
    a.quantity * a.currentPrice
  }
}
