/** Vocabulary shared by the broker modules. */
module Market {

  datatype Option<+T> = None | Some(value: T)

  datatype Side = Buy | Sell

  datatype OrderKind = MarketOrder | LimitOrder | StopLimit | StopMarket

  datatype Product = CNC | MIS | NRML | CO | BO

  predicate Intraday(p: Product) { p in {MIS, CO, BO} }

  datatype Reason =
    | InvalidQuantity | InvalidPrice | SessionGate | NoPrice | StalePrice
    | NoLiquidityData | NoLiquidity | InsufficientCash | InsufficientHoldings
    | ShortSellNotSupported | PersistenceDegraded
}
