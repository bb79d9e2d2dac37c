/**
 * The REST client library the commands forward to, reduced to its interface:
 * the loosely typed argument bag and one value per operation the commands can
 * request. What the library does with a request is not part of this model.
 */
module Gemini {
  import Util

  /** A value in the argument bag: an integer, a string or a parsed instant. */
  datatype ArgVal = IntV(i: int) | StrV(s: string) | InstantV(t: Util.Instant)

  /** gemini.Args */
  type Args = map<string, ArgVal>

  /** One collaborator operation with the arguments it is handed. */
  datatype Op =
    | AccountDetail
    | Balances
    | Transfers(args: Args)
    | DepositAddresses(network: string)
    | NewDepositAddress(network: string, addressLabel: string)
    | Symbols
    | TickerV2(symbol: string)
    | TradeVolume
    | Trades(symbol: string, args: Args)
    | OrderBook(symbol: string, args: Args)
    | CurrentAuction(symbol: string)
    | AuctionHistory(symbol: string, args: Args)
    | NewOrder(symbol: string, clientOrderId: string, amount: real, price: real, side: string, options: seq<string>)
    | ActiveOrders
    | PastTrades(symbol: string, args: Args)
    | OrderStatus(orderId: string)
    | CancelOrder(orderId: string)
    | CancelAll
    | WithdrawFunds(currency: string, address: string, amount: real)
}
