/**
 * main.go: the Action of every subcommand. Each one reads the common flags,
 * builds its argument bag one key at a time (only for the options that were
 * set) or checks an enumerated choice, and then asks for exactly one
 * collaborator operation. Every rejection happens before any operation is
 * requested.
 */
module Commands {
  import opened Wrappers
  import opened GoLib
  import opened Cli
  import opened Util
  import opened Gemini

  datatype Command =
    | GetAccount | GetBalances | GetTransfers | GetDepositAddresses | GetNewDepositAddresses
    | GetSymbols | GetTicker | GetTradeVolume | GetTrades | GetOrderBook | GetAuction
    | GetAuctionHistory
    | OrderNew | OrderActive | OrderPastTrades | OrderOrderId | OrderCancel | OrderCancelAll
    | Withdraw

  /** What an Action ends in: the operation it forwards (with the configuration path), or an error. */
  datatype Outcome = CallOp(configPath: string, op: Op) | Err(msg: string)

  /** The subcommand that forwards to each operation: the mapping is one to one. */
  function CommandOf(op: Op): Command
  {
    match op
    case AccountDetail => GetAccount
    case Balances => GetBalances
    case Transfers(_) => GetTransfers
    case DepositAddresses(_) => GetDepositAddresses
    case NewDepositAddress(_, _) => GetNewDepositAddresses
    case Symbols => GetSymbols
    case TickerV2(_) => GetTicker
    case TradeVolume => GetTradeVolume
    case Trades(_, _) => GetTrades
    case OrderBook(_, _) => GetOrderBook
    case CurrentAuction(_) => GetAuction
    case AuctionHistory(_, _) => GetAuctionHistory
    case NewOrder(_, _, _, _, _, _) => OrderNew
    case ActiveOrders => OrderActive
    case PastTrades(_, _) => OrderPastTrades
    case OrderStatus(_) => OrderOrderId
    case CancelOrder(_) => OrderCancel
    case CancelAll => OrderCancelAll
    case WithdrawFunds(_, _, _) => Withdraw
  }

  // ---------------------------------------------------------------------------
  // Argument bags

  /** The entry for key is present exactly when present holds, and then it is v. */
  ghost predicate Entry(a: Args, key: string, present: bool, v: ArgVal)
  {
    (key in a <==> present) && (present ==> a[key] == v)
  }

  /** A time option (by its name or its alias) was given. */
  predicate TimeGiven(c: Context, name: string, alias: string)
  {
    c.IsSet(name) || c.IsSet(alias)
  }

  /**
   * The entry for a time option is present exactly when the option was given;
   * it then holds the normalised instant, in milliseconds when asMs.
   */
  ghost predicate TimeEntry(a: Args, key: string, given: bool, ts: Result<Instant>, asMs: bool)
  {
    (key in a <==> given)
    && (given ==> ts.Success? && a[key] == (if asMs then IntV(TimestampMs(ts.value)) else InstantV(ts.value)))
  }

  /**
   * The time normaliser the Actions call on a time option's text: util.go's
   * parseConvertTimestamp with the local UTC offset bound (LocalNormalizer).
   * The Actions depend on nothing but its verdict.
   */
  type Normalizer = string -> Result<Instant>

  /** parseConvertTimestamp under the UTC offset time.Now().Zone() reports. */
  function LocalNormalizer(offset: int): Normalizer
  {
    raw => ParseConvertTimestamp(raw, offset)
  }

  /** get transfers: limit as an integer, timestamp in milliseconds, a "true" switch. */
  ghost predicate TransfersBag(c: Context, normalize: Normalizer, a: Args)
  {
    && a.Keys <= {"limit_transfers", "timestamp", "show_completed_deposit_advances"}
    && Entry(a, "limit_transfers", c.IsSet("limit_transfers"), IntV(c.Int("limit_transfers")))
    && TimeEntry(a, "timestamp", TimeGiven(c, "timestamp", "t"),
                 normalize(c.Str("timestamp")), true)
    && Entry(a, "show_completed_deposit_advances", c.Bool("show_completed_deposit_advances"), StrV("true"))
  }

  /** get trades: timestamp as an instant, limit as decimal text, a "true" switch. */
  ghost predicate TradesBag(c: Context, normalize: Normalizer, a: Args)
  {
    && a.Keys <= {"timestamp", "limit_trades", "include_breaks"}
    && TimeEntry(a, "timestamp", TimeGiven(c, "timestamp", "t"),
                 normalize(c.Str("timestamp")), false)
    && Entry(a, "limit_trades", c.IsSet("limit_trades"), StrV(Itoa(c.Int("limit_trades"))))
    && Entry(a, "include_breaks", c.Bool("include_breaks"), StrV("true"))
  }

  /** get orderbook: both limits as decimal text. */
  ghost predicate OrderBookBag(c: Context, a: Args)
  {
    && a.Keys <= {"limit_bids", "limit_asks"}
    && Entry(a, "limit_bids", c.IsSet("limit_bids"), StrV(Itoa(c.Int("limit_bids"))))
    && Entry(a, "limit_asks", c.IsSet("limit_asks"), StrV(Itoa(c.Int("limit_asks"))))
  }

  /** get auction-hystory: since as an instant, --limit under limit_auction_results as text, a "true" switch. */
  ghost predicate AuctionHistoryBag(c: Context, normalize: Normalizer, a: Args)
  {
    && a.Keys <= {"since", "limit_auction_results", "include_indicative"}
    && TimeEntry(a, "since", TimeGiven(c, "since", "s"), normalize(c.Str("since")), false)
    && Entry(a, "limit_auction_results", c.IsSet("limit"), StrV(Itoa(c.Int("limit"))))
    && Entry(a, "include_indicative", c.Bool("include_indicative"), StrV("true"))
  }

  /** order past_trades: limit as an integer, timestamp as an instant. */
  ghost predicate PastTradesBag(c: Context, normalize: Normalizer, a: Args)
  {
    && a.Keys <= {"limit_trades", "timestamp"}
    && Entry(a, "limit_trades", c.IsSet("limit_trades"), IntV(c.Int("limit_trades")))
    && TimeEntry(a, "timestamp", TimeGiven(c, "timestamp", "t"),
                 normalize(c.Str("timestamp")), false)
  }

  /** The normaliser's error for the time option a command reads, when that option is given and invalid. */
  function TimeError(cmd: Command, c: Context, normalize: Normalizer): Option<string>
  {
    var (name, alias) := if cmd == GetAuctionHistory then ("since", "s") else ("timestamp", "t");
    if (cmd.GetTransfers? || cmd.GetTrades? || cmd.GetAuctionHistory? || cmd.OrderPastTrades?) && TimeGiven(c, name, alias)
       && normalize(c.Str(name)).Failure?
    then Some(normalize(c.Str(name)).error)
    else None
  }

  method BuildTransfersArgs(c: Context, normalize: Normalizer) returns (r: Result<Args>)
    ensures r.Failure? <==> TimeError(GetTransfers, c, normalize).Some?
    ensures r.Failure? ==> r.error == TimeError(GetTransfers, c, normalize).value
    ensures r.Success? ==> TransfersBag(c, normalize, r.value)
  {
    var args: Args := map[];
    if c.IsSet("limit_transfers") {
      var limitTransfers := c.Int("limit_transfers");
      args := args["limit_transfers" := IntV(limitTransfers)];
    }
    if c.IsSet("timestamp") || c.IsSet("t") {
      var timestamp := normalize(c.Str("timestamp"));
      if timestamp.Failure? {
        return Failure(timestamp.error);
      }
      args := args["timestamp" := IntV(TimestampMs(timestamp.value))];
    }
    if c.Bool("show_completed_deposit_advances") {
      args := args["show_completed_deposit_advances" := StrV("true")];
    }
    return Success(args);
  }

  method BuildTradesArgs(c: Context, normalize: Normalizer) returns (r: Result<Args>)
    ensures r.Failure? <==> TimeError(GetTrades, c, normalize).Some?
    ensures r.Failure? ==> r.error == TimeError(GetTrades, c, normalize).value
    ensures r.Success? ==> TradesBag(c, normalize, r.value)
  {
    var args: Args := map[];
    if c.IsSet("timestamp") || c.IsSet("t") {
      var timestamp := normalize(c.Str("timestamp"));
      if timestamp.Failure? {
        return Failure(timestamp.error);
      }
      args := args["timestamp" := InstantV(timestamp.value)];
    }
    if c.IsSet("limit_trades") {
      var limitTrades := c.Int("limit_trades");
      args := args["limit_trades" := StrV(Itoa(limitTrades))];
    }
    if c.Bool("include_breaks") {
      args := args["include_breaks" := StrV("true")];
    }
    return Success(args);
  }

  method BuildOrderBookArgs(c: Context) returns (args: Args)
    ensures OrderBookBag(c, args)
  {
    args := map[];
    if c.IsSet("limit_bids") {
      var limitBids := c.Int("limit_bids");
      args := args["limit_bids" := StrV(Itoa(limitBids))];
    }
    if c.IsSet("limit_asks") {
      var limitAsks := c.Int("limit_asks");
      args := args["limit_asks" := StrV(Itoa(limitAsks))];
    }
  }

  method BuildAuctionHistoryArgs(c: Context, normalize: Normalizer) returns (r: Result<Args>)
    ensures r.Failure? <==> TimeError(GetAuctionHistory, c, normalize).Some?
    ensures r.Failure? ==> r.error == TimeError(GetAuctionHistory, c, normalize).value
    ensures r.Success? ==> AuctionHistoryBag(c, normalize, r.value)
  {
    var args: Args := map[];
    if c.IsSet("since") || c.IsSet("s") {
      var since := normalize(c.Str("since"));
      if since.Failure? {
        return Failure(since.error);
      }
      args := args["since" := InstantV(since.value)];
    }
    if c.IsSet("limit") {
      var limitAuctionResults := c.Int("limit");
      args := args["limit_auction_results" := StrV(Itoa(limitAuctionResults))];
    }
    if c.Bool("include_indicative") {
      args := args["include_indicative" := StrV("true")];
    }
    return Success(args);
  }

  method BuildPastTradesArgs(c: Context, normalize: Normalizer) returns (r: Result<Args>)
    ensures r.Failure? <==> TimeError(OrderPastTrades, c, normalize).Some?
    ensures r.Failure? ==> r.error == TimeError(OrderPastTrades, c, normalize).value
    ensures r.Success? ==> PastTradesBag(c, normalize, r.value)
  {
    var args: Args := map[];
    if c.IsSet("limit_trades") {
      var limitTrades := c.Int("limit_trades");
      args := args["limit_trades" := IntV(limitTrades)];
    }
    if c.IsSet("timestamp") || c.IsSet("t") {
      var timestamp := normalize(c.Str("timestamp"));
      if timestamp.Failure? {
        return Failure(timestamp.error);
      }
      args := args["timestamp" := InstantV(timestamp.value)];
    }
    return Success(args);
  }

  // ---------------------------------------------------------------------------
  // Enumerated choices

  const DepositCurrencies: seq<string> := ["bitcoin", "ethereum", "bitcoincash", "litecoin", "zcash", "filecoin"]
  const WithdrawCurrencies: seq<string> := ["btc", "eth"]

  /** The closed set a command checks --currency against, for the commands that check one. */
  function ValidCurrencies(cmd: Command): Option<seq<string>>
  {
    if cmd == GetDepositAddresses || cmd == GetNewDepositAddresses then Some(DepositCurrencies)
    else if cmd == Withdraw then Some(WithdrawCurrencies)
    else None
  }

  function InvalidCurrency(currency: string, valid: seq<string>): string
  {
    "Error invalid currency: " + currency + "\nValid currencies: " + Join(valid, ", ")
  }

  /** The loop over validCurrencies: stops at the first entry equal to currency (case-sensitive). */
  method FindCurrency(currency: string, valid: seq<string>) returns (found: bool)
    ensures found <==> currency in valid
  {
    for i := 0 to |valid|
      invariant currency !in valid[..i]
    {
      if currency == valid[i] {
        return true;
      }
    }
    return false;
  }

  // ---------------------------------------------------------------------------
  // Dispatch

  /**
   * Where each parameter of a requested operation comes from: the flag it
   * names, and for the operations that take a bag, the bag the command's
   * options describe.
   */
  ghost predicate Requests(op: Op, c: Context, normalize: Normalizer)
  {
    match op
    case Transfers(args) => TransfersBag(c, normalize, args)
    case DepositAddresses(network) => network == c.Str("currency")
    case NewDepositAddress(network, addressLabel) => network == c.Str("currency") && addressLabel == c.Str("label")
    case TickerV2(symbol) => symbol == c.Str("ticker")
    case Trades(symbol, args) => symbol == c.Str("ticker") && TradesBag(c, normalize, args)
    case OrderBook(symbol, args) => symbol == c.Str("ticker") && OrderBookBag(c, args)
    case CurrentAuction(symbol) => symbol == c.Str("ticker")
    case AuctionHistory(symbol, args) => symbol == c.Str("ticker") && AuctionHistoryBag(c, normalize, args)
    case NewOrder(symbol, clientOrderId, amount, price, side, options) =>
      && symbol == c.Str("ticker") && clientOrderId == c.Str("client_order_id")
      && amount == c.Float64("amount") && price == c.Float64("price") && side == c.Str("side")
      && options == ["immediate-or-cancel"]
    case PastTrades(symbol, args) => symbol == c.Str("ticker") && PastTradesBag(c, normalize, args)
    case OrderStatus(orderId) => orderId == c.Str("order")
    case CancelOrder(orderId) => orderId == c.Str("orderid")
    case WithdrawFunds(currency, address, amount) =>
      currency == c.Str("currency") && address == c.Str("address") && amount == c.Float64("amount")
    case AccountDetail | Balances | Symbols | TradeVolume | ActiveOrders | CancelAll => true
  }

  /** Two bags over the same keys that agree on every key are one bag. */
  lemma SameBag(a: Args, b: Args, keys: set<string>)
    requires a.Keys <= keys && b.Keys <= keys
    requires forall k :: k in keys ==> (k in a <==> k in b) && (k in a ==> a[k] == b[k])
    ensures a == b
  {
    assert a.Keys == b.Keys;
  }

  lemma TransfersBagUnique(c: Context, normalize: Normalizer, a: Args, b: Args)
    requires TransfersBag(c, normalize, a) && TransfersBag(c, normalize, b)
    ensures a == b
  {
    SameBag(a, b, {"limit_transfers", "timestamp", "show_completed_deposit_advances"});
  }

  lemma TradesBagUnique(c: Context, normalize: Normalizer, a: Args, b: Args)
    requires TradesBag(c, normalize, a) && TradesBag(c, normalize, b)
    ensures a == b
  {
    SameBag(a, b, {"timestamp", "limit_trades", "include_breaks"});
  }

  lemma OrderBookBagUnique(c: Context, a: Args, b: Args)
    requires OrderBookBag(c, a) && OrderBookBag(c, b)
    ensures a == b
  {
    SameBag(a, b, {"limit_bids", "limit_asks"});
  }

  lemma AuctionHistoryBagUnique(c: Context, normalize: Normalizer, a: Args, b: Args)
    requires AuctionHistoryBag(c, normalize, a) && AuctionHistoryBag(c, normalize, b)
    ensures a == b
  {
    SameBag(a, b, {"since", "limit_auction_results", "include_indicative"});
  }

  lemma PastTradesBagUnique(c: Context, normalize: Normalizer, a: Args, b: Args)
    requires PastTradesBag(c, normalize, a) && PastTradesBag(c, normalize, b)
    ensures a == b
  {
    SameBag(a, b, {"limit_trades", "timestamp"});
  }

  /**
   * The flags fix the request: two operations of the same subcommand whose
   * parameters both come from the flags as described are the same operation,
   * bag included.
   */
  lemma RequestDeterministic(p: Op, q: Op, c: Context, normalize: Normalizer)
    requires CommandOf(p) == CommandOf(q)
    requires Requests(p, c, normalize) && Requests(q, c, normalize)
    ensures p == q
  {
    match p
    case Transfers(a) => TransfersBagUnique(c, normalize, a, q.args);
    case Trades(_, a) => TradesBagUnique(c, normalize, a, q.args);
    case OrderBook(_, a) => OrderBookBagUnique(c, a, q.args);
    case AuctionHistory(_, a) => AuctionHistoryBagUnique(c, normalize, a, q.args);
    case PastTrades(_, a) => PastTradesBagUnique(c, normalize, a, q.args);
    case _ =>
  }

  /**
   * What the Action of cmd does. It requests the operation of that very
   * command, with the configuration path from the common flags, the flag
   * values each parameter takes and the bag the command's options describe;
   * it fails only on an invalid currency (naming the valid ones) or an
   * invalid time option (with the normaliser's message). `order new` checks
   * nothing, and `order orderid` reads the undeclared flag "order".
   */
  ghost predicate Acts(cmd: Command, c: Context, normalize: Normalizer, o: Outcome)
  {
    && (o.CallOp? ==> o.configPath == ConfigPath(c) && CommandOf(o.op) == cmd && Requests(o.op, c, normalize))
    && (ValidCurrencies(cmd).Some? ==>
          && (o.CallOp? <==> c.Str("currency") in ValidCurrencies(cmd).value)
          && (o.Err? ==> o.msg == InvalidCurrency(c.Str("currency"), ValidCurrencies(cmd).value)))
    && (ValidCurrencies(cmd).None? ==>
          && (o.Err? <==> TimeError(cmd, c, normalize).Some?)
          && (o.Err? ==> o.msg == TimeError(cmd, c, normalize).value))
    && (cmd == OrderOrderId && "order" !in c.strings ==> o == CallOp(ConfigPath(c), OrderStatus("")))
  }

  /** The Action of `get account`. */
  method AccountAction(c: Context, normalize: Normalizer) returns (o: Outcome)
    ensures Acts(GetAccount, c, normalize, o)
  {
    o := CallOp(ConfigPath(c), AccountDetail);
  }

  /** The Action of `get balances`. */
  method BalancesAction(c: Context, normalize: Normalizer) returns (o: Outcome)
    ensures Acts(GetBalances, c, normalize, o)
  {
    o := CallOp(ConfigPath(c), Balances);
  }

  /** The Action of `get transfers`. */
  method TransfersAction(c: Context, normalize: Normalizer) returns (o: Outcome)
    ensures Acts(GetTransfers, c, normalize, o)
  {
    var args := BuildTransfersArgs(c, normalize);
    if args.Failure? {
      return Err(args.error);
    }
    o := CallOp(ConfigPath(c), Transfers(args.value));
  }

  /** The Action of `get depositaddresses`. */
  method DepositAddressesAction(c: Context, normalize: Normalizer) returns (o: Outcome)
    ensures Acts(GetDepositAddresses, c, normalize, o)
  {
    var currency := c.Str("currency");
    var found := FindCurrency(currency, DepositCurrencies);
    if found {
      return CallOp(ConfigPath(c), DepositAddresses(currency));
    }
    o := Err(InvalidCurrency(currency, DepositCurrencies));
  }

  /** The Action of `get new_depositaddresses`. */
  method NewDepositAddressesAction(c: Context, normalize: Normalizer) returns (o: Outcome)
    ensures Acts(GetNewDepositAddresses, c, normalize, o)
  {
    var currency := c.Str("currency");
    var found := FindCurrency(currency, DepositCurrencies);
    if found {
      return CallOp(ConfigPath(c), NewDepositAddress(currency, c.Str("label")));
    }
    o := Err(InvalidCurrency(currency, DepositCurrencies));
  }

  /** The Action of `get symbols`. */
  method SymbolsAction(c: Context, normalize: Normalizer) returns (o: Outcome)
    ensures Acts(GetSymbols, c, normalize, o)
  {
    o := CallOp(ConfigPath(c), Symbols);
  }

  /** The Action of `get ticker`. */
  method TickerAction(c: Context, normalize: Normalizer) returns (o: Outcome)
    ensures Acts(GetTicker, c, normalize, o)
  {
    o := CallOp(ConfigPath(c), TickerV2(c.Str("ticker")));
  }

  /** The Action of `get tradevolume`. */
  method TradeVolumeAction(c: Context, normalize: Normalizer) returns (o: Outcome)
    ensures Acts(GetTradeVolume, c, normalize, o)
  {
    o := CallOp(ConfigPath(c), TradeVolume);
  }

  /** The Action of `get trades`. */
  method TradesAction(c: Context, normalize: Normalizer) returns (o: Outcome)
    ensures Acts(GetTrades, c, normalize, o)
  {
    var args := BuildTradesArgs(c, normalize);
    if args.Failure? {
      return Err(args.error);
    }
    o := CallOp(ConfigPath(c), Trades(c.Str("ticker"), args.value));
  }

  /** The Action of `get orderbook`. */
  method OrderBookAction(c: Context, normalize: Normalizer) returns (o: Outcome)
    ensures Acts(GetOrderBook, c, normalize, o)
  {
    var args := BuildOrderBookArgs(c);
    o := CallOp(ConfigPath(c), OrderBook(c.Str("ticker"), args));
  }

  /** The Action of `get auction`. */
  method AuctionAction(c: Context, normalize: Normalizer) returns (o: Outcome)
    ensures Acts(GetAuction, c, normalize, o)
  {
    o := CallOp(ConfigPath(c), CurrentAuction(c.Str("ticker")));
  }

  /** The Action of `get auction-hystory`. */
  method AuctionHistoryAction(c: Context, normalize: Normalizer) returns (o: Outcome)
    ensures Acts(GetAuctionHistory, c, normalize, o)
  {
    var args := BuildAuctionHistoryArgs(c, normalize);
    if args.Failure? {
      return Err(args.error);
    }
    o := CallOp(ConfigPath(c), AuctionHistory(c.Str("ticker"), args.value));
  }

  /** The Action of `order new`. */
  method NewOrderAction(c: Context, normalize: Normalizer) returns (o: Outcome)
    ensures Acts(OrderNew, c, normalize, o)
  {
    o := CallOp(ConfigPath(c), NewOrder(c.Str("ticker"), c.Str("client_order_id"),
                                      c.Float64("amount"), c.Float64("price"), c.Str("side"),
                                      ["immediate-or-cancel"]));
  }

  /** The Action of `order active`. */
  method ActiveOrdersAction(c: Context, normalize: Normalizer) returns (o: Outcome)
    ensures Acts(OrderActive, c, normalize, o)
  {
    o := CallOp(ConfigPath(c), ActiveOrders);
  }

  /** The Action of `order past_trades`. */
  method PastTradesAction(c: Context, normalize: Normalizer) returns (o: Outcome)
    ensures Acts(OrderPastTrades, c, normalize, o)
  {
    var args := BuildPastTradesArgs(c, normalize);
    if args.Failure? {
      return Err(args.error);
    }
    o := CallOp(ConfigPath(c), PastTrades(c.Str("ticker"), args.value));
  }

  /** The Action of `order orderid`. */
  method OrderStatusAction(c: Context, normalize: Normalizer) returns (o: Outcome)
    ensures Acts(OrderOrderId, c, normalize, o)
  {
    o := CallOp(ConfigPath(c), OrderStatus(c.Str("order")));
  }

  /** The Action of `order cancel`. */
  method CancelOrderAction(c: Context, normalize: Normalizer) returns (o: Outcome)
    ensures Acts(OrderCancel, c, normalize, o)
  {
    o := CallOp(ConfigPath(c), CancelOrder(c.Str("orderid")));
  }

  /** The Action of `order cancel_all`. */
  method CancelAllAction(c: Context, normalize: Normalizer) returns (o: Outcome)
    ensures Acts(OrderCancelAll, c, normalize, o)
  {
    o := CallOp(ConfigPath(c), CancelAll);
  }

  /** The Action of `withdraw`. */
  method WithdrawAction(c: Context, normalize: Normalizer) returns (o: Outcome)
    ensures Acts(Withdraw, c, normalize, o)
  {
    var currency := c.Str("currency");
    var found := FindCurrency(currency, WithdrawCurrencies);
    if found {
      return CallOp(ConfigPath(c), WithdrawFunds(currency, c.Str("address"), c.Float64("amount")));
    }
    o := Err(InvalidCurrency(currency, WithdrawCurrencies));
  }

  /** The Action of cmd, as the command tree `get` / `order` / `withdraw` routes it. */
  method Dispatch(cmd: Command, c: Context, normalize: Normalizer) returns (o: Outcome)
    ensures Acts(cmd, c, normalize, o)
  {
    match cmd {
      case GetAccount => o := AccountAction(c, normalize);
      case GetBalances => o := BalancesAction(c, normalize);
      case GetTransfers => o := TransfersAction(c, normalize);
      case GetDepositAddresses => o := DepositAddressesAction(c, normalize);
      case GetNewDepositAddresses => o := NewDepositAddressesAction(c, normalize);
      case GetSymbols => o := SymbolsAction(c, normalize);
      case GetTicker => o := TickerAction(c, normalize);
      case GetTradeVolume => o := TradeVolumeAction(c, normalize);
      case GetTrades => o := TradesAction(c, normalize);
      case GetOrderBook => o := OrderBookAction(c, normalize);
      case GetAuction => o := AuctionAction(c, normalize);
      case GetAuctionHistory => o := AuctionHistoryAction(c, normalize);
      case OrderNew => o := NewOrderAction(c, normalize);
      case OrderActive => o := ActiveOrdersAction(c, normalize);
      case OrderPastTrades => o := PastTradesAction(c, normalize);
      case OrderOrderId => o := OrderStatusAction(c, normalize);
      case OrderCancel => o := CancelOrderAction(c, normalize);
      case OrderCancelAll => o := CancelAllAction(c, normalize);
      case Withdraw => o := WithdrawAction(c, normalize);
    }
  }
}
