/** The trade-order side of scripts/tgbotsinteg.py (scripts/method1.py
    carries the same table, defaults and builders): looking up a Telegram
    bot's trade endpoint, building the buy and sell payloads from a trade
    configuration, the profit-taking decision and the trading routine. */
module Orders {
  import opened Json

  /** `BOT_API_ENDPOINTS`: the three supported bots and their endpoints. */
  const BotEndpoints: map<string, string> := map[
    "GmGn" := "https://api.gmgnbot.com/trade",
    "Trojan" := "https://api.trojanbot.com/trade",
    "BananaGun" := "https://api.bananagunbot.com/trade"]

  /** The trading defaults. */
  const DefaultPriorityFee: real := 10.0
  const DefaultBuyAmount: real := 1000.0
  const DefaultSlippage: real := 1.0
  const DefaultProfitTarget: real := 15.0
  const DefaultBot: string := "GmGn"

  /** An order handed to `place_order(url, order_type, parameters)`. */
  datatype Order = Order(url: string, orderType: string, details: Record)

  /** `BOT_API_ENDPOINTS.get(bot_name)`: the endpoint of a known bot, None for
      any other hashable name; a list or dict cannot be looked up in a dict
      and raises TypeError. */
  function BotUrl(bot: Value): (r: Result<Option<string>>)
    ensures r.Err? <==> bot.Arr? || bot.Obj?
    ensures r.Err? ==> r.error == TypeError
    ensures r.Ok? && r.value.Some? <==> bot.Str? && bot.s in BotEndpoints
    ensures r.Ok? && r.value.Some? ==> r.value.value == BotEndpoints[bot.s]
  {
    match bot
    case Arr(_) => Err(TypeError)
    case Obj(_) => Err(TypeError)
    case Str(name) => if name in BotEndpoints then Ok(Some(BotEndpoints[name])) else Ok(None)
    case _ => Ok(None)
  }

  /** The table has exactly the three bots, and every endpoint is a
      non-empty URL, so `if not url` only rejects unknown names. */
  lemma BotTable()
    ensures BotEndpoints.Keys == {"GmGn", "Trojan", "BananaGun"}
    ensures forall name :: name in BotEndpoints ==> |BotEndpoints[name]| > 0
  {
  }

  /** The fields both payloads share: the fee and slippage with their
      defaults, and the token (None when the configuration has none). */
  function SharedDetail(config: Record, key: string): Value
  {
    if key == "priority_fee" then Get(config, "priority_fee", Num(DefaultPriorityFee))
    else if key == "slippage" then Get(config, "slippage", Num(DefaultSlippage))
    else Get(config, "token", Null)
  }

  /** `execute_buy_order(bot_name, config)` up to `place_order`: None (and no
      order) for an unknown bot, otherwise the buy payload. */
  function BuildBuyOrder(bot: Value, config: Record): (r: Result<Option<Order>>)
    ensures r.Ok? <==> BotUrl(bot).Ok?
    ensures r.Ok? ==> (r.value.None? <==> BotUrl(bot).value.None?)
    ensures r.Ok? && r.value.Some? ==>
      && r.value.value.url == BotUrl(bot).value.value
      && r.value.value.orderType == "buy"
      && r.value.value.details.Keys == {"order", "priority_fee", "buy_amount", "slippage", "token"}
      && r.value.value.details["order"] == Str("buy")
  {
    var url :- BotUrl(bot);
    match url
    case None => Ok(None)
    case Some(u) => Ok(Some(Order(u, "buy", map[
      "order" := Str("buy"),
      "priority_fee" := Get(config, "priority_fee", Num(DefaultPriorityFee)),
      "buy_amount" := Get(config, "buy_amount", Num(DefaultBuyAmount)),
      "slippage" := Get(config, "slippage", Num(DefaultSlippage)),
      "token" := Get(config, "token", Null)])))
  }

  /** `execute_sell_order(bot_name, config)` up to `place_order`; the amount
      sold falls back to the amount bought. */
  function BuildSellOrder(bot: Value, config: Record): (r: Result<Option<Order>>)
    ensures r.Ok? <==> BotUrl(bot).Ok?
    ensures r.Ok? ==> (r.value.None? <==> BotUrl(bot).value.None?)
    ensures r.Ok? && r.value.Some? ==>
      && r.value.value.url == BotUrl(bot).value.value
      && r.value.value.orderType == "sell"
      && r.value.value.details.Keys == {"order", "priority_fee", "sell_amount", "slippage", "token"}
      && r.value.value.details["order"] == Str("sell")
  {
    var url :- BotUrl(bot);
    match url
    case None => Ok(None)
    case Some(u) => Ok(Some(Order(u, "sell", map[
      "order" := Str("sell"),
      "priority_fee" := Get(config, "priority_fee", Num(DefaultPriorityFee)),
      "sell_amount" := Get(config, "sell_amount", Get(config, "buy_amount", Num(DefaultBuyAmount))),
      "slippage" := Get(config, "slippage", Num(DefaultSlippage)),
      "token" := Get(config, "token", Null)])))
  }

  /** An empty configuration gives the defaults: fee 10, amount 1000,
      slippage 1 and no token. */
  lemma BuyDefaults(bot: string)
    requires bot in BotEndpoints
    ensures BuildBuyOrder(Str(bot), map[]) == Ok(Some(Order(BotEndpoints[bot], "buy", map[
      "order" := Str("buy"), "priority_fee" := Num(10.0), "buy_amount" := Num(1000.0),
      "slippage" := Num(1.0), "token" := Null])))
  {
  }

  /** The amount bought is the configured `buy_amount`, else 1000, whatever
      else the configuration holds. */
  lemma BuyAmountFallback(bot: Value, config: Record)
    requires BuildBuyOrder(bot, config).Ok? && BuildBuyOrder(bot, config).value.Some?
    ensures var amount := BuildBuyOrder(bot, config).value.value.details["buy_amount"];
      && ("buy_amount" in config ==> amount == config["buy_amount"])
      && ("buy_amount" !in config ==> amount == Num(DefaultBuyAmount))
  {
  }

  /** The amount sold is the configured `sell_amount`, else the configured
      `buy_amount`, else 1000. */
  lemma SellAmountFallback(bot: Value, config: Record)
    requires BuildSellOrder(bot, config).Ok? && BuildSellOrder(bot, config).value.Some?
    ensures var amount := BuildSellOrder(bot, config).value.value.details["sell_amount"];
      && ("sell_amount" in config ==> amount == config["sell_amount"])
      && ("sell_amount" !in config && "buy_amount" in config ==> amount == config["buy_amount"])
      && ("sell_amount" !in config && "buy_amount" !in config ==> amount == Num(DefaultBuyAmount))
  {
  }

  /** The buy and sell orders of one configuration go to the same endpoint
      with the same fee, slippage and token, and the sell amount equals the
      buy amount unless a sell amount is configured. */
  lemma BuyAndSellAgree(bot: Value, config: Record)
    requires BuildBuyOrder(bot, config).Ok? && BuildBuyOrder(bot, config).value.Some?
    ensures BuildSellOrder(bot, config).Ok? && BuildSellOrder(bot, config).value.Some?
    ensures var buy := BuildBuyOrder(bot, config).value.value;
      var sell := BuildSellOrder(bot, config).value.value;
      && buy.url == sell.url
      && (forall key :: key in {"priority_fee", "slippage", "token"} ==>
            buy.details[key] == sell.details[key] == SharedDetail(config, key))
      && ("sell_amount" !in config ==> sell.details["sell_amount"] == buy.details["buy_amount"])
  {
  }

  /** An unknown bot name builds no order, buy or sell. */
  lemma UnknownBotPlacesNothing(bot: string, config: Record)
    requires bot !in BotEndpoints
    ensures BuildBuyOrder(Str(bot), config) == Ok(None)
    ensures BuildSellOrder(Str(bot), config) == Ok(None)
  {
  }

  // ---------------------------------------------------------------------
  // Profit taking

  /** `profit_percent >= profit_target` with
      `profit_percent = ((current - initial) / initial) * 100`: the division
      raises ZeroDivisionError for a zero initial price, the comparison
      raises TypeError for a target that is not a number. */
  function ProfitReached(current: real, initial: real, target: Value): (r: Result<bool>)
    ensures r.Err? <==> initial == 0.0 || AsNumber(target).None?
    ensures initial == 0.0 ==> r == Err(ZeroDivisionError)
    ensures initial != 0.0 && AsNumber(target).None? ==> r == Err(TypeError)
  {
    if initial == 0.0 then Err(ZeroDivisionError)
    else
      match AsNumber(target)
      case None => Err(TypeError)
      case Some(t) => Ok(Reached(current, initial, t))
  }

  /** The comparison itself, once the division and the target are known to
      be fine. */
  predicate Reached(current: real, initial: real, target: real)
    requires initial != 0.0
  {
    ((current - initial) / initial) * 100.0 >= target
  }

  /** For a positive buying price the target is reached exactly when the
      price has risen to `initial * (1 + target / 100)`. */
  lemma ProfitThreshold(current: real, initial: real, target: real)
    requires initial > 0.0
    ensures ProfitReached(current, initial, Num(target)) ==
      Ok(current >= initial * (1.0 + target / 100.0))
  {
    var p := ((current - initial) / initial) * 100.0;
    var q := (current - initial) / initial;
    assert q * initial == current - initial;
    assert p >= target <==> q >= target / 100.0;
    if q >= target / 100.0 {
      assert q * initial >= (target / 100.0) * initial;
    } else {
      assert q * initial < (target / 100.0) * initial;
    }
  }

  /** `config.get("profit_target", DEFAULT_PROFIT_TARGET)` */
  function ProfitTarget(config: Record): Value
  {
    Get(config, "profit_target", Num(DefaultProfitTarget))
  }

  /** With no target configured a 15% rise sells and anything less does
      not. */
  lemma DefaultTargetIsFifteenPercent(current: real, initial: real)
    requires initial > 0.0
    ensures ProfitReached(current, initial, ProfitTarget(map[])) == Ok(current >= initial * 1.15)
  {
    ProfitThreshold(current, initial, DefaultProfitTarget);
  }

  /** How a run of the monitoring loop over a finite series of observed
      prices ends: selling at the first price that reaches the target (with
      the sell order, None for an unknown bot), or still waiting when the
      series runs out. */
  datatype Monitoring = Sold(at: nat, sale: Option<Order>) | Waiting

  /** The index of the first price that reaches a numeric target from a
      non-zero initial price. */
  function FirstReached(prices: seq<real>, initial: real, target: real): (r: Option<nat>)
    requires initial != 0.0
    ensures r.Some? ==>
      && r.value < |prices| && Reached(prices[r.value], initial, target)
      && forall j :: 0 <= j < r.value ==> !Reached(prices[j], initial, target)
    ensures r.None? ==> forall j :: 0 <= j < |prices| ==> !Reached(prices[j], initial, target)
    decreases |prices|
  {
    if prices == [] then None
    else if Reached(prices[0], initial, target) then Some(0)
    else
      match FirstReached(prices[1..], initial, target)
      case None =>
        assert forall j :: 1 <= j < |prices| ==> prices[j] == prices[1..][j - 1];
        None
      case Some(i) =>
        assert forall j :: 1 <= j <= i + 1 ==> prices[j] == prices[1..][j - 1];
        Some(i + 1)
  }

  /** The index of the first observed price that reaches the target, or the
      exception the first check raises: whether a check raises does not
      depend on the price, so only the first one can. */
  function FirstProfit(prices: seq<real>, initial: real, target: Value): (r: Result<Option<nat>>)
    ensures r.Ok? && r.value.Some? ==>
      && r.value.value < |prices|
      && ProfitReached(prices[r.value.value], initial, target) == Ok(true)
      && forall j :: 0 <= j < r.value.value ==> ProfitReached(prices[j], initial, target) == Ok(false)
    ensures r == Ok(None) <==> forall j :: 0 <= j < |prices| ==> ProfitReached(prices[j], initial, target) == Ok(false)
    ensures r.Err? ==> prices != [] && ProfitReached(prices[0], initial, target) == Err(r.error)
  {
    if prices == [] then Ok(None)
    else if initial == 0.0 then
      assert ProfitReached(prices[0], initial, target).Err?;
      Err(ZeroDivisionError)
    else
      match AsNumber(target)
      case None =>
        assert ProfitReached(prices[0], initial, target).Err?;
        Err(TypeError)
      case Some(t) => Ok(FirstReached(prices, initial, t))
  }

  /** What `monitor_profit_and_sell` does when it sees the given prices. */
  function Monitor(bot: Value, initial: real, config: Record, prices: seq<real>): Result<Monitoring>
  {
    var first :- FirstProfit(prices, initial, ProfitTarget(config));
    match first
    case None => Ok(Waiting)
    case Some(i) =>
      var sale :- BuildSellOrder(bot, config);
      Ok(Sold(i, sale))
  }

  /** `monitor_profit_and_sell(bot_name, token, initial_price, config)`: the
      polling loop, with the price feed replaced by the series of prices it
      reads; it stops at the first price that reaches the target and builds
      the sell order. */
  method MonitorProfitAndSell(bot: Value, initial: real, config: Record, prices: seq<real>)
    returns (r: Result<Monitoring>)
    ensures r == Monitor(bot, initial, config, prices)
  {
    var profitTarget := ProfitTarget(config);
    var i := 0;
    while i < |prices|
      invariant 0 <= i <= |prices|
      invariant forall j :: 0 <= j < i ==> ProfitReached(prices[j], initial, profitTarget) == Ok(false)
    {
      var reached := ProfitReached(prices[i], initial, profitTarget);
      if reached.Err? {
        FirstProfitRaises(prices, initial, profitTarget, i);
        return Err(reached.error);
      }
      if reached.value {
        FirstProfitAt(prices, initial, profitTarget, i);
        var sale := BuildSellOrder(bot, config);
        if sale.Err? {
          return Err(sale.error);
        }
        return Ok(Sold(i, sale.value));
      }
      i := i + 1;
    }
    return Ok(Waiting);
  }

  /** The first price that reaches the target is the one `FirstProfit` finds. */
  lemma FirstProfitAt(prices: seq<real>, initial: real, target: Value, i: nat)
    requires i < |prices| && ProfitReached(prices[i], initial, target) == Ok(true)
    requires forall j :: 0 <= j < i ==> ProfitReached(prices[j], initial, target) == Ok(false)
    ensures FirstProfit(prices, initial, target) == Ok(Some(i))
  {
    var r := FirstProfit(prices, initial, target);
    assert r.Ok? && r.value.Some?;
  }

  /** A check that raises ends the monitoring with its exception. */
  lemma FirstProfitRaises(prices: seq<real>, initial: real, target: Value, i: nat)
    requires i < |prices| && ProfitReached(prices[i], initial, target).Err?
    ensures FirstProfit(prices, initial, target) == Err(ProfitReached(prices[i], initial, target).error)
  {
  }

  // ---------------------------------------------------------------------
  // main_trading

  /** The caller's trade configuration, which `main_trading` updates in
      place. */
  class TradeConfig {
    var entries: Record

    constructor(entries: Record)
      ensures this.entries == entries
    {
      this.entries := entries;
    }
  }

  /** `config["token"] = token`: the token is set and every other entry is
      kept. */
  function WithToken(config: Record, token: string): (r: Record)
    ensures r.Keys == config.Keys + {"token"}
    ensures r["token"] == Str(token)
    ensures forall key :: key in config && key != "token" ==> r[key] == config[key]
  {
    config["token" := Str(token)]
  }

  /** `config.get("bot", "GmGn")` */
  function BotName(config: Record): (r: Value)
    ensures "bot" !in config ==> r == Str(DefaultBot)
    ensures "bot" in config ==> r == config["bot"]
  {
    Get(config, "bot", Str(DefaultBot))
  }

  /** What a trading run does: its buy order (None for an unknown bot) and
      how the monitoring ends. */
  datatype Trade = Trade(buy: Option<Order>, monitoring: Monitoring)

  /** A trading run on a configuration that already holds the token. */
  function Trading(config: Record, initial: real, prices: seq<real>): Result<Trade>
  {
    var bot := BotName(config);
    var buy :- BuildBuyOrder(bot, config);
    var monitoring :- Monitor(bot, initial, config, prices);
    Ok(Trade(buy, monitoring))
  }

  /** `main_trading(token, config)`: store the token in the configuration,
      pick the bot (GmGn by default), build the buy order, then monitor the
      price from `initial` (the price read after buying) over `prices`. */
  method MainTrading(token: string, config: TradeConfig, initial: real, prices: seq<real>)
    returns (r: Result<Trade>)
    modifies config
    ensures config.entries == WithToken(old(config.entries), token)
    ensures r == Trading(config.entries, initial, prices)
  {
    config.entries := config.entries["token" := Str(token)];
    var botName := Get(config.entries, "bot", Str(DefaultBot));
    var buy := BuildBuyOrder(botName, config.entries);
    if buy.Err? {
      return Err(buy.error);
    }
    var monitoring := MonitorProfitAndSell(botName, initial, config.entries, prices);
    if monitoring.Err? {
      return Err(monitoring.error);
    }
    r := Ok(Trade(buy.value, monitoring.value));
  }

  /** Both orders of a trading run carry the token it was started with. */
  lemma TradeOrdersCarryToken(config: Record, token: string, initial: real, prices: seq<real>)
    requires Trading(WithToken(config, token), initial, prices).Ok?
    ensures var trade := Trading(WithToken(config, token), initial, prices).value;
      && (trade.buy.Some? ==> trade.buy.value.details["token"] == Str(token))
      && (trade.monitoring.Sold? && trade.monitoring.sale.Some? ==>
            trade.monitoring.sale.value.details["token"] == Str(token))
  {
    var c := WithToken(config, token);
    var bot := BotName(c);
    if BuildBuyOrder(bot, c).value.Some? {
      BuyAndSellAgree(bot, c);
    }
  }

  /** The example configuration of the script: priority fee 12, buy amount
      1500, slippage 1.5, target 20% and the GmGn bot, trading SOL. */
  const ExampleConfig: Record := map["priority_fee" := Num(12.0), "buy_amount" := Num(1500.0),
                                     "slippage" := Num(1.5), "profit_target" := Num(20.0),
                                     "bot" := Str("GmGn"), "token" := Str("SOL")]

  /** `main_trading("SOL", trade_config)` stores the token into the example
      configuration and buys 1500 of it through GmGn with fee 12 and
      slippage 1.5. */
  lemma ExampleBuy()
    ensures WithToken(ExampleConfig - {"token"}, "SOL") == ExampleConfig
    ensures BotName(ExampleConfig) == Str("GmGn")
    ensures BuildBuyOrder(Str("GmGn"), ExampleConfig) ==
      Ok(Some(Order("https://api.gmgnbot.com/trade", "buy", map[
        "order" := Str("buy"), "priority_fee" := Num(12.0), "buy_amount" := Num(1500.0),
        "slippage" := Num(1.5), "token" := Str("SOL")])))
  {
    var c := ExampleConfig;
    assert Get(c, "priority_fee", Num(DefaultPriorityFee)) == Num(12.0);
    assert Get(c, "buy_amount", Num(DefaultBuyAmount)) == Num(1500.0);
    assert Get(c, "slippage", Num(DefaultSlippage)) == Num(1.5);
    assert Get(c, "token", Null) == Str("SOL");
  }

  /** With the example's 20% target, a price equal to the buying price does
      not sell and a price 25% above it does. */
  lemma ExampleProfit(initial: real)
    requires initial > 0.0
    ensures FirstProfit([initial, initial * 1.25], initial, ProfitTarget(ExampleConfig)) == Ok(Some(1))
  {
    assert ProfitTarget(ExampleConfig) == Num(20.0);
    ProfitThreshold(initial, initial, 20.0);
    ProfitThreshold(initial * 1.25, initial, 20.0);
    FirstProfitAt([initial, initial * 1.25], initial, ProfitTarget(ExampleConfig), 1);
  }
}
