/**
 The execution dispatcher: the single branch between a live run, guarded by
 the operator's confirmation, and a backtest with a computed window and
 fixed trading costs. Console input, the clock and the data-provider key are
 parameters; the live trader and the backtest engine are represented by the
 outcome that names what would be started.
 */
module Dispatch {
  import opened Base
  import opened Naming
  import opened Resolver
  import opened Broker
  import opened Window

  /** An exact decimal constant, `digits * 10^-scale`, kept symbolic to avoid floating point. */
  datatype Decimal = Decimal(digits: int, scale: nat)

  /** The flat trading fee, 0.005 (half a percent) of the traded value. */
  const FeeFraction: Decimal := Decimal(5, 3)

  /** The fixed risk-free rate handed to the backtest engine, 5.233. */
  const RiskFreeRate: Decimal := Decimal(5233, 3)

  /** A fee schedule entry charging a percentage of each trade. */
  datatype TradingFee = TradingFee(percentFee: Decimal)

  /** The historical data source the backtest replays. */
  datatype DataSource = PolygonDataBacktesting

  /** Everything the backtest engine is called with. */
  datatype BacktestCall = BacktestCall(
    dataSource: DataSource,
    window: Window,
    polygonApiKey: string,
    polygonHasPaidSubscription: bool,
    riskFreeRate: Decimal,
    buyTradingFees: seq<TradingFee>,
    sellTradingFees: seq<TradingFee>,
    logfile: string,
    parameters: map<string, string>)

  /** How one run of the dispatcher ends. */
  datatype Outcome =
    /** The operator declined the live run; nothing was started. */
    | Cancelled
    /** The strategy was bound to the connector and handed to the live trader. */
    | LiveRun(strategy: ClassMember, broker: Connector)
    /** The strategy's backtest was started with these arguments. */
    | BacktestRun(strategy: ClassMember, call: BacktestCall)
    /** An error ended the run. */
    | Failed(error: Error)

  /** The log file of a backtest: `logs/<module name>.log`. */
  function LogFile(moduleName: string): (r: string)
    ensures |r| == |moduleName| + 9
    ensures r[..5] == "logs/" && r[|r| - 4..] == ".log"
    ensures r[5..|r| - 4] == moduleName
  {
    "logs/" + moduleName + ".log"
  }

  /** The backtest arguments for a window; only the window and the names vary between runs. */
  function BacktestArguments(window: Window, moduleName: string, polygonApiKey: string): (c: BacktestCall)
    ensures c.window == window && c.polygonApiKey == polygonApiKey
    ensures c.buyTradingFees == c.sellTradingFees == [TradingFee(FeeFraction)]
    ensures c.riskFreeRate == RiskFreeRate && c.polygonHasPaidSubscription
    ensures c.logfile == LogFile(moduleName) && c.parameters == map[]
  {
    var tradingFee := TradingFee(FeeFraction);
    BacktestCall(PolygonDataBacktesting, window, polygonApiKey, true, RiskFreeRate,
                 [tradingFee], [tradingFee], LogFile(moduleName), map[])
  }

  /**
   The dispatcher as the script has it. The live branch asks for
   confirmation and stops on anything but `yes`; once confirmed it calls the
   broker selector without the broker choice, which fails before any
   connector is built. The backtest branch never looks at the broker choice
   or the confirmation answer.
   */
  function RunStrategy(strategy: ClassMember, isLive: bool, brokerChoice: string, response: string,
                       now: int, start: Option<int>, end: Option<int>,
                       moduleName: string, polygonApiKey: string): (r: Outcome)
    ensures r.BacktestRun? <==> !isLive
    ensures isLive ==> (r.Cancelled? <==> !Confirms(response))
    ensures isLive && Confirms(response) ==> r == Failed(MissingBrokerArgument)
    ensures !r.LiveRun?
    ensures r.BacktestRun? ==>
      r.strategy == strategy && r.call == BacktestArguments(BacktestWindow(now, start, end), moduleName, polygonApiKey)
  {
    if isLive then
      if !Confirms(response) then Cancelled
      else
        // `configure_broker()` is called with no argument: a TypeError, so
        // the broker choice never reaches the selector.
        Failed(MissingBrokerArgument)
    else
      BacktestRun(strategy, BacktestArguments(BacktestWindow(now, start, end), moduleName, polygonApiKey))
  }

  /** The dispatcher with the broker choice passed on to the selector, as the live branch evidently intends. */
  function RunStrategyIntended(strategy: ClassMember, isLive: bool, brokerChoice: string, response: string,
                               now: int, start: Option<int>, end: Option<int>,
                               moduleName: string, polygonApiKey: string): (r: Outcome)
    ensures r.BacktestRun? <==> !isLive
    ensures isLive ==> (r.Cancelled? <==> !Confirms(response))
    ensures r.LiveRun? ==> r.strategy == strategy && BrokerName(r.broker) == brokerChoice
    ensures isLive && Confirms(response) && (brokerChoice == "IB" || brokerChoice == "Kraken") ==> r.LiveRun?
    ensures r.Failed? ==> r.error == InvalidBrokerChoice(brokerChoice)
  {
    if isLive then
      if !Confirms(response) then Cancelled
      else
        match ConfigureBroker(brokerChoice)
        case Ok(broker) =>
          ConfigureBrokerNamesConnector(brokerChoice);
          LiveRun(strategy, broker)
        case Err(e) => Failed(e)
    else
      BacktestRun(strategy, BacktestArguments(BacktestWindow(now, start, end), moduleName, polygonApiKey))
  }

  /** A backtest depends neither on the broker choice nor on any confirmation answer. */
  lemma BacktestIgnoresLiveSettings(strategy: ClassMember, b1: string, b2: string, a1: string, a2: string,
                                    now: int, start: Option<int>, end: Option<int>,
                                    moduleName: string, key: string)
    ensures RunStrategy(strategy, false, b1, a1, now, start, end, moduleName, key) ==
            RunStrategy(strategy, false, b2, a2, now, start, end, moduleName, key)
  {
  }

  /** A live run depends neither on the clock nor on the backtest dates. */
  lemma LiveIgnoresBacktestSettings(strategy: ClassMember, brokerChoice: string, response: string,
                                    n1: int, n2: int, s1: Option<int>, s2: Option<int>,
                                    e1: Option<int>, e2: Option<int>, moduleName: string, key: string)
    ensures RunStrategy(strategy, true, brokerChoice, response, n1, s1, e1, moduleName, key) ==
            RunStrategy(strategy, true, brokerChoice, response, n2, s2, e2, moduleName, key)
  {
  }

  /**
   As written, a confirmed live run ends the same way for every broker
   choice and never reaches a connector, while the intended dispatcher
   builds the connector the operator chose.
   */
  lemma ConfirmedLiveLosesBrokerChoice(strategy: ClassMember, now: int, moduleName: string, key: string)
    ensures RunStrategy(strategy, true, "IB", "yes", now, None, None, moduleName, key) == Failed(MissingBrokerArgument)
    ensures RunStrategyIntended(strategy, true, "IB", "yes", now, None, None, moduleName, key) ==
            LiveRun(strategy, InteractiveBrokers)
    ensures RunStrategyIntended(strategy, true, "Kraken", "Yes", now, None, None, moduleName, key) ==
            LiveRun(strategy, CcxtKraken)
  {
    ConfirmsExactlyYesAnyCase("yes");
    ConfirmsExactlyYesAnyCase("Yes");
  }

  /** The two dispatchers differ only once a live run is confirmed. */
  lemma IntendedAgreesOutsideConfirmedLive(strategy: ClassMember, isLive: bool, brokerChoice: string, response: string,
                                           now: int, start: Option<int>, end: Option<int>,
                                           moduleName: string, key: string)
    requires !(isLive && Confirms(response))
    ensures RunStrategyIntended(strategy, isLive, brokerChoice, response, now, start, end, moduleName, key) ==
            RunStrategy(strategy, isLive, brokerChoice, response, now, start, end, moduleName, key)
  {
  }

  /** An inverted window reaches the backtest engine unchanged: the order of the dates is not checked. */
  lemma InvertedWindowIsPassedThrough(strategy: ClassMember, brokerChoice: string, response: string,
                                      now: int, start: int, end: int, moduleName: string, key: string)
    requires end < start
    ensures var r := RunStrategy(strategy, false, brokerChoice, response, now, Some(start), Some(end), moduleName, key);
            r.BacktestRun? && r.call.window == Window(start, end) && r.call.window.end < r.call.window.start
  {
  }
}
