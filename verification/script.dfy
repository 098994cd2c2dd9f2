/**
 The script's main block: derive the module name, import the module, resolve
 its strategy class, and hand over to the dispatcher. The importable modules
 are a parameter, each given by the class members reflection lists for it;
 command-line parsing has already produced the arguments and the dates are
 already day numbers.
 */
module Script {
  import opened Base
  import opened Naming
  import opened Resolver
  import opened Window
  import opened Dispatch

  /** The parsed command line. */
  datatype Arguments = Arguments(
    strategyFile: string,
    live: bool,
    broker: string,
    start: Option<int>,
    end: Option<int>)

  /** How the process ends: its exit status and what it did. */
  datatype ScriptResult = ScriptResult(exitStatus: int, outcome: Outcome)

  /** The command line's broker default. */
  const DefaultBroker: string := "Kraken"

  /** Import the module of a strategy file and find its strategy class. */
  function ResolveStrategy(moduleName: string, modules: map<string, seq<ClassMember>>): (r: Result<ClassMember>)
    ensures moduleName !in modules ==> r == Err(ModuleNotFound(moduleName))
    ensures moduleName in modules ==>
      (r.Err? <==> forall i :: 0 <= i < |modules[moduleName]| ==> !IsLocal(modules[moduleName][i], moduleName))
    ensures r.Err? ==> IsResolutionError(r.error)
    ensures r.Ok? ==> moduleName in modules && r.value in modules[moduleName] && IsLocal(r.value, moduleName)
    ensures r.Ok? ==> exists i :: IsFirstLocalAt(modules[moduleName], moduleName, i) && modules[moduleName][i] == r.value
  {
    if moduleName !in modules then Err(ModuleNotFound(moduleName))
    else
      FindStrategyClassIsFirst(moduleName, modules[moduleName]);
      match FindStrategyClass(moduleName, modules[moduleName])
      case None => Err(NoStrategyClass(moduleName))
      case Some(c) => Ok(c)
  }

  /**
   Exit status 1 for an error, whether the script exits itself or the live
   branch's `TypeError` escapes; 0 otherwise, taking a started backtest to
   return normally.
   */
  function ExitStatus(outcome: Outcome): (r: int)
    ensures r == 1 <==> outcome.Failed?
    ensures r == 0 <==> !outcome.Failed?
  {
    if outcome.Failed? then 1 else 0
  }

  /**
   One run of the script. A module that cannot be imported or defines no
   strategy class ends the run with status 1 before the dispatcher is
   reached; otherwise the dispatcher decides, as written.
   */
  function RunScript(args: Arguments, modules: map<string, seq<ClassMember>>, response: string,
                     now: int, polygonApiKey: string): (r: ScriptResult)
    ensures r.exitStatus == 0 <==> !r.outcome.Failed?
    ensures r.exitStatus == 0 || r.exitStatus == 1
    ensures ResolveStrategy(ModuleName(args.strategyFile), modules).Err? ==>
      r.outcome == Failed(ResolveStrategy(ModuleName(args.strategyFile), modules).error)
    ensures r.outcome.BacktestRun? <==>
      !args.live && ResolveStrategy(ModuleName(args.strategyFile), modules).Ok?
    ensures r.outcome.BacktestRun? ==>
      ModuleName(args.strategyFile) in modules &&
      Some(r.outcome.strategy) == FindStrategyClass(ModuleName(args.strategyFile), modules[ModuleName(args.strategyFile)])
    ensures r.outcome.BacktestRun? ==>
      r.outcome.call == BacktestArguments(BacktestWindow(now, args.start, args.end), ModuleName(args.strategyFile), polygonApiKey)
    ensures args.live && ResolveStrategy(ModuleName(args.strategyFile), modules).Ok? ==>
      r.outcome == (if Confirms(response) then Failed(MissingBrokerArgument) else Cancelled)
  {
    var moduleName := ModuleName(args.strategyFile);
    var outcome :=
      match ResolveStrategy(moduleName, modules)
      case Err(e) => Failed(e)
      case Ok(strategyClass) =>
        RunStrategy(strategyClass, args.live, args.broker, response, now, args.start, args.end,
                    moduleName, polygonApiKey);
    ScriptResult(ExitStatus(outcome), outcome)
  }

  /**
   A failed resolution ends the run the same way whatever the mode, broker,
   dates, answer or day: no confirmation is asked, no broker or backtest is touched.
   */
  lemma ResolutionFailureStopsBeforeDispatch(args: Arguments, modules: map<string, seq<ClassMember>>,
                                             live: bool, broker: string, start: Option<int>, end: Option<int>,
                                             r1: string, r2: string, n1: int, n2: int, key: string)
    requires ResolveStrategy(ModuleName(args.strategyFile), modules).Err?
    ensures RunScript(args, modules, r1, n1, key).exitStatus == 1
    ensures RunScript(args, modules, r1, n1, key) ==
            RunScript(Arguments(args.strategyFile, live, broker, start, end), modules, r2, n2, key)
  {
  }

  /** The backtest log file of `<stem>.<ext>` is `logs/<stem>.log`. */
  lemma {:induction false} BacktestLogNamesStem(stem: string, ext: string, modules: map<string, seq<ClassMember>>,
                                                start: Option<int>, end: Option<int>,
                                                response: string, now: int, key: string)
    requires '.' !in ext
    requires ResolveStrategy(stem, modules).Ok?
    ensures var r := RunScript(Arguments(stem + "." + ext, false, DefaultBroker, start, end), modules, response, now, key);
            r.outcome.BacktestRun? && r.outcome.call.logfile == "logs/" + stem + ".log"
  {
    ModuleNameStripsExtension(stem, ext);
  }

  /**
   With no flags, a strategy file `my_strategy.py` whose module defines one
   class is backtested over the year ending yesterday, logging to
   `logs/my_strategy.log`, with status 0 once the backtest returns.
   */
  lemma {:induction false} DefaultRunBacktestsTrailingYear(modules: map<string, seq<ClassMember>>, c: ClassMember,
                                                           response: string, now: int, key: string)
    requires modules == map["my_strategy" := [ClassMember("Strategy", "lumibot.strategies"), c]]
    requires c.definingModule == "my_strategy"
    ensures RunScript(Arguments("my_strategy.py", false, DefaultBroker, None, None), modules, response, now, key) ==
            ScriptResult(0, BacktestRun(c, BacktestArguments(Window(now - 366, now - 1), "my_strategy", key)))
  {
    ModuleNameStripsExtension("my_strategy", "py");
    assert "my_strategy" + "." + "py" == "my_strategy.py";
    SingleLocalClassIsResolved("my_strategy", modules["my_strategy"], 1);
  }

  /** A confirmed live run ends with status 1 whichever broker was chosen: the choice is lost. */
  lemma ConfirmedLiveRunExitsWithError(args: Arguments, modules: map<string, seq<ClassMember>>,
                                       response: string, now: int, key: string)
    requires args.live && Confirms(response)
    requires ResolveStrategy(ModuleName(args.strategyFile), modules).Ok?
    ensures RunScript(args, modules, response, now, key) == ScriptResult(1, Failed(MissingBrokerArgument))
  {
  }

  /** A declined live run starts nothing and exits with status 0. */
  lemma DeclinedLiveRunIsCancelled(args: Arguments, modules: map<string, seq<ClassMember>>,
                                   response: string, now: int, key: string)
    requires args.live && !Confirms(response)
    requires ResolveStrategy(ModuleName(args.strategyFile), modules).Ok?
    ensures RunScript(args, modules, response, now, key) == ScriptResult(0, Cancelled)
  {
  }
}
