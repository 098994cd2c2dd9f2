# Strategy runner: a verified model of the dispatch logic

`run_strategy.py` is a command-line runner for lumibot trading strategies. It
takes a strategy file, imports the module it names, picks the strategy class
out of that module, and then either runs the strategy live against a broker,
after asking the operator to confirm, or backtests it over a window of
historical data with fixed trading costs.

This project models the decisions the runner makes, as pure Dafny functions.
Console input, the clock and the data-provider key are parameters. The
importable modules are a parameter too: each module is given by the class
members that reflection lists for it.

| file | module | what it models |
|---|---|---|
| `base.dfy` | `Base` | `Option`, `Result` and the errors the script can end with |
| `naming.dfy` | `Naming` | the module name from the file name; the lower-cased confirmation answer |
| `resolver.dfy` | `Resolver` | `find_strategy_class` |
| `broker.dfy` | `Broker` | `configure_broker` |
| `window.dfy` | `Window` | the backtest window defaults |
| `dispatch.dfy` | `Dispatch` | `run_strategy`: the confirmation gate, the live branch and the backtest arguments |
| `script.dfy` | `Script` | the `__main__` block: resolution, exit status, hand-over to the dispatcher |

Dates are whole day numbers and "now" is the day the script runs. The fee
0.005 and the risk-free rate 5.233 are kept as exact decimal constants
(`Decimal(5, 3)` and `Decimal(5233, 3)`, digits and decimal scale); no floating-point arithmetic is done.
The connectors, the trader and the backtest engine appear only as the outcome
that names what would be started.

Two behaviours of `run_strategy.py` are easy to misread:

- The strategy class is the first local class in the order `inspect.getmembers` lists the members, which is sorted by name. It is not the first in declaration order. The model takes the member list as given.
- A confirmed live run does not reach a broker. `configure_broker()` is called without the broker choice, which raises `TypeError` (see Findings). The script model composes this as-written dispatcher; the corrected one, `Dispatch.RunStrategyIntended`, stands beside it.

## Model

| member | source | states |
|---|---|---|
| Naming.LastDot | run_strategy.py:90 | there is no `.` exactly when nothing is found; a found position holds a `.` and no `.` follows it |
| Naming.ModuleName | run_strategy.py:90 | a name without `.` is kept whole; otherwise the result is the prefix before the last `.` |
| Naming.ModuleNameStripsExtension | run_strategy.py:90 | round trip: the module name of `stem + "." + ext`, with no `.` in `ext`, is `stem`, even when the stem holds dots |
| Naming.ModuleNameIsPrefix | run_strategy.py:90 | the module name is a prefix of the file name, and equals it exactly when the file name has no `.` |
| Naming.Lower | run_strategy.py:45 | lower-casing keeps the length, turns each ASCII capital into its small letter (code point + 32), and keeps every other character |
| Naming.Confirms | run_strategy.py:45-46 | the gate passes `yes` and only ever passes three-character answers |
| Naming.ConfirmsExactlyYesAnyCase | run_strategy.py:45-46 | the gate passes exactly the three-letter answers y/Y, e/E, s/S, in both directions |
| Naming.ConfirmationExamples | run_strategy.py:45-48 | "yes", "YES", "Yes" pass; " yes", "y", "no", "yes " and "" do not |
| Resolver.FindStrategyClass | run_strategy.py:20-25 | the result is none exactly when no member is defined in the module; a result is a listed member defined in the module |
| Resolver.FindStrategyClassIsFirst | run_strategy.py:22-24 | the result is the first member, in listing order, whose defining module is the module itself |
| Resolver.SingleLocalClassIsResolved | run_strategy.py:22-24 | with exactly one class defined in the module, that class is resolved wherever it is listed |
| Resolver.LaterMembersDoNotMatter | run_strategy.py:22-24 | members listed after the found class do not change the result |
| Broker.ConfigureBroker | run_strategy.py:27-38 | a connector is built exactly for `IB` and `Kraken`; any other name gives the invalid-choice error |
| Broker.ConfigureBrokerByName | run_strategy.py:29-36 | selecting by a connector's name builds that connector: `IB` gives Interactive Brokers, `Kraken` gives Ccxt |
| Broker.ConfigureBrokerNamesConnector | run_strategy.py:29-36 | inverse direction: the connector built is the one named by the choice |
| Broker.ConfigureBrokerIsCaseSensitive | run_strategy.py:29-38 | `ib`, `kraken` and the empty name are refused |
| Window.BacktestWindow | run_strategy.py:61-69 | supplied bounds are used as given; a missing end is yesterday; a missing start is yesterday minus 365 days |
| Window.DefaultWindowIsTrailingYear | run_strategy.py:62-65 | with no dates, the window ends on now − 1 and spans 365 days |
| Window.BoundsAreIndependent | run_strategy.py:68-69 | the start does not depend on the end argument, and the end does not depend on the start argument |
| Window.DefaultStartIgnoresSuppliedEnd | run_strategy.py:65-68 | a defaulted start is now − 366 even when an end is supplied |
| Window.SuppliedWindowIsVerbatim | run_strategy.py:68-69 | two supplied dates are kept, in any order and on any day |
| Window.DefaultWindowShiftsWithClock | run_strategy.py:62-69 | the default window is the same on the same day and moves by exactly the days elapsed |
| Dispatch.LogFile | run_strategy.py:83 | the log file is `logs/`, then the module name, then `.log` |
| Dispatch.BacktestArguments | run_strategy.py:70-84 | one 0.005 fee for both buy and sell, rate 5.233, paid subscription on, log file from the module name, empty parameters |
| Dispatch.RunStrategy | run_strategy.py:40-85 | the backtest runs exactly when not live, with the given class and every argument of the backtest call (window from the clock and dates, fees, rate, paid flag, key, log file, parameters); live is cancelled exactly when the answer does not confirm; a confirmed live run fails with the missing-argument error and never reaches a connector |
| Dispatch.RunStrategyIntended | run_strategy.py:27-55 | corrected dispatcher: a live connector is always the one the broker choice names, and a confirmed live run with `IB` or `Kraken` starts |
| Dispatch.BacktestIgnoresLiveSettings | run_strategy.py:56-85 | a backtest depends on neither the broker choice nor the answer |
| Dispatch.LiveIgnoresBacktestSettings | run_strategy.py:42-55 | the live branch depends on neither the clock nor the dates |
| Dispatch.ConfirmedLiveLosesBrokerChoice | run_strategy.py:50-52 | `IB` with answer `yes` fails as written; the corrected dispatcher starts Interactive Brokers, and starts Ccxt for `Kraken` |
| Dispatch.IntendedAgreesOutsideConfirmedLive | run_strategy.py:42-85 | the corrected and as-written dispatchers differ only on a confirmed live run |
| Dispatch.InvertedWindowIsPassedThrough | run_strategy.py:68-69 | for every start after the end, and any broker or answer, the inverted window reaches the backtest unchanged |
| Script.ResolveStrategy | run_strategy.py:92-100 | a module that cannot be imported, or that defines no class, is a resolution error; success is the first listed class defined in that module |
| Script.ExitStatus | run_strategy.py:98-100 | status 1 exactly for a failed outcome (the script's `exit(1)` or the uncaught `TypeError` of the live branch), 0 otherwise |
| Script.RunScript | run_strategy.py:87-107 | exit status is 1 exactly on failure; a resolution error is the outcome; a backtest runs exactly when not live and resolved, with the resolved class and the full backtest arguments (window from the clock and the given dates, one 0.005 fee for buy and sell, rate 5.233, paid flag on, the given key, log under the module name, empty parameters); a resolved live run is cancelled or fails with the missing-argument error as the answer decides |
| Script.ResolutionFailureStopsBeforeDispatch | run_strategy.py:92-100 | a failed resolution exits with 1 the same way for every mode, broker, date, answer and day |
| Script.BacktestLogNamesStem | run_strategy.py:83-90 | backtesting `stem.ext` logs to `logs/stem.log` |
| Script.DefaultRunBacktestsTrailingYear | run_strategy.py:87-107 | `my_strategy.py` with no flags backtests its one class over [now − 366, now − 1] and gets status 0 (the engine assumed to return normally) |
| Script.ConfirmedLiveRunExitsWithError | run_strategy.py:50-52 | a confirmed live run exits with 1 and the missing-argument error, whatever broker was chosen |
| Script.DeclinedLiveRunIsCancelled | run_strategy.py:45-48 | a declined live run is cancelled and exits with 0 |

## Left out

- Command-line parsing (argparse) is left out. The arguments arrive already parsed, and the `--broker` choices restriction is not enforced.
- `print`, `input` and `exit` are console I/O. The answer is a string parameter that has already lost its newline, and the exit is the `exitStatus` field.
- `importlib.import_module` and `inspect.getmembers` are reflection. Modules are given as a map from module name to the listed class members. Errors other than `ImportError` during import, such as a syntax error in the strategy file, are not modelled.
- lumibot's `Trader`, `InteractiveBrokers`, `Ccxt`, `PolygonDataBacktesting` and `backtest` are external engines. They appear only as tags and fields of the outcome. The `Trader()` built just before the failing broker call is not represented.
- Script.ExitStatus: a started backtest gets status 0 on the assumption that the engine returns normally. Exceptions the branches can raise are not outcomes, although each would end the process with status 1: an exception from the strategy's `backtest` call, an `ImportError` from the backtest branch's own imports of the data source and the credentials, and an `EOFError` from `input` when the console is closed.
- The contents of the `credentials` module are external configuration. The Polygon API key is a parameter. A missing `API_KEY` entry (a `KeyError`) is not modelled.
- `datetime.strptime` parsing and the time of day are library code. Dates are day numbers, so a malformed date string, which fails only after resolution, is not modelled.
- Floating-point values are not computed with. The fee and the rate are exact decimal constants.
- Naming.Lower: only ASCII capitals are lowered, while Python's `str.lower` also lowers other scripts. No non-ASCII character lowers to `y`, `e` or `s`, so the gate's verdict is the same.
- The module-level `module_name` that `run_strategy` reads for the log file is passed in explicitly as `moduleName`.

## Findings

| source | as written | input that shows it | evidently intended | confidence | as-written member | corrected member |
|---|---|---|---|---|---|---|
| run_strategy.py:52 | `configure_broker()` is called with no argument, but the function needs `broker_choice`, so a `TypeError` is raised | `--live --broker IB`, answer `yes` | `configure_broker(broker_choice)`, building the connector the operator chose | high; not executed | Dispatch.ConfirmedLiveLosesBrokerChoice | Dispatch.RunStrategyIntended |
