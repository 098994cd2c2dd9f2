/**
 Broker selection for live trading: the two accepted broker names and the
 connector each one builds. The connectors and their credentials live outside
 the runner, so a connector is represented by its kind only.
 */
module Broker {
  import opened Base

  /** The live connectors: Interactive Brokers, and the Ccxt exchange connector set up for Kraken. */
  datatype Connector = InteractiveBrokers | CcxtKraken

  /** The broker name that selects a connector. */
  function BrokerName(c: Connector): string {
    match c
    case InteractiveBrokers => "IB"
    case CcxtKraken => "Kraken"
  }

  /**
   `'IB'` selects Interactive Brokers and `'Kraken'` the Ccxt connector; the
   comparison is exact and case-sensitive, and any other name is an invalid
   choice for which no connector is built.
   */
  function ConfigureBroker(choice: string): (r: Result<Connector>)
    ensures r.Ok? <==> choice == "IB" || choice == "Kraken"
    ensures r.Err? ==> r.error == InvalidBrokerChoice(choice)
  {
    if choice == "IB" then Ok(InteractiveBrokers)
    else if choice == "Kraken" then Ok(CcxtKraken)
    else Err(InvalidBrokerChoice(choice))
  }

  /** Selecting by a connector's own name builds that connector. */
  lemma ConfigureBrokerByName(c: Connector)
    ensures ConfigureBroker(BrokerName(c)) == Ok(c)
  {
  }

  /** Whatever connector a name selects, that name is the connector's own name. */
  lemma ConfigureBrokerNamesConnector(choice: string)
    ensures ConfigureBroker(choice).Ok? ==> BrokerName(ConfigureBroker(choice).value) == choice
  {
  }

  /** Broker names are matched exactly: other spellings are refused. */
  lemma ConfigureBrokerIsCaseSensitive()
    ensures ConfigureBroker("ib") == Err(InvalidBrokerChoice("ib"))
    ensures ConfigureBroker("kraken") == Err(InvalidBrokerChoice("kraken"))
    ensures ConfigureBroker("") == Err(InvalidBrokerChoice(""))
  {
  }
}
