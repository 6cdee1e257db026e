/** The contract's unit-test scenarios, stated for every block height the
    test environment could report before the option's expiry of 100 000. */
module Scenarios {
  import opened Msg
  import Machine

  const Btc1: seq<Coin> := [Coin("BTC", 1)]
  const Eth40: seq<Coin> := [Coin("ETH", 40)]
  const Terms: InstantiateMsg := InstantiateMsg(Eth40, 100_000)

  /** A creator locking 1 BTC for 40 ETH, expiring at height 100 000. */
  function Created(h: nat): Machine.Outcome {
    Machine.Instantiate(None, Env(h), MessageInfo("creator", Btc1), Terms)
  }

  /** Instantiation sends nothing, and the query returns the terms with the
      creator as owner. */
  lemma ProperInitialization(h: nat)
    requires h < 100_000
    ensures Created(h).result.Ok? && Created(h).result.value.messages == []
    ensures Machine.QueryConfig(Created(h).store) == Ok(State("creator", "creator", Btc1, Eth40, 100_000))
  {
  }

  /** A stranger cannot transfer; the owner can, and only the owner changes. */
  lemma TransferScenario(h: nat)
    requires h < 100_000
    ensures var s0 := Created(h).store;
      var denied := Machine.Execute(s0, Env(h), MessageInfo("anyone", []), Transfer("anyone"));
      var moved := Machine.Execute(denied.store, Env(h), MessageInfo("creator", []), Transfer("someone"));
      denied.result == Err(Unauthorized) &&
      moved.result.Ok? && |moved.result.value.attributes| == 2 &&
      moved.result.value.attributes[1] == Attribute("new owner", "someone") &&
      Machine.QueryConfig(moved.store).Ok? &&
      Machine.QueryConfig(moved.store).value.owner == "someone" &&
      Machine.QueryConfig(moved.store).value.creator == "creator"
  {
  }

  /** A stranger is refused, a late exercise is refused as expired, a wrong
      payment is refused naming the counter-offer, and the exact payment
      settles both legs and empties the slot. */
  lemma ExecuteScenario(h: nat)
    requires h < 100_000
    ensures var s0 := Created(h).store;
      var stranger := Machine.Execute(s0, Env(h), MessageInfo("anyone", Eth40), Transfer("anyone"));
      var late := Machine.Execute(stranger.store, Env(200_000), MessageInfo("creator", Eth40), Execute);
      var wrong := Machine.Execute(late.store, Env(h), MessageInfo("creator", [Coin("ADA", 39)]), Execute);
      var paid := Machine.Execute(wrong.store, Env(h), MessageInfo("creator", Eth40), Execute);
      stranger.result == Err(Unauthorized) &&
      late.result == Err(Expired) &&
      wrong.result == Err(DiffCounterOffer(Eth40)) &&
      paid.result.Ok? &&
      paid.result.value.messages == [BankSend("creator", Eth40), BankSend("creator", Btc1)] &&
      Machine.QueryConfig(paid.store).Err?
  {
  }

  /** Burning early is refused, burning with funds attached is refused, and
      a burn after expiry returns the collateral to the creator. */
  lemma BurnScenario(h: nat)
    requires h < 100_000
    ensures var s0 := Created(h).store;
      var early := Machine.Execute(s0, Env(h), MessageInfo("creator", []), Burn);
      var funded := Machine.Execute(early.store, Env(200_000), MessageInfo("creator", [Coin("ADA", 136)]), Burn);
      var burned := Machine.Execute(funded.store, Env(200_000), MessageInfo("creator", []), Burn);
      early.result == Err(CustomError("Option not yet expired")) &&
      funded.result == Err(CustomError("dont send funds with burn")) &&
      burned.result.Ok? &&
      |burned.result.value.messages| == 1 && |burned.result.value.attributes| == 1 &&
      burned.result.value.messages[0] == BankSend("creator", Btc1)
  {
  }

  /** Funds are compared in order: the right coins attached in another order
      do not exercise the option. */
  lemma FundsComparedInOrder(h: nat)
    requires h < 100_000
    ensures var s := State("creator", "creator", Btc1, [Coin("ETH", 40), Coin("ATOM", 5)], 100_000);
      Machine.TryExecute(Some(s), Env(h), MessageInfo("creator", [Coin("ATOM", 5), Coin("ETH", 40)])).result
        == Err(DiffCounterOffer(s.counterOffer))
  {
  }
}
