/** The covered option as a transition function over its one storage slot.
    Each entry point takes the slot as it was and yields the result handed to
    the host together with the slot as it is left; a failure leaves the slot
    untouched, because the host rolls the whole call back. */
module Machine {
  import opened Msg

  datatype Outcome = Outcome(result: Result<Response, ContractError>, store: Option<State>)

  /** The terms fixed at creation: everything but the owner. */
  predicate SameTerms(a: State, b: State) {
    a.creator == b.creator && a.collateral == b.collateral &&
    a.counterOffer == b.counterOffer && a.expires == b.expires
  }

  /** `instantiate`: the caller locks the attached funds as collateral and
      becomes creator and first owner. A record already in the slot is
      overwritten, not refused. */
  function Instantiate(store: Option<State>, env: Env, info: MessageInfo, msg: InstantiateMsg): (o: Outcome)
    ensures o.result.Err? <==> msg.expires <= env.blockHeight
    ensures o.result.Err? ==> o.result.error == Expired && o.store == store
    ensures o.result.Ok? ==> o.result.value.messages == [] && o.result.value.attributes == []
    ensures o.result.Ok? ==>
      o.store.Some? &&
      o.store.value.creator == info.sender && o.store.value.owner == info.sender &&
      o.store.value.collateral == info.funds &&
      o.store.value.counterOffer == msg.counterOffer && o.store.value.expires == msg.expires
  {
    if msg.expires <= env.blockHeight then
      Outcome(Err(Expired), store)
    else
      var state := State(info.sender, info.sender, info.funds, msg.counterOffer, msg.expires);
      Outcome(Ok(Response([], [])), Some(state))
  }

  /** `try_transfer`: the owner hands the option to `recipient`. */
  function TryTransfer(store: Option<State>, info: MessageInfo, recipient: Addr): (o: Outcome)
    ensures store.None? ==> o.result == Err(Std(NotFound))
    ensures store.Some? && info.sender != store.value.owner ==> o.result == Err(Unauthorized)
    ensures o.result.Ok? <==> store.Some? && info.sender == store.value.owner
    ensures o.result.Err? ==> o.store == store
    ensures o.result.Ok? ==>
      o.store.Some? && o.store.value.owner == recipient && SameTerms(o.store.value, store.value)
    ensures o.result.Ok? ==>
      o.result.value.messages == [] &&
      o.result.value.attributes == [Attribute("method", "try_transfer"), Attribute("new owner", recipient)]
  {
    match store
    case None => Outcome(Err(Std(NotFound)), store)
    case Some(state) =>
      if info.sender != state.owner then
        Outcome(Err(Unauthorized), store)
      else
        var res := Response([], [Attribute("method", "try_transfer"), Attribute("new owner", recipient)]);
        Outcome(Ok(res), Some(state.(owner := recipient)))
  }

  /** `try_execute`: the owner exercises the option by paying exactly the
      counter-offer before expiry. The guards run in order and the first one
      that fails decides the error. */
  function TryExecute(store: Option<State>, env: Env, info: MessageInfo): (o: Outcome)
    ensures store.None? ==> o.result == Err(Std(NotFound))
    ensures store.Some? && info.sender != store.value.owner ==> o.result == Err(Unauthorized)
    ensures store.Some? && info.sender == store.value.owner && env.blockHeight >= store.value.expires ==>
      o.result == Err(Expired)
    ensures (store.Some? && info.sender == store.value.owner && env.blockHeight < store.value.expires &&
             info.funds != store.value.counterOffer) ==>
      o.result == Err(DiffCounterOffer(store.value.counterOffer))
    ensures o.result.Ok? <==>
      store.Some? && info.sender == store.value.owner && env.blockHeight < store.value.expires &&
      info.funds == store.value.counterOffer
    ensures o.result.Err? ==> o.store == store
    ensures o.result.Ok? ==> o.store == None
    ensures o.result.Ok? ==>
      o.result.value.messages ==
        [BankSend(store.value.creator, info.funds), BankSend(info.sender, store.value.collateral)] &&
      o.result.value.attributes == [Attribute("method", "try_execute")]
  {
    match store
    case None => Outcome(Err(Std(NotFound)), store)
    case Some(state) =>
      if info.sender != state.owner then
        Outcome(Err(Unauthorized), store)
      else if env.blockHeight >= state.expires then
        Outcome(Err(Expired), store)
      else if info.funds != state.counterOffer then
        Outcome(Err(DiffCounterOffer(state.counterOffer)), store)
      else
        var res := Response(
          [BankSend(state.creator, state.counterOffer), BankSend(state.owner, state.collateral)],
          [Attribute("method", "try_execute")]);
        Outcome(Ok(res), None)
  }

  /** `try_burn`: once expired, anyone may have the collateral returned to
      the creator. No ownership check is made, and the record is left in the
      slot. */
  function TryBurn(store: Option<State>, env: Env, info: MessageInfo): (o: Outcome)
    ensures store.None? ==> o.result == Err(Std(NotFound))
    ensures store.Some? && env.blockHeight < store.value.expires ==>
      o.result == Err(CustomError(NotYetExpired))
    ensures store.Some? && env.blockHeight >= store.value.expires && info.funds != [] ==>
      o.result == Err(CustomError(FundsWithBurn))
    ensures o.result.Ok? <==> store.Some? && env.blockHeight >= store.value.expires && info.funds == []
    ensures o.store == store
    ensures o.result.Ok? ==>
      o.result.value.messages == [BankSend(store.value.creator, store.value.collateral)] &&
      o.result.value.attributes == [Attribute("method", "try_burn")]
  {
    match store
    case None => Outcome(Err(Std(NotFound)), store)
    case Some(state) =>
      if env.blockHeight < state.expires then
        Outcome(Err(CustomError(NotYetExpired)), store)
      else if info.funds != [] then
        Outcome(Err(CustomError(FundsWithBurn)), store)
      else
        var res := Response([BankSend(state.creator, state.collateral)], [Attribute("method", "try_burn")]);
        Outcome(Ok(res), store)
  }

  /** `query_config`: the stored record, verbatim. */
  function QueryConfig(store: Option<State>): (r: Result<State, StdError>)
    ensures r.Ok? <==> store.Some?
    ensures r.Ok? ==> r.value == store.value
    ensures r.Err? ==> r.error == NotFound
  {
    match store
    case None => Err(NotFound)
    case Some(state) => Ok(state)
  }

  /** `execute`: the dispatcher over the three commands. Whatever the
      command, a failure changes nothing, an empty slot fails with the
      storage error, and a record that survives keeps the terms it was
      created with. */
  function Execute(store: Option<State>, env: Env, info: MessageInfo, msg: ExecuteMsg): (o: Outcome)
    ensures o.result.Err? ==> o.store == store
    ensures store.None? ==> o.result == Err(Std(NotFound)) && o.store == None
    ensures o.store.Some? ==> store.Some? && SameTerms(o.store.value, store.value)
    ensures o.store.None? && store.Some? ==> msg.Execute? && o.result.Ok?
  {
    match msg
    case Transfer(recipient) => TryTransfer(store, info, recipient)
    case Execute => TryExecute(store, env, info)
    case Burn => TryBurn(store, env, info)
  }
}
