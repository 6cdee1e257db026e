/** A deployed contract instance. Its one storage slot (`STATE`) is a field
    that the entry points save into, update in place and remove; each entry
    point is proved to behave as the transition function of the same name in
    module Machine. */
module Contract {
  import opened Msg
  import Machine

  class OptionContract {
    /** The `STATE` item: empty until instantiated, emptied by a successful exercise. */
    var state: Option<State>

    constructor ()
      ensures state == None
    {
      state := None;
    }

    /** `instantiate`: checks the expiry, then saves a fresh record over the slot. */
    method Instantiate(env: Env, info: MessageInfo, msg: InstantiateMsg)
      returns (r: Result<Response, ContractError>)
      modifies this
      ensures Machine.Outcome(r, state) == Machine.Instantiate(old(state), env, info, msg)
    {
      if msg.expires <= env.blockHeight {
        return Err(Expired);
      }
      state := Some(State(info.sender, info.sender, info.funds, msg.counterOffer, msg.expires));
      r := Ok(Response([], []));
    }

    /** `try_transfer`: a read-modify-write of the owner field. */
    method TryTransfer(info: MessageInfo, recipient: Addr) returns (r: Result<Response, ContractError>)
      modifies this
      ensures Machine.Outcome(r, state) == Machine.TryTransfer(old(state), info, recipient)
    {
      if state.None? {
        return Err(Std(NotFound));
      }
      var s := state.value;
      if info.sender != s.owner {
        return Err(Unauthorized);
      }
      s := s.(owner := recipient);
      state := Some(s);
      r := Ok(Response([], [Attribute("method", "try_transfer"), Attribute("new owner", recipient)]));
    }

    /** `try_execute`: loads the record, runs the guards in order, declares
        both settlements and removes the record. */
    method TryExecute(env: Env, info: MessageInfo) returns (r: Result<Response, ContractError>)
      modifies this
      ensures Machine.Outcome(r, state) == Machine.TryExecute(old(state), env, info)
    {
      if state.None? {
        return Err(Std(NotFound));
      }
      var s := state.value;
      if info.sender != s.owner {
        return Err(Unauthorized);
      }
      if env.blockHeight >= s.expires {
        return Err(Expired);
      }
      if info.funds != s.counterOffer {
        return Err(DiffCounterOffer(s.counterOffer));
      }
      var messages := [BankSend(s.creator, s.counterOffer), BankSend(s.owner, s.collateral)];
      state := None;
      r := Ok(Response(messages, [Attribute("method", "try_execute")]));
    }

    /** `try_burn`: loads the record and never writes it back or removes it. */
    method TryBurn(env: Env, info: MessageInfo) returns (r: Result<Response, ContractError>)
      ensures r == Machine.TryBurn(state, env, info).result
    {
      if state.None? {
        return Err(Std(NotFound));
      }
      var s := state.value;
      if env.blockHeight < s.expires {
        return Err(CustomError(NotYetExpired));
      }
      if info.funds != [] {
        return Err(CustomError(FundsWithBurn));
      }
      r := Ok(Response([BankSend(s.creator, s.collateral)], [Attribute("method", "try_burn")]));
    }

    /** `query_config`: a read of the slot. */
    method QueryConfig() returns (r: Result<State, StdError>)
      ensures r == Machine.QueryConfig(state)
    {
      if state.None? {
        return Err(NotFound);
      }
      r := Ok(state.value);
    }

    /** `execute`: dispatches a command to its handler. */
    method Execute(env: Env, info: MessageInfo, msg: ExecuteMsg) returns (r: Result<Response, ContractError>)
      modifies this
      ensures Machine.Outcome(r, state) == Machine.Execute(old(state), env, info, msg)
    {
      match msg
      case Transfer(recipient) =>
        r := TryTransfer(info, recipient);
      case Execute =>
        r := TryExecute(env, info);
      case Burn =>
        r := TryBurn(env, info);
    }
  }
}
