/** Properties of whole call sequences against one contract instance: what
    survives from one call to the next, and which settlements can follow one
    another. */
module Lifecycle {
  import opened Msg
  import Machine

  /** One call from the host: the `instantiate` entry point or the `execute` one. */
  datatype Call =
    | Init(env: Env, info: MessageInfo, init: InstantiateMsg)
    | Exec(env: Env, info: MessageInfo, msg: ExecuteMsg)

  function Apply(store: Option<State>, call: Call): Machine.Outcome {
    match call
    case Init(env, info, init) => Machine.Instantiate(store, env, info, init)
    case Exec(env, info, msg) => Machine.Execute(store, env, info, msg)
  }

  /** The results of a call sequence, one per call, and the slot it leaves. */
  datatype Run = Run(results: seq<Result<Response, ContractError>>, store: Option<State>)

  function RunCalls(store: Option<State>, calls: seq<Call>): (run: Run)
    ensures |run.results| == |calls|
    decreases |calls|
  {
    if calls == [] then Run([], store)
    else
      var o := Apply(store, calls[0]);
      var rest := RunCalls(o.store, calls[1..]);
      Run([o.result] + rest.results, rest.store)
  }

  predicate NoInstantiate(calls: seq<Call>) {
    forall i :: 0 <= i < |calls| ==> calls[i].Exec?
  }

  /** The ledger's height never goes back between calls. */
  predicate HeightsNonDecreasing(calls: seq<Call>) {
    forall i, j :: 0 <= i < j < |calls| ==> calls[i].env.blockHeight <= calls[j].env.blockHeight
  }

  /** Call `i` of the run was a successful exercise. */
  predicate Exercised(calls: seq<Call>, run: Run, i: int) {
    0 <= i < |calls| && i < |run.results| &&
    calls[i].Exec? && calls[i].msg.Execute? && run.results[i].Ok?
  }

  /** Call `i` of the run was a successful burn. */
  predicate Burned(calls: seq<Call>, run: Run, i: int) {
    0 <= i < |calls| && i < |run.results| &&
    calls[i].Exec? && calls[i].msg.Burn? && run.results[i].Ok?
  }

  /** No call of the run is a successful exercise while another is a successful burn. */
  predicate NotBothSettlements(calls: seq<Call>, run: Run) {
    forall i, j | 0 <= i < |calls| && 0 <= j < |calls| :: Exercised(calls, run, i) ==> !Burned(calls, run, j)
  }

  /** At most one call of the run is a successful exercise. */
  predicate SingleExercise(calls: seq<Call>, run: Run) {
    forall i, j | 0 <= i < |calls| && 0 <= j < |calls| ::
      Exercised(calls, run, i) && Exercised(calls, run, j) ==> i == j
  }

  /** Dropping the first call keeps a sequence free of instantiations. */
  lemma NoInstantiateTail(calls: seq<Call>)
    requires calls != [] && NoInstantiate(calls)
    ensures NoInstantiate(calls[1..])
  {
    forall i | 0 <= i < |calls| - 1 ensures calls[1..][i].Exec? {
      assert calls[1..][i] == calls[i + 1];
    }
  }

  /** Once the slot is empty, and until a new instantiation, every command
      fails with the storage error and the slot stays empty. */
  lemma {:induction false} AbsentStaysAbsent(calls: seq<Call>)
    requires NoInstantiate(calls)
    ensures RunCalls(None, calls).store == None
    ensures forall i :: 0 <= i < |calls| ==> RunCalls(None, calls).results[i] == Err(Std(NotFound))
  {
    if calls != [] {
      var rest := calls[1..];
      NoInstantiateTail(calls);
      AbsentStaysAbsent(rest);
      var run := RunCalls(None, calls);
      var tail := RunCalls(None, rest);
      assert run.results == [Err(Std(NotFound))] + tail.results;
      forall i | 0 <= i < |calls| ensures run.results[i] == Err(Std(NotFound)) {
        if i > 0 { assert run.results[i] == tail.results[i - 1]; }
      }
    }
  }

  /** No operation works after a successful exercise: every later command
      fails with the storage error and the config query fails, until the
      contract is instantiated again. */
  lemma {:induction false} NothingWorksAfterExercise(store: Option<State>, env: Env, info: MessageInfo, calls: seq<Call>)
    requires Machine.TryExecute(store, env, info).result.Ok?
    requires NoInstantiate(calls)
    ensures var run := RunCalls(Machine.TryExecute(store, env, info).store, calls);
      Machine.QueryConfig(run.store) == Err(NotFound) &&
      forall i :: 0 <= i < |calls| ==> run.results[i] == Err(Std(NotFound))
  {
    AbsentStaysAbsent(calls);
  }

  /** Without a new instantiation, a record that is still in the slot after
      any sequence of commands has the creator, collateral, counter-offer and
      expiry it started with. */
  lemma {:induction false} TermsNeverChange(store: Option<State>, calls: seq<Call>)
    requires NoInstantiate(calls)
    ensures RunCalls(store, calls).store.Some? ==>
      store.Some? && Machine.SameTerms(RunCalls(store, calls).store.value, store.value)
    decreases |calls|
  {
    if calls != [] {
      var rest := calls[1..];
      NoInstantiateTail(calls);
      TermsNeverChange(Apply(store, calls[0]).store, rest);
    }
  }

  /** Once the height has reached a record's expiry, no later exercise can
      succeed: the record keeps its expiry, and heights do not go back. */
  lemma {:induction false} NoExerciseOnceExpired(store: Option<State>, h: nat, calls: seq<Call>)
    requires NoInstantiate(calls)
    requires store.Some? ==> store.value.expires <= h
    requires forall i :: 0 <= i < |calls| ==> h <= calls[i].env.blockHeight
    ensures forall i :: !Exercised(calls, RunCalls(store, calls), i)
    decreases |calls|
  {
    if calls != [] {
      var rest := calls[1..];
      NoInstantiateTail(calls);
      var o := Apply(store, calls[0]);
      NoExerciseOnceExpired(o.store, h, rest);
      var run := RunCalls(store, calls);
      var tail := RunCalls(o.store, rest);
      assert run.results == [o.result] + tail.results;
      forall i ensures !Exercised(calls, run, i) {
        if 0 < i < |calls| {
          assert !Exercised(rest, tail, i - 1);
          assert run.results[i] == tail.results[i - 1];
          assert calls[i] == rest[i - 1];
        }
      }
    }
  }

  /** With heights that never go back and no new instantiation, the
      collateral is settled by at most one kind of terminal call: a run never
      holds both a successful exercise and a successful burn. */
  lemma {:induction false} ExerciseAndBurnExclusive(store: Option<State>, calls: seq<Call>)
    requires NoInstantiate(calls)
    requires HeightsNonDecreasing(calls)
    ensures NotBothSettlements(calls, RunCalls(store, calls))
    decreases |calls|
  {
    if calls != [] {
      var rest := calls[1..];
      NoInstantiateTail(calls);
      assert HeightsNonDecreasing(rest) by {
        forall i, j | 0 <= i < j < |rest|
          ensures rest[i].env.blockHeight <= rest[j].env.blockHeight
        {
          assert rest[i] == calls[i + 1] && rest[j] == calls[j + 1];
        }
      }
      var o := Apply(store, calls[0]);
      var run := RunCalls(store, calls);
      var tail := RunCalls(o.store, rest);
      assert run.results == [o.result] + tail.results;
      assert forall k :: 0 < k < |calls| ==>
        (Exercised(calls, run, k) <==> Exercised(rest, tail, k - 1)) &&
        (Burned(calls, run, k) <==> Burned(rest, tail, k - 1))
      by {
        forall k | 0 < k < |calls|
          ensures (Exercised(calls, run, k) <==> Exercised(rest, tail, k - 1)) &&
                  (Burned(calls, run, k) <==> Burned(rest, tail, k - 1))
        {
          assert calls[k] == rest[k - 1] && run.results[k] == tail.results[k - 1];
        }
      }
      if Exercised(calls, run, 0) {
        // The exercise emptied the slot; nothing after it succeeds.
        AbsentStaysAbsent(rest);
        forall j ensures !Burned(calls, run, j) {
          if 0 < j < |calls| {
            assert tail.results[j - 1] == Err(Std(NotFound));
          }
        }
      } else if Burned(calls, run, 0) {
        // The burn kept the record and proved the height past its expiry.
        var h := calls[0].env.blockHeight;
        forall i | 0 <= i < |rest| ensures h <= rest[i].env.blockHeight {
          assert rest[i] == calls[i + 1];
        }
        NoExerciseOnceExpired(o.store, h, rest);
        forall i ensures !Exercised(calls, run, i) {
          if 0 < i < |calls| {
            assert !Exercised(rest, tail, i - 1);
          }
        }
      } else {
        ExerciseAndBurnExclusive(o.store, rest);
        forall i, j | Exercised(calls, run, i) ensures !Burned(calls, run, j) {
          assert 0 < i && Exercised(rest, tail, i - 1);
          if 0 < j < |calls| {
            assert !Burned(rest, tail, j - 1);
          }
        }
      }
    }
  }

  /** Without a new instantiation, at most one exercise in a run succeeds:
      the counter-offer is collected once. */
  lemma {:induction false} AtMostOneExercise(store: Option<State>, calls: seq<Call>)
    requires NoInstantiate(calls)
    ensures SingleExercise(calls, RunCalls(store, calls))
    decreases |calls|
  {
    if calls != [] {
      var rest := calls[1..];
      NoInstantiateTail(calls);
      var o := Apply(store, calls[0]);
      var run := RunCalls(store, calls);
      var tail := RunCalls(o.store, rest);
      assert run.results == [o.result] + tail.results;
      assert forall k :: 0 < k < |calls| ==>
        (Exercised(calls, run, k) <==> Exercised(rest, tail, k - 1))
      by {
        forall k | 0 < k < |calls|
          ensures Exercised(calls, run, k) <==> Exercised(rest, tail, k - 1)
        {
          assert calls[k] == rest[k - 1] && run.results[k] == tail.results[k - 1];
        }
      }
      if Exercised(calls, run, 0) {
        AbsentStaysAbsent(rest);
        forall j | 0 < j < |calls| ensures !Exercised(calls, run, j) {
          assert tail.results[j - 1] == Err(Std(NotFound));
        }
      } else {
        AtMostOneExercise(o.store, rest);
        forall i, j | Exercised(calls, run, i) && Exercised(calls, run, j) ensures i == j {
          assert Exercised(rest, tail, i - 1) && Exercised(rest, tail, j - 1);
        }
      }
    }
  }

  /** The record survives a successful burn, so the same burn call succeeds
      again with the same settlement. */
  lemma BurnRepeatable(store: Option<State>, env: Env, info: MessageInfo)
    requires Machine.TryBurn(store, env, info).result.Ok?
    ensures var once := Machine.TryBurn(store, env, info);
      Machine.TryBurn(once.store, env, info) == once
  {
  }

  /** The two expiry guards split the heights between them: for any stored
      expiry and any height, exactly one of exercise's (`height < expires`)
      and burn's (`height >= expires`) lets the call through. */
  lemma ExpiryGuardsComplementary(s: State, env: Env, info: MessageInfo)
    ensures var exec := Machine.TryExecute(Some(s), env, MessageInfo(s.owner, info.funds)).result;
      var burn := Machine.TryBurn(Some(s), env, info).result;
      (exec == Err(Expired)) != (burn == Err(CustomError(NotYetExpired)))
  {
  }
}
