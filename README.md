# Covered option contract, modelled in Dafny

This project models the core of a CosmWasm smart contract that implements a covered option, `src/contract.rs`. A creator locks collateral and names a counter-offer and an expiry height. The owner, who starts as the creator, can do three things with the option. They can transfer it. They can exercise it before expiry by paying exactly the counter-offer; the counter-offer then goes to the creator and the collateral to the owner. After expiry, anyone can burn it, and the collateral is sent back to the creator. The contract keeps a single optional record in storage, `STATE`.

- `msg.dfy` (module `Msg`): the record `State`, coins, the call context (`Env`, `MessageInfo`), the instantiate and execute messages, the response (bank sends and attributes) and the errors.
- `machine.dfy` (module `Machine`): each entry point as a pure transition from the storage slot before the call to the result and the slot after it. Their contracts state the guards, the order in which the guards are checked, the settlement and what happens to the record.
- `contract.dfy` (module `Contract`): class `OptionContract`. It holds the slot as a field `state: Option<State>`, and its methods save, update and remove the slot as the source does. Each method is proved to behave like the `Machine` function of the same name.
- `lifecycle.dfy` (module `Lifecycle`): sequences of calls against one instance, and inductive properties of them.
- `scenarios.dfy` (module `Scenarios`): the contract's unit tests, restated as lemmas.

Four behaviours of the code that a reader might not expect:
- `try_burn` never removes the record (`src/contract.rs:100-118` has no removal). A successful burn leaves the option in storage, and the same burn succeeds again (`Lifecycle.BurnRepeatable`).
- Funds are compared with ordered, element-wise list equality (`src/contract.rs:79`), not as multisets. The same coins attached in another order do not exercise the option (`Scenarios.FundsComparedInOrder`).
- `instantiate` does not check for an existing record. It overwrites it (`src/contract.rs:34`).
- A transfer with no record fails with the storage error `NotFound`, not with `Unauthorized` (`src/contract.rs:58`).

## Model

| member | source | states |
|---|---|---|
| `Machine.Instantiate` | src/contract.rs:17-37 | Fails with `Expired` exactly when `expires <= height`, and the slot is then unchanged. Otherwise the new record has creator = owner = sender, collateral = the attached funds, and the message's counter-offer and expiry, whatever was stored before. The response carries no messages and no attributes. |
| `Machine.TryTransfer` | src/contract.rs:53-69 | With no record it fails with `NotFound`. If the sender is not the owner it fails with `Unauthorized`. It succeeds exactly when a record exists and the sender is its owner. On failure the slot is unchanged. On success only the owner changes, to `recipient`, and the other four fields keep their values. No messages are sent, and the attributes are exactly `method=try_transfer` and `new owner=recipient`. |
| `Machine.TryExecute` | src/contract.rs:71-98 | The guards are checked in source order and the first failure wins: missing record gives `NotFound`, then a non-owner sender gives `Unauthorized`, then `height >= expires` gives `Expired`, then funds that differ from the counter-offer give `DiffCounterOffer(counter_offer)`. It succeeds exactly when all four guards pass. A failure leaves the slot unchanged. A success sends exactly two messages: the attached funds (the counter-offer) to the creator, then the collateral to the sender (the owner). It adds one attribute and empties the slot. |
| `Machine.TryBurn` | src/contract.rs:100-118 | There is no ownership check. With no record it fails with `NotFound`. Before expiry it fails with "Option not yet expired", whoever calls and whatever funds are attached. After expiry, attached funds make it fail with "dont send funds with burn". It succeeds exactly when a record exists, `height >= expires` and no funds are attached. It then sends exactly one message, the collateral to the creator, with one attribute. The slot is never changed. |
| `Machine.QueryConfig` | src/contract.rs:127-130 | Succeeds exactly when a record is stored and returns that record unchanged. Otherwise it fails with `NotFound`. |
| `Machine.Execute` | src/contract.rs:40-51 | Holds for every command. A failure leaves the slot unchanged. An empty slot fails with `NotFound` and stays empty. A record that remains keeps its creator, collateral, counter-offer and expiry. Only a successful exercise removes the record. |
| `Contract.OptionContract.Instantiate` | src/contract.rs:17-37 | Checks the expiry and then saves the record into the slot. The result and the new slot equal `Machine.Instantiate` on the old slot. |
| `Contract.OptionContract.TryTransfer` | src/contract.rs:53-69 | Reads the record, modifies it and writes it back, changing only the owner. The result and the new slot equal `Machine.TryTransfer` on the old slot. |
| `Contract.OptionContract.TryExecute` | src/contract.rs:71-98 | Loads the record, checks the guards in order, declares both sends and removes the record. The result and the new slot equal `Machine.TryExecute` on the old slot. |
| `Contract.OptionContract.TryBurn` | src/contract.rs:100-118 | Only reads the slot and never writes it. Its result equals `Machine.TryBurn`. |
| `Contract.OptionContract.QueryConfig` | src/contract.rs:127-130 | Only reads the slot. Its result equals `Machine.QueryConfig`. |
| `Contract.OptionContract.Execute` | src/contract.rs:40-51 | Dispatches the command to its handler. The result and the new slot equal `Machine.Execute`. |
| `Lifecycle.AbsentStaysAbsent` | src/contract.rs:53-118 | All three handlers load the record first. So from an empty slot, with no new instantiation, every command fails with `NotFound` and the slot stays empty. Proved by induction on the call sequence. |
| `Lifecycle.NothingWorksAfterExercise` | src/contract.rs:95-130 | After a successful exercise, every later transfer, exercise and burn fails with `NotFound` until the contract is instantiated again, and so does the config query. |
| `Lifecycle.TermsNeverChange` | src/contract.rs:53-118 | Over any sequence of commands with no new instantiation, a record that is still stored keeps the creator, collateral, counter-offer and expiry it started with. Only `try_transfer` saves a record, and it changes only the owner; `try_execute` removes the record. |
| `Lifecycle.NoExerciseOnceExpired` | src/contract.rs:76-77 | Once the height has reached the stored expiry, and heights never decrease, no later exercise succeeds. |
| `Lifecycle.ExerciseAndBurnExclusive` | src/contract.rs:71-118 | Assume heights never decrease and there is no new instantiation. Then no run contains both a successful exercise and a successful burn, in either order. An exercise empties the slot. A burn shows the height has passed the expiry, and the expiry never changes. |
| `Lifecycle.AtMostOneExercise` | src/contract.rs:71-98 | With no new instantiation, at most one exercise in a run succeeds, so the counter-offer is collected at most once. |
| `Lifecycle.BurnRepeatable` | src/contract.rs:100-118 | A successful burn leaves the record in place, so repeating the same burn succeeds again with the same settlement. |
| `Lifecycle.ExpiryGuardsComplementary` | src/contract.rs:71-106 | For any stored expiry and any height, exactly one of two expiry guards lets the call through: exercise's (`height < expires`) or burn's (`height >= expires`). |
| `Scenarios.ProperInitialization` | src/contract.rs:139-159 | Instantiating 1 BTC against 40 ETH, expiring at 100000, sends nothing. The query then returns creator = owner = "creator" and the same collateral, counter-offer and expiry. |
| `Scenarios.TransferScenario` | src/contract.rs:162-204 | A transfer by "anyone" is refused with `Unauthorized`. The owner's transfer to "someone" succeeds and yields two attributes, the second being `new owner=someone`. The owner becomes "someone" and the creator stays "creator". |
| `Scenarios.ExecuteScenario` | src/contract.rs:207-279 | A stranger's transfer is refused with `Unauthorized` (the test sends a transfer there, not an exercise; the tests never try an exercise by a stranger, a case `Machine.TryExecute`'s contract covers). An exercise at height 200000 fails with `Expired`. Paying 39 ADA fails with `DiffCounterOffer` carrying 40 ETH. Paying 40 ETH sends 40 ETH and then 1 BTC to "creator", and the query fails afterwards. |
| `Scenarios.BurnScenario` | src/contract.rs:282-332 | A burn before expiry fails with "Option not yet expired". A burn at 200000 with 136 ADA attached fails with "dont send funds with burn". A burn at 200000 with no funds sends exactly 1 BTC to "creator" and yields one attribute. |
| `Scenarios.FundsComparedInOrder` | src/contract.rs:79-83 | The counter-offer coins attached in a different order are refused with `DiffCounterOffer`, because the comparison is ordered list equality. |

## Left out

- Entry-point wiring and the serialisation of the query answer (`to_binary`) are host interface code, not contract logic.
- `set_contract_version` and the constants `CONTRACT_NAME` and `CONTRACT_VERSION` are version bookkeeping in a separate crate. Any storage error they could raise is not modelled.
- The payload of `DiffCounterOffer` is the counter-offer value itself, not its debug-formatted text.
- Storage and serialisation internals are not modelled. Saving and updating always succeed, and loading from an empty slot fails with the single error `NotFound`.
- Funds are never actually moved: a `BankSend` is only declared, and the host executes it. Coin amounts are unbounded naturals, so 128-bit overflow is not modelled. Account balances in the test setup are not modelled either.
- The test environment's block height is not fixed. The scenario lemmas hold for every height below the expiry of 100000.
- Responses keep only their bank sends and attributes. Sub-message options, events and the data field are not modelled.
- src/state.rs, src/msg.rs and src/error.rs are not part of this model. The shapes of `State`, the messages and the errors follow how `src/contract.rs` uses them.
