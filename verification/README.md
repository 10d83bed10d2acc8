# ink! token ledger, deployer and name resolver — a Dafny model

This project models three ink! smart contracts as pure state-transition functions over
immutable Dafny data, and proves their accounting and authorisation properties.

- **ERC-20 ledger** (`Erc20Token`, `Erc20Runs`): balances and allowances held in maps in
  which a missing key reads as zero, a total supply fixed at construction, and the
  messages `transfer`, `approve`, `transfer_from` with the internal `transfer_from_to`.
  A message returns `Exec.Done(post, ret)`, where `post` is the storage the code leaves and
  `ret` is its `Result<(), Error>`, or `Exec.Trapped` when an `unwrap` panics. The runtime
  rolls a trapped call back. The caller that the runtime reports is an explicit
  parameter. Events are appended to a `log` field.
- **Deployer** (`Deployer`, `LeBytes`): `deploy_erc20` encodes the `u64` salt as 8
  little-endian bytes. It asks the runtime's instantiation service for a new ledger built
  from one fixed code hash with zero endowment. It appends the returned address to an
  append-only registry. The instantiation service is a function parameter
  `(code hash, endowment, salt bytes, constructor args) -> Option<AccountId>`.
- **PNS resolver** (`Pns`): first-come name registration, and CID updates that only the
  owner may make.

`Runtime` holds the shared primitives: `u128`/`u64` as bounded naturals, 32-byte
`AccountId` and `Hash`, `Option`, `Result` and `Exec`, and `checked_add`/`checked_sub`.
`Store` holds the zero-default map reading and the ghost `Sum` of a map, with its
update lemmas.

The plain readers `Erc20Token.TotalSupply`, `Deployer.GetDeployedContracts` and
`Pns.GetOwner` have no contract of their own. Their meaning is fixed by the contracts
that use them: `RunConserves`, `DeployErc20`, `RunDeploysAppends`, `IsRegistered`,
`Register`, `UpdateCid` and `OwnershipIsPermanent`.

**Overflow argument.** The comment at `ERC-20/deployer/erc20/lib.rs:177-178` says the
credit cannot overflow because `total_supply <= u128::MAX / 2` "is checked". No such
check exists: nothing in the code bounds the supply below `u128::MAX`, and the model
accepts any `u128` supply. `Erc20Token.MoveNeverTraps` shows the bound is unnecessary.
On a ledger whose balances sum to the total supply, two distinct balances together are
at most that supply. So the `checked_add(..).unwrap()` never panics, and neither does the
`checked_sub(..).unwrap()`. `Erc20Runs.RunConserves` shows that every ledger reachable
from the constructor has balances that sum to its supply.

## Model

| member | source | states |
|---|---|---|
| Erc20Token.New | ERC-20/deployer/erc20/lib.rs:65-80 | the whole supply is credited to the caller; every other balance and every allowance reads 0; balances sum to the supply; exactly one `Transfer{from: None, to: Some(caller), value: total_supply}` is emitted |
| Erc20Token.NewNameless | ERC-20/deployer/erc20/lib.rs:85-87 | the same as `new`, with no name and no symbol |
| Erc20Token.BalanceOf | ERC-20/deployer/erc20/lib.rs:109-111 | an account that was never written reads 0 and any other account reads its stored balance; on a conserving ledger no balance exceeds the total supply |
| Erc20Token.Allowance | ERC-20/deployer/erc20/lib.rs:115-117 | a pair that was never approved reads 0, and any other pair reads its stored cap |
| Erc20Token.TransferFromTo | ERC-20/deployer/erc20/lib.rs:162-188 | returns `InsufficientBalance` with the storage unchanged exactly when balance(from) < value, and returns no other error; on success `from` is debited and `to` credited by `value` (a self-transfer leaves the balance as it was), other balances, all allowances and the supply are kept, and one `Transfer` event is appended; it traps exactly when `from != to` and the credit would exceed `u128::MAX` |
| Erc20Token.Transfer | ERC-20/deployer/erc20/lib.rs:121-124 | moves from the caller: fails with `InsufficientBalance`, changing nothing, exactly when the caller's balance is short, and fails in no other way; traps exactly when the caller is not `to` and the credit would exceed `u128::MAX`; otherwise returns `Ok`, moves `value` and leaves allowances alone |
| Erc20Token.Approve | ERC-20/deployer/erc20/lib.rs:129-137 | always `Ok`; sets allowance(caller, spender) to `value`, leaving every other allowance, all balances and the supply unchanged; appends one `Approval` event |
| Erc20Token.TransferFrom | ERC-20/deployer/erc20/lib.rs:142-158 | the allowance is checked before the balance: `InsufficientAllowance` exactly when allowance(from, caller) < value, even if the balance is also short; then `InsufficientBalance` exactly when balance(from) < value; both leave the storage unchanged, including the allowance; on success the balances move as in `transfer_from_to`, allowance(from, caller) drops by exactly `value`, and no other allowance changes |
| Erc20Token.MoveNeverTraps | ERC-20/deployer/erc20/lib.rs:174-179 | on a conserving ledger neither the `checked_sub` nor the `checked_add` unwrap can panic, so a funded move returns `Ok`; only the `u128` bound on the supply is needed, not half of it |
| Erc20Token.MoveConserves | ERC-20/deployer/erc20/lib.rs:168-187 | a move on a conserving ledger keeps the sum of balances equal to the total supply |
| Erc20Token.TransferFromConserves | ERC-20/deployer/erc20/lib.rs:148-158 | a delegated transfer on a conserving ledger never traps and keeps the ledger conserving |
| Erc20Token.ApproveOverwrites | ERC-20/deployer/erc20/lib.rs:131 | two approvals of the same pair leave the second value, not their sum, and leave the same allowances as the second approval alone |
| Erc20Runs.ApplyConserves | ERC-20/deployer/erc20/lib.rs:119-188 | no message traps on a conserving ledger; each message keeps the ledger conserving and keeps the total supply |
| Erc20Runs.RunConserves | ERC-20/deployer/erc20/lib.rs:101-105 | after any sequence of messages the balances still sum to the total supply, and the supply that `total_supply` reports is unchanged |
| Erc20Runs.ReachableConserves | ERC-20/deployer/erc20/lib.rs:65-80 | every ledger reachable from the constructor conserves, and reports, the supply it was created with |
| Erc20Runs.ErrorChangesNothing | ERC-20/deployer/erc20/lib.rs:151-172 | a message that returns an error leaves balances, allowances and the event log exactly as they were |
| Erc20Runs.DelegationScenario | ERC-20/deployer/erc20/lib.rs:142-158 | mint 1000 to A; A approves B for 400; B moves 300 from A to C, leaving 700/300 and allowance 100; a further move of 200 by B fails with `InsufficientAllowance` and changes nothing |
| LeBytes.ToLeBytes | ERC-20/deployer/lib.rs:32 | `salt.to_le_bytes()` has 8 bytes, and decoding them little-endian gives back the salt |
| LeBytes.DecodeEncode | ERC-20/deployer/lib.rs:32 | decoding the `n` low-order little-endian bytes of any `x < 256^n` gives back `x` |
| LeBytes.EncodeDecode | ERC-20/deployer/lib.rs:32 | re-encoding a decoded byte string gives back the same bytes; with the previous row, the 8-byte salt encoding is a bijection between `u64` values and 8-byte strings |
| Deployer.New | ERC-20/deployer/lib.rs:17-21 | a fresh deployer's registry is empty |
| Deployer.DeployErc20 | ERC-20/deployer/lib.rs:25-42 | the call traps exactly when the instantiation service refuses a request made with the fixed code hash of lines 50-58, zero endowment and the salt's little-endian bytes; on success the registry gains exactly one entry at its end, earlier entries stay in place, and the returned address is that new last entry |
| Deployer.RunDeploysAppends | ERC-20/deployer/lib.rs:39-48 | after any sequence of deploys, each answered by the instantiation service as it stands at that call, `get_deployed_contracts` is the old registry followed by exactly the addresses the successful deploys returned, in call order; failed deploys leave no trace |
| Deployer.RepeatedDeployTraps | ERC-20/deployer/lib.rs:32-40 | with a runtime that derives the address from the request and refuses an occupied address, a deploy records and returns the derived address, and repeating it with the same arguments and salt traps, leaving the registry with that one entry |
| Deployer.DistinctSaltsDistinctRequests | ERC-20/deployer/lib.rs:30-36 | deploys with different salts send different salt bytes to the instantiation service |
| Pns.New | PNS/pns/lib.rs:16-21 | no name is registered: `is_registered` is false, `get_owner` is `None` and `get_cid` is empty for every name |
| Pns.IsRegistered | PNS/pns/lib.rs:56-58 | a name is registered exactly when `get_owner` returns `Some` |
| Pns.GetCid | PNS/pns/lib.rs:50-52 | a name with no stored CID reads as the empty byte string, and any other name reads its stored CID |
| Pns.Register | PNS/pns/lib.rs:25-33 | returns true exactly when the name was free; the caller then owns it and its CID is `cid`; a taken name changes neither owner nor CID; no other name is affected |
| Pns.UpdateCid | PNS/pns/lib.rs:37-46 | returns true exactly when the caller owns the name, and then replaces only that name's CID; owners never change; a refused update changes nothing |
| Pns.OwnershipIsPermanent | PNS/pns/lib.rs:27-30 | once a name has an owner, it keeps that owner under any sequence of `register`/`update_cid` calls |
| Pns.RunKeepsCidsOwned | PNS/pns/lib.rs:27-31 | CIDs are stored only for registered names in every reachable resolver, so `get_cid` of an unregistered name is empty |
| Pns.OnlyOwnerChangesCid | PNS/pns/lib.rs:39-44 | a name's CID is unchanged by any sequence of calls none of which is made by its owner |

## Left out

- `name` and `symbol` messages (erc20 lib.rs:91-99): these return stored metadata without change.
- `Erc20Token.TotalSupply` (erc20 lib.rs:103-105) is modelled but has no contract of its own. That the supply is never rewritten is stated by the per-message contracts and by `Erc20Runs.RunConserves`.
- Event topics and indexing: events are plain values appended to a log in emission order.
- The SCALE encoding and the storage layout of `Mapping`: maps with a zero or empty default stand in for them.
- Deterministic address derivation, collision detection, gas and endowment handling, and the running of the new ledger's constructor: all belong to the runtime. The instantiation service is a parameter, given afresh to each call of a run. "Re-using a salt fails" is proved only for the deterministic runtime of `Deployer.RepeatedDeployTraps`. The real derivation scheme is not modelled.
- Storage writes made before an `Err` return would persist or be reverted depending on the runtime. No message here writes before returning `Err`, and the contracts show that.
- `upgradeable-contract/update-code/proxy/lib.rs`: it wraps the runtime's `set_code_hash`, whose effect is invisible here, plus an owner assertion and a one-field setter. It is not part of this model.
- `cross-contract/caller/lib.rs`: call-forwarding plumbing with no logic of its own. It is not part of this model.
- Re-entrancy: each message is one atomic function, so no interleaving can be expressed.
