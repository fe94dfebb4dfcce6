# Lease vault and lease table, modelled in Dafny

This project models the two stateful parts of a rental security-deposit tracker.

- **LeaseVault** (`lease_vault.dfy`) is a Soroban smart contract that holds one lease per contract instance. Its instance storage has two slots: the `LeaseInfo` record and the `DepositBalance` integer. There are four state-changing entry points (`initialize`, `deposit`, `confirm_move_in`, `release_deposit`) and two reads (`get_lease_info`, `get_balance`).
- **LeaseTable** (`lease_table.dfy`) is the backend's in-memory `leases` array. The REST handlers for `/api/leases` read it and change it in place: GET all, GET by id, POST, PUT and DELETE.
- `wrappers.dfy` holds the `Option`, `Result` and `Outcome` datatypes that both use.

How the vault is modelled:

- The contract is a class `Vault` whose fields are the two storage slots, `lease: Option<LeaseInfo>` and `balance: Option<I128>`.
- Each entry point is a method. Its `ensures` equates the new storage and the outcome with a pure step function (`DepositStep` and so on) applied to the old storage.
- What the contract does is stated in the step functions' contracts, and in lemmas about arbitrary sequences of calls (`Run`).
- A panic reverts the whole transaction. The model writes it as a `Fail` outcome that leaves both slots unchanged. The panics are a failed `require_auth`, an `unwrap` of an empty slot, and "Insufficient deposit amount".
- `require_auth(addr)` becomes a check that `addr` is in the set of addresses that signed the invocation. That set is a parameter.
- `i128` and `u64` are subset types of `int` with their exact ranges. The contract does no arithmetic on them, so nothing can overflow.

The code as written has these properties, all proved:

- No entry point checks the lease's current state.
- `InDispute` can never be reached.
- `deposit` replaces the balance with the amount instead of adding to it.
- `initialize` validates nothing. It may also be called again and overwrite a live lease.
- `deposit` authorises any signer `from`, not just the stored tenant.
- `confirm_move_in` authorises any signer, not just the stored landlord.
- `release_deposit` needs no signature at all, and ignores its `to` argument.

How the table is modelled:

- The table is a class `Table` with one field, `leases: seq<Record>`, where a record maps field names to JSON values.
- The `findIndex` scan is a loop method, `FindIndex`, proved equal to the recursive function `FirstIndex`. `FirstIndex`'s contract states first-match semantics.
- Matching follows `l.id === parseInt(...)`. The parsed parameter is an `Option<int>`: `None` stands for NaN, which equals nothing. A record without an `id` field, or whose `id` is not that integer (the string `"2"`, say), does not match.
- POST's random contract-address suffix is a parameter, so the address is `'C'` followed by an arbitrary string.

The contract declares two things that no entry point uses: the `InDispute` state (contracts/lease-vault/src/lib.rs:10) and the `DataKey::Evidence` storage key (contracts/lease-vault/src/lib.rs:32). No call assigns `InDispute`, and no call reads or writes an evidence slot.

## Model

| member | source | states |
|---|---|---|
| LeaseVault.InitializeStep | contracts/lease-vault/src/lib.rs:40-62 | always succeeds, whatever was stored before; the stored lease carries exactly the given arguments with state Created and the balance becomes 0; no argument is checked (an end date before the start date is accepted) |
| LeaseVault.DepositStep | contracts/lease-vault/src/lib.rs:64-80 | succeeds exactly when `from` signed, a lease is stored and `amount >= deposit_amount`; otherwise reverts with Unauthorized, NotInitialized or InsufficientDeposit and storage is unchanged; on success the balance is exactly `amount` whatever it was, the state is DepositPaid from any prior state, and every other lease field is unchanged |
| LeaseVault.ConfirmMoveInStep | contracts/lease-vault/src/lib.rs:82-93 | succeeds exactly when the given landlord address signed and a lease is stored (that address is not compared with the stored landlord); the state becomes Active from any state, Closed included; the balance and the other lease fields are unchanged; a failure leaves storage unchanged |
| LeaseVault.ReleaseDepositStep | contracts/lease-vault/src/lib.rs:95-113 | succeeds exactly when both slots are present, with no signature required; the balance becomes 0, the state Closed and the other lease fields are unchanged; with no lease it reverts with NotInitialized, with no balance BalanceMissing, leaving storage unchanged |
| LeaseVault.LeaseInfoOf | contracts/lease-vault/src/lib.rs:115-120 | returns the stored record unchanged, and fails with NotInitialized exactly when none is stored |
| LeaseVault.BalanceOf | contracts/lease-vault/src/lib.rs:122-127 | returns the stored balance, or 0 when the slot is empty |
| LeaseVault.Vault.constructor | contracts/lease-vault/src/lib.rs:35-36 | a newly deployed contract has both storage slots empty |
| LeaseVault.Vault.Initialize | contracts/lease-vault/src/lib.rs:40-62 | writes both slots so that the storage is InitializeStep of the old storage |
| LeaseVault.Vault.Deposit | contracts/lease-vault/src/lib.rs:64-80 | the new storage and the outcome are DepositStep of the old storage; the amount check comes before any write |
| LeaseVault.Vault.ConfirmMoveIn | contracts/lease-vault/src/lib.rs:82-93 | the new storage and the outcome are ConfirmMoveInStep of the old storage |
| LeaseVault.Vault.ReleaseDeposit | contracts/lease-vault/src/lib.rs:95-113 | the new storage and the outcome are ReleaseDepositStep of the old storage; both unwraps come before any write |
| LeaseVault.Vault.GetLeaseInfo | contracts/lease-vault/src/lib.rs:115-120 | returns LeaseInfoOf the storage and, having no modifies clause, changes nothing |
| LeaseVault.Vault.GetBalance | contracts/lease-vault/src/lib.rs:122-127 | returns BalanceOf the storage and, having no modifies clause, changes nothing |
| LeaseVault.InDisputeUnreachable | contracts/lease-vault/src/lib.rs:40-113 | from any storage not in InDispute, no sequence of calls reaches InDispute, because no entry point assigns it |
| LeaseVault.NeverInDisputeFromDeployment | contracts/lease-vault/src/lib.rs:6-12 | from a newly deployed contract, every sequence of calls leaves the lease absent or in a state other than InDispute |
| LeaseVault.SlotsStayPaired | contracts/lease-vault/src/lib.rs:60-61 | the lease slot and the balance slot are either both present or both empty after any sequence of calls that starts that way |
| LeaseVault.LeaseAbsentIffNoInitialize | contracts/lease-vault/src/lib.rs:40-113 | after any sequence of calls the lease slot is empty exactly when it was empty before and none of the calls was `initialize`: only `initialize` fills the slot and no call empties it |
| LeaseVault.ReleaseFailsOnlyBeforeInitialize | contracts/lease-vault/src/lib.rs:95-106 | after deployment and any calls, `release_deposit` fails exactly when none of those calls was `initialize`, and then with NotInitialized; the balance unwrap can never be the one that fails |
| LeaseVault.BalanceNonNegative | contracts/lease-vault/src/lib.rs:40-80 | if every `initialize` in a sequence of calls declares a non-negative deposit, the stored deposit and the balance stay non-negative |
| LeaseVault.NegativeDepositAccepted | contracts/lease-vault/src/lib.rs:73-77 | a lease initialised with deposit -5 accepts a deposit of -3, which becomes the balance: nothing rules out negative amounts |
| LeaseVault.DepositOverwrites | contracts/lease-vault/src/lib.rs:77 | after two successful deposits the balance is the second amount, not the sum |
| LeaseVault.ReleaseIgnoresRecipient | contracts/lease-vault/src/lib.rs:95-113 | `release_deposit` gives the same storage and outcome whatever `to` is |
| LeaseTable.FirstIndex | backend/server.js:63 | the result is -1 exactly when no record matches the id; otherwise it is the index of a matching record with no match before it |
| LeaseTable.Merge | backend/server.js:65 | the merged record has the keys of both inputs; body values win and the other keys keep the old record's values |
| LeaseTable.NewLease | backend/server.js:51-56 | the POSTed record has status 'Pending' and a contract address starting with 'C' whatever the body says; it copies every other body field; its id is old length + 1 unless the body has its own id; it adds no other key |
| LeaseTable.Table.constructor | backend/server.js:14-27 | the table starts with exactly the one seed lease (id 1) |
| LeaseTable.Table.FindIndex | backend/server.js:63 | the linear scan returns FirstIndex of the table, changing nothing |
| LeaseTable.Table.GetAll | backend/server.js:35-37 | returns the whole array, changing nothing |
| LeaseTable.Table.GetById | backend/server.js:40-47 | returns not-found exactly when no record matches; otherwise returns the first matching record; the array is unchanged |
| LeaseTable.Table.Create | backend/server.js:50-58 | appends exactly one record, the NewLease for the old length, and returns it; the length grows by one and all earlier entries are unchanged |
| LeaseTable.Table.Update | backend/server.js:62-70 | with a match, replaces the first matching entry by its merge with the body and returns it, keeping the length and every other entry; with no match, returns not-found and leaves the array unchanged |
| LeaseTable.Table.Delete | backend/server.js:73-81 | with a match, removes exactly the first matching entry, keeping the others in order and shrinking the length by one; with no match, reports not-found and leaves the array unchanged |
| LeaseTable.FirstIndexConcat | backend/server.js:63 | the first match in a concatenation is the first match in the left part, else the first in the right part shifted by the left part's length |
| LeaseTable.CreatedIsFound | backend/server.js:40-58 | a record POSTed without its own id is what GET by old length + 1 finds, provided no earlier record has that id |
| LeaseTable.UpdatedIsFound | backend/server.js:62-66 | after a PUT whose body does not set id, GET by the same id finds the merged record at the same index |
| LeaseTable.DeleteUncoversNext | backend/server.js:73-77 | after a DELETE, GET by the same id finds the next record with that id, if there is one |
| LeaseTable.IdsCanRepeat | backend/server.js:52 | ids come from the array length, so they can repeat: from the seed table, POST, then DELETE id 1, then POST gives two records with id 2 |

## Left out

- Soroban SDK internals are not modelled: `Env`, how instance storage is persisted and serialised, and the cryptography behind `require_auth`. Storage is two fields, and authorisation is membership in a set of signers passed to the call.
- The `DataKey::Evidence(Address)` storage key is declared but never read or written by the contract, so it has no counterpart here.
- Revert semantics are modelled only as "a failed call leaves storage unchanged". Gas, events and panic messages are not modelled.
- `release_deposit` transfers no tokens. Its unused `balance` read survives only as the `BalanceMissing` failure of its `unwrap`.
- Express, `cors`, `dotenv`, `app.listen` and the `/health` route are not modelled. HTTP status codes appear only as the not-found outcome (`None` or `false`).
- `parseInt` is not modelled: the route parameter arrives as an optional integer, and a NaN result matches nothing.
- `Math.random()` is not modelled: the contract-address suffix is an arbitrary string parameter.
- JSON numbers are modelled as exact integers. The double-precision rounding of ids beyond 2^53 is not modelled, and non-integer ids are opaque values that never match.
- JavaScript's key order in objects and JSON output is not modelled, because records are maps. Special keys such as `__proto__` in a request body are not modelled either.
- Concurrency between requests is not modelled; each handler runs to completion on its own.
- The frontend (`frontend/src/**/*.jsx`) is not part of this model. It is React rendering over hard-coded mock data: the status badge lookup, the wallet connection in the header, and Create Lease / Submit Dispute buttons that only log.
