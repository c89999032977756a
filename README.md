# Hyperlane mailbox (CosmWasm): execute handlers and two-phase ownership

This project models two stateful components of the CosmWasm Hyperlane
mailbox and proves what their handlers promise.

- **Mailbox execute handlers** (`contracts/core/mailbox/src/execute.rs`):
  - the owner-gated setters `set_default_ism` and `set_default_hook`;
  - the outbound `dispatch`, which stamps a message with the current nonce
    and the local domain, advances `NONCE`, records `LATEST_DISPATCHED_ID`
    and schedules the hook's `post_dispatch`;
  - the inbound `process`, which decodes and checks a message, resolves
    its ISM (security module), refuses an id already in `DELIVERIES`,
    records the delivery *before* asking the ISM to verify, and schedules
    the recipient's `handle`.
- **Ownership** (`packages/ownable/src/lib.rs`): `initialize`,
  `init_ownership_transfer`, `revoke_ownership_transfer`,
  `claim_ownership`, `get_owner` and `get_pending_owner` over the storage
  items `OWNER` and `PENDING_OWNER`.

Each handler appears twice:

- as a function from the storage it finds to its result and the storage it
  leaves (`Ownable.*`, `Mailbox.*`), whose `ensures` state the checks, their
  order and what is written;
- as a method of a class whose fields are the storage items
  (`OwnableStorage.Ownership`, `MailboxStorage.MailboxContract`), updated in
  place, with early returns in the source's order, proved equal to the
  function.

`OwnableRuns` and `MailboxRuns` run arbitrary sequences of calls. Their
lemmas, proved by induction, give the properties of whole histories:

- the owner only passes to a nominated address;
- the nonce counts the dispatched messages;
- the ledger only grows;
- no message id reaches a recipient twice.

`MailboxScenarios` restates the source's own test cases.

The collaborators are parameters, given as function values:

- `Api` is address validation;
- `Codec` is the message conversion, `Message::id`, the sender bytes of
  `to_msg`, and `recipient_addr`;
- `Querier` is the two ISM queries.

So every property holds for every behaviour of these collaborators. Where
the handler panics, the model has a precondition that names exactly the
inputs that reach the panic (`DispatchPanics`, `ProcessPanics`). These
panics are the `expect` on a missing hook, the `nonce + 1` overflow, a
message that does not convert, and a missing default ISM. In a run, a
panicking call is `Panicked` and leaves the storage as it was. That is
true inside the handler, because every panic comes before the first write.

What execute.rs and lib.rs do, as modelled:

- The ownership errors in lib.rs are generic errors with the messages
  "unauthorized", "ownership is transferring" and "ownership is not
  transferring". There is no dedicated error kind for them.
- execute.rs has no typed error for a malformed message. The conversion at
  execute.rs:123 is an infallible `into()`, so it can only panic.
- The ledger entry that execute.rs:149-155 writes records the caller as `sender`.
- `get_default_ism` (state.rs, not part of this model) is taken to panic
  when no default ISM is set. With the eager `unwrap_or` at
  execute.rs:142, `ProcessPanics` then excludes a recipient that names its
  own ISM while no default is set.

## Model

| member | source | states |
|---|---|---|
| `Ownable.GetOwner` | packages/ownable/src/lib.rs:113-117 | `get_owner` succeeds exactly when an owner was stored and then returns it; otherwise it fails with NotFound |
| `Ownable.NewEvent` | packages/ownable/src/lib.rs:17-19 | the event type is `hpl_ownable::` followed by the name, so the name can be read back from it; the attributes are the given ones |
| `Ownable.GetPendingOwner` | packages/ownable/src/lib.rs:119-123 | `get_pending_owner` returns the stored pending owner, and `None` exactly when none is stored |
| `Ownable.Initialize` | packages/ownable/src/lib.rs:21-25 | after `initialize(owner)`, `get_owner` returns `owner`; the pending owner is untouched |
| `Ownable.InitOwnershipTransfer` | packages/ownable/src/lib.rs:52-69 | check order: a missing owner, then a caller other than the owner ("unauthorized", even while a transfer is pending), then "ownership is transferring". It succeeds iff the caller is the owner and nothing is pending. A failure changes nothing. A success keeps the owner, makes `get_pending_owner` return `Some(next_owner)`, and emits the owner and next_owner attributes |
| `Ownable.RevokeOwnershipTransfer` | packages/ownable/src/lib.rs:71-82 | the caller is checked first ("unauthorized"), then "ownership is not transferring". It succeeds iff the owner calls while a transfer is pending. A failure changes nothing. A success keeps the owner and clears the pending owner |
| `Ownable.ClaimOwnership` | packages/ownable/src/lib.rs:84-96 | the pending transfer is checked before the caller: "ownership is not transferring", then "unauthorized". It succeeds iff the caller is the pending owner. A success makes the caller the owner and clears the pending owner. A failure changes nothing |
| `OwnableStorage.Ownership.Initialize` | packages/ownable/src/lib.rs:21-25 | saving `OWNER` in place equals `Ownable.Initialize`, and `get_owner` then returns the new owner |
| `OwnableStorage.Ownership.InitOwnershipTransfer` | packages/ownable/src/lib.rs:57-68 | the in-place handler equals `Ownable.InitOwnershipTransfer` on the old storage. After a success the pending owner is `next_owner` |
| `OwnableStorage.Ownership.RevokeOwnershipTransfer` | packages/ownable/src/lib.rs:71-81 | the in-place handler equals `Ownable.RevokeOwnershipTransfer`. After a success nothing is pending and the owner is unchanged |
| `OwnableStorage.Ownership.ClaimOwnership` | packages/ownable/src/lib.rs:84-95 | the in-place handler equals `Ownable.ClaimOwnership`. After a success the owner is the caller, who was the pending owner |
| `OwnableRuns.Apply` | packages/ownable/src/lib.rs:57-96 | for every call: a failure leaves both items as they were. The owner changes only through a successful claim, and only to the pending address. A pending owner appears only when the owner successfully nominates it |
| `OwnableRuns.HoldersComeFromNominations` | packages/ownable/src/lib.rs:52-96 | after any sequence of calls, the owner and the pending owner were holders at the start or were nominated by a successful `init_ownership_transfer` on the way |
| `OwnableRuns.OwnerComesFromNominations` | packages/ownable/src/lib.rs:84-96 | the owner after any sequence of calls is the initial owner, the initially pending owner, or a nominated address |
| `OwnableRuns.UninitializedIsInert` | packages/ownable/src/lib.rs:57-90 | before `initialize`, every transfer call fails and the empty storage stays empty |
| `OwnableRuns.OwnerNeverLost` | packages/ownable/src/lib.rs:92-93 | once an owner is stored, `get_owner` keeps succeeding after any sequence of calls |
| `OwnableRuns.PendingFollowsLastAccepted` | packages/ownable/src/lib.rs:119-123 | after any sequence of calls, `get_pending_owner` returns `Some(next)` exactly when the last successful call nominated `next`, or, when no call succeeded, the pending owner it started with. It returns `None` when the last successful call was a revoke or a claim |
| `OwnableRuns.HandOverAndBack` | packages/ownable/src/lib.rs:52-96 | nominate, claim, nominate back and claim back restore the original storage; both addresses were nominated |
| `Mailbox.SetDefaultIsm` | contracts/core/mailbox/src/execute.rs:25-46 | a `get_owner` failure and a non-owner caller (`Unauthorized`) are refused before the address is validated. An address the validator rejects returns the validator's error. It succeeds iff the owner calls with a valid address. A failure changes nothing. A success sets `default_ism` and leaves every other config field, the nonce, the latest id and the ledger as they were |
| `Mailbox.SetDefaultHook` | contracts/core/mailbox/src/execute.rs:48-69 | the same as `SetDefaultIsm`, for `default_hook`: owner check first, then a rejected address returns the validator's error |
| `Mailbox.Dispatch` | contracts/core/mailbox/src/execute.rs:71-113 | a recipient longer than 32 bytes fails with `InvalidAddressLength{len}`. Then an override hook that fails validation returns that error, and only after that a sender that fails to convert returns its error. It succeeds iff the length is at most 32, the hook resolves and the sender converts. A failure changes nothing. A success emits exactly one `post_dispatch`, addressed to the override hook or else to the default, with the metadata or empty bytes and the funds. The message has version `MAILBOX_VERSION`, the current nonce, the local domain and the request's fields. The nonce becomes n + 1, `LATEST_DISPATCHED_ID` and the response data are the message id, and the id and message events are emitted |
| `Mailbox.ResolveIsm` | contracts/core/mailbox/src/execute.rs:142 | the verifying ISM is the one the recipient names, and the default only when it names none |
| `Mailbox.Process` | contracts/core/mailbox/src/execute.rs:115-181 | only the ledger can change, and only by this message's entry naming the caller. A version mismatch and then a domain mismatch fail before the ledger is touched. A recipient that does not convert fails first, with its error. A failed ISM lookup is reported before the ledger is read, even for an id already delivered. A delivered id fails with `AlreadyDeliveredMessage` once the ISM lookup has answered. The entry is written iff every check before verification passed, and it stays whatever the verdict: a rejected proof gives `VerifyFailed` and a failed verify query its own error, both with the entry written. It succeeds iff the ISM verifies. A success sends `handle(origin, sender, body)` to the recipient |
| `MailboxStorage.MailboxContract.SetDefaultIsm` | contracts/core/mailbox/src/execute.rs:30-43 | the in-place handler equals `Mailbox.SetDefaultIsm` with the owner stored in the ownership items. A success leaves the nonce and the ledger alone |
| `MailboxStorage.MailboxContract.SetDefaultHook` | contracts/core/mailbox/src/execute.rs:53-66 | the in-place handler equals `Mailbox.SetDefaultHook`. A success leaves the nonce and the ledger alone |
| `MailboxStorage.MailboxContract.Dispatch` | contracts/core/mailbox/src/execute.rs:76-112 | the in-place handler equals `Mailbox.Dispatch`. A success advances the nonce by one and stores the returned id as the latest |
| `MailboxStorage.MailboxContract.Process` | contracts/core/mailbox/src/execute.rs:121-180 | the in-place handler equals `Mailbox.Process`. Every ledger entry survives unchanged |
| `MailboxRuns.Step` | contracts/core/mailbox/src/execute.rs:25-181 | for every call, including one that panics: the domain and prefix are kept and ledger entries are kept. A dispatched message carries the current nonce and the local domain, advances the nonce by one and becomes the latest id. Any other call leaves both alone. An id handed to a recipient was not in the ledger before and is in it afterwards |
| `MailboxRuns.DomainIsFixed` | contracts/core/mailbox/src/execute.rs:39-43 | no sequence of calls changes the local domain or the address prefix |
| `MailboxRuns.LedgerOnlyGrows` | contracts/core/mailbox/src/execute.rs:144-155 | after any sequence of calls, every ledger entry is still there and unchanged |
| `MailboxRuns.NonceCountsDispatches` | contracts/core/mailbox/src/execute.rs:92-98 | along any sequence of calls, the dispatched messages carry consecutive nonces from the starting one and the local domain. The final nonce is the start plus their number. The latest id is the id of the last of them, or unchanged if there were none |
| `MailboxRuns.DeliveredWereFresh` | contracts/core/mailbox/src/execute.rs:144-155 | every id handed to a recipient during a run was absent from the starting ledger and is present at the end |
| `MailboxRuns.DeliveredAtMostOnce` | contracts/core/mailbox/src/execute.rs:144-171 | in any sequence of calls, with any ISM answers, no message id is handed to a recipient twice |
| `MailboxScenarios.ResubmitAfterFailedVerify` | contracts/core/mailbox/src/execute.rs:144-160 | in the storage a failed verification leaves (host rollback aside), resubmitting the same message with other metadata by anyone fails and changes nothing. The refusal is `AlreadyDeliveredMessage` when the ISM lookup answers. The first relayer's entry stays |
| `MailboxScenarios.DispatchFromFreshMailbox` | contracts/core/mailbox/src/execute.rs:278-326 | the dispatch test: a 32-byte recipient at nonce 0 gives a message with nonce 0 and domain 26657, nonce 1, and the latest id equal to that message's id. A 33-byte recipient gives `InvalidAddressLength{len: 33}` and changes nothing |
| `MailboxScenarios.ProcessCases` | contracts/core/mailbox/src/execute.rs:366-437 | the process tests: version 99, destination 11155111, an already delivered id and a rejected proof each give their own error. A good message records the relayer in the ledger |
| `MailboxScenarios.SettersAreOwnerOnly` | contracts/core/mailbox/src/execute.rs:212-276 | the setter tests: the owner sets the default ISM and hook, and anyone else gets `Unauthorized` with the storage unchanged |

## Left out

- Host rollback is not modelled. CosmWasm reverts the storage of an execution that returns an error, including the ledger entry `process` writes before verification fails. The model gives the state as the handler leaves it, and the run lemmas are about that state.
- The message encoding, decoding, `Message::id`, bech32 conversion of recipients and senders, and `addr_validate` live outside these files. They are `Codec` and `Api` parameters. Nothing is assumed about them beyond being functions; no injectivity of `id` is claimed.
- The ISM queries `ism::recipient` and `ism::verify` are `Querier` parameters, and their internals are out of scope. The hook's `post_dispatch` and the recipient's `handle` are recorded as outbound calls and never executed.
- The mailbox's event contents are defined in event.rs, which is not part of this model. Events are recorded as constructors holding the values the handlers pass.
- Loading `CONFIG` or `NONCE` when it was never saved is not modelled. The mailbox's instantiate entry point is not part of this model and stores both. Neither is a failure to serialise a response.
- `MAILBOX_VERSION` is declared in the mailbox crate root, which is not part of this model. The model takes 3, the Hyperlane v3 message version. No property depends on it except that it differs from 99.
- Mailbox.Dispatch: `nonce + 1` at 2^32 - 1 is taken to panic, which assumes overflow checks are on. Without them the nonce would wrap to 0, and the model does not cover that.
- Mailbox.Process: assumes `Config::get_default_ism` (state.rs, not part of this model) panics when no default ISM is set; `ProcessPanics` encodes that, so the model says nothing about a recipient that names its own ISM while no default is set.
- Mailbox.Dispatch: assumes `DispatchMsg::get_hook_addr` validates an override hook and otherwise yields the default hook (`HookAddr`), and `DispatchMsg::to_msg` copies destination, recipient and body unchanged (`ToMsg`). Both live in the interface crate, which is not part of this model; they are fixed definitions, not parameters.
- Mailbox.Process: requires the raw bytes to convert to a message. A failing conversion panics inside the interface crate, so the model has no error value for it.
- `handle` and `handle_query` in the ownable package are thin routing and serialisation. `OwnableRuns.OwnableOp` mirrors `handle`'s three arms but takes `next_owner` as already validated.
- packages/interface/src/warp/cw20.rs holds message types only, with no behaviour.
- The test-only mock querier and random byte generation are not modelled.
- Runs of the mailbox keep the owner fixed. Ownership calls are not interleaved with mailbox calls; their runs are modelled separately.
