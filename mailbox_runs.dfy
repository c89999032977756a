/** Any sequence of calls to the mailbox's execute handlers, and what holds
    of the storage along it: the nonce counts the dispatched messages, the
    latest id is that of the last one, the ledger only grows and no message
    id is handed to a recipient twice. */
module MailboxRuns {
  import opened CwTypes
  import opened Mailbox

  /** One call to an execute handler. Each `process` call may meet ISMs in
      a different state, so it carries its own querier. */
  datatype MailboxOp =
    | SetIsm(sender: Addr, ism: string)
    | SetHook(sender: Addr, hook: string)
    | Send(sender: Addr, funds: seq<Coin>, msg: DispatchMsg)
    | Deliver(sender: Addr, querier: Querier, metadata: Bytes, raw: Bytes)

  /** What the caller of a handler observes: its result, or a panic, which
      aborts the call before anything is written. */
  datatype Receipt = Returned(result: Result<Response, ContractError>) | Panicked

  datatype Outcome = Outcome(receipt: Receipt, state: MailboxState)

  /** The collaborators that stay the same along a run; the owner is what
      `get_owner` answers, since no ownership call is interleaved. */
  datatype Env = Env(owner: Result<Addr, StdError>, api: Api, codec: Codec)

  /** The message a receipt reports as dispatched, if any. */
  function SentMessage(r: Receipt): Option<Message> {
    if r.Returned? && r.result.Ok? && |r.result.value.messages| > 0 && r.result.value.messages[0].PostDispatch?
    then Some(r.result.value.messages[0].message)
    else None
  }

  /** The message id a receipt reports as handed to its recipient, if any. */
  function DeliveredId(r: Receipt): Option<Bytes> {
    if r.Returned? && r.result.Ok? && |r.result.value.events| > 0 && r.result.value.events[0].ProcessId?
    then Some(r.result.value.events[0].id)
    else None
  }

  function Step(s: MailboxState, env: Env, op: MailboxOp): (o: Outcome)
    // the configured domain and prefix never change
    ensures o.state.config.localDomain == s.config.localDomain && o.state.config.hrp == s.config.hrp
    // ledger entries are never removed or overwritten
    ensures s.deliveries.Keys <= o.state.deliveries.Keys
    ensures forall id | id in s.deliveries :: o.state.deliveries[id] == s.deliveries[id]
    // a dispatch carries the current nonce and the local domain, advances the nonce and becomes the latest id
    ensures SentMessage(o.receipt).Some? ==>
              var msg := SentMessage(o.receipt).value;
              msg.nonce == s.nonce && msg.originDomain == s.config.localDomain
              && o.state.nonce as int == s.nonce as int + 1
              && o.state.latestDispatchedId == Some(env.codec.id(msg))
    ensures SentMessage(o.receipt).None? ==>
              o.state.nonce == s.nonce && o.state.latestDispatchedId == s.latestDispatchedId
    // an id handed to a recipient was not in the ledger before and is afterwards
    ensures DeliveredId(o.receipt).Some? ==>
              DeliveredId(o.receipt).value !in s.deliveries && DeliveredId(o.receipt).value in o.state.deliveries
  {
    match op
    case SetIsm(sender, ism) =>
      var t := SetDefaultIsm(s, env.owner, env.api, sender, ism);
      Outcome(Returned(t.result), t.state)
    case SetHook(sender, hook) =>
      var t := SetDefaultHook(s, env.owner, env.api, sender, hook);
      Outcome(Returned(t.result), t.state)
    case Send(sender, funds, msg) =>
      if DispatchPanics(s, env.api, env.codec, sender, msg) then Outcome(Panicked, s)
      else
        var t := Dispatch(s, env.api, env.codec, sender, funds, msg);
        Outcome(Returned(t.result), t.state)
    case Deliver(sender, querier, metadata, raw) =>
      if ProcessPanics(s, env.codec, querier, raw) then Outcome(Panicked, s)
      else
        var t := Process(s, env.codec, querier, sender, metadata, raw);
        Outcome(Returned(t.result), t.state)
  }

  /** The storage after the calls `ops`, one after the other. */
  function Final(s: MailboxState, env: Env, ops: seq<MailboxOp>): MailboxState
    decreases |ops|
  {
    if ops == [] then s else Final(Step(s, env, ops[0]).state, env, ops[1..])
  }

  /** What each of the calls `ops` returned, in order. */
  function Receipts(s: MailboxState, env: Env, ops: seq<MailboxOp>): (rs: seq<Receipt>)
    ensures |rs| == |ops|
    decreases |ops|
  {
    if ops == [] then []
    else
      var o := Step(s, env, ops[0]);
      [o.receipt] + Receipts(o.state, env, ops[1..])
  }

  /** The messages dispatched along a run, in order. */
  function Sent(rs: seq<Receipt>): seq<Message> {
    if rs == [] then []
    else if SentMessage(rs[0]).Some? then [SentMessage(rs[0]).value] + Sent(rs[1..])
    else Sent(rs[1..])
  }

  /** The local domain and address prefix are fixed for the life of the
      contract: no sequence of calls changes them. */
  lemma {:induction false} DomainIsFixed(s: MailboxState, env: Env, ops: seq<MailboxOp>)
    ensures Final(s, env, ops).config.localDomain == s.config.localDomain
    ensures Final(s, env, ops).config.hrp == s.config.hrp
    decreases |ops|
  {
    if ops != [] {
      DomainIsFixed(Step(s, env, ops[0]).state, env, ops[1..]);
    }
  }

  /** The delivery ledger is append-only: every entry survives every
      sequence of calls unchanged. */
  lemma {:induction false} LedgerOnlyGrows(s: MailboxState, env: Env, ops: seq<MailboxOp>)
    ensures s.deliveries.Keys <= Final(s, env, ops).deliveries.Keys
    ensures forall id | id in s.deliveries :: Final(s, env, ops).deliveries[id] == s.deliveries[id]
    decreases |ops|
  {
    if ops != [] {
      LedgerOnlyGrows(Step(s, env, ops[0]).state, env, ops[1..]);
    }
  }

  /** The messages dispatched along a run carry consecutive nonces from the
      starting one and the local domain; the nonce ends up counting them and
      the latest id is the id of the last of them. */
  lemma {:induction false} NonceCountsDispatches(s: MailboxState, env: Env, ops: seq<MailboxOp>)
    ensures var sent := Sent(Receipts(s, env, ops));
            (forall i | 0 <= i < |sent| ::
               sent[i].nonce as int == s.nonce as int + i && sent[i].originDomain == s.config.localDomain)
            && Final(s, env, ops).nonce as int == s.nonce as int + |sent|
            && Final(s, env, ops).latestDispatchedId ==
                 (if sent == [] then s.latestDispatchedId else Some(env.codec.id(sent[|sent| - 1])))
    decreases |ops|
  {
    if ops != [] {
      var o := Step(s, env, ops[0]);
      NonceCountsDispatches(o.state, env, ops[1..]);
      DomainIsFixed(o.state, env, ops[1..]);
      assert Receipts(s, env, ops) == [o.receipt] + Receipts(o.state, env, ops[1..]);
      assert ([o.receipt] + Receipts(o.state, env, ops[1..]))[1..] == Receipts(o.state, env, ops[1..]);
    }
  }

  /** Every id handed to a recipient along a run was absent from the
      ledger the run started with, and is present at its end. */
  lemma {:induction false} DeliveredWereFresh(s: MailboxState, env: Env, ops: seq<MailboxOp>, j: nat)
    requires j < |ops|
    requires DeliveredId(Receipts(s, env, ops)[j]).Some?
    ensures DeliveredId(Receipts(s, env, ops)[j]).value !in s.deliveries
    ensures DeliveredId(Receipts(s, env, ops)[j]).value in Final(s, env, ops).deliveries
    decreases |ops|
  {
    var o := Step(s, env, ops[0]);
    if j == 0 {
      LedgerOnlyGrows(o.state, env, ops[1..]);
    } else {
      DeliveredWereFresh(o.state, env, ops[1..], j - 1);
    }
  }

  /** No message id is handed to a recipient twice, whatever calls come in
      between and whatever the ISMs answer. */
  lemma {:induction false} DeliveredAtMostOnce(s: MailboxState, env: Env, ops: seq<MailboxOp>, i: nat, j: nat)
    requires i < j < |ops|
    requires DeliveredId(Receipts(s, env, ops)[i]).Some?
    ensures DeliveredId(Receipts(s, env, ops)[j]) != DeliveredId(Receipts(s, env, ops)[i])
    decreases |ops|
  {
    var o := Step(s, env, ops[0]);
    var rest := Receipts(o.state, env, ops[1..]);
    if i == 0 {
      if DeliveredId(rest[j - 1]).Some? {
        DeliveredWereFresh(o.state, env, ops[1..], j - 1);
      }
    } else {
      DeliveredAtMostOnce(o.state, env, ops[1..], i - 1, j - 1);
    }
  }
}
