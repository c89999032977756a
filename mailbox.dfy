/** The execute handlers of the mailbox (contracts/core/mailbox/src/execute.rs):
    the owner-gated setters of the default ISM and hook, the outbound
    `dispatch` and the inbound `process`. Each handler is a function from the
    storage it finds to the result it returns and the storage it leaves
    behind; the collaborators it calls are passed in as functions. */
module Mailbox {
  import opened CwTypes

  /** `MAILBOX_VERSION`: the message format version the mailbox speaks. */
  const MAILBOX_VERSION: uint8 := 3

  /** The longest recipient address `dispatch` accepts, in bytes. */
  const MAX_RECIPIENT_LEN := 32

  datatype Message = Message(
    version: uint8,
    nonce: uint32,
    originDomain: uint32,
    sender: Bytes,
    destDomain: uint32,
    recipient: Bytes,
    body: Bytes)

  /** What a caller asks `dispatch` to send, with an optional hook override
      and hook metadata. */
  datatype DispatchMsg = DispatchMsg(
    destDomain: uint32,
    recipientAddr: Bytes,
    msgBody: Bytes,
    hook: Option<string>,
    metadata: Option<Bytes>)

  datatype Config = Config(
    hrp: string,
    localDomain: uint32,
    defaultIsm: Option<Addr>,
    defaultHook: Option<Addr>)

  /** The ledger entry of a processed message: who relayed it. */
  datatype Delivery = Delivery(sender: Addr)

  /** The storage items `CONFIG`, `NONCE`, `LATEST_DISPATCHED_ID` (absent
      until the first dispatch) and the map `DELIVERIES`, keyed by message id. */
  datatype MailboxState = MailboxState(
    config: Config,
    nonce: uint32,
    latestDispatchedId: Option<Bytes>,
    deliveries: map<Bytes, Delivery>)

  datatype ContractError =
    | Std(err: StdError)
    | Unauthorized
    | InvalidAddressLength(len: nat)
    | InvalidMessageVersion(version: uint8)
    | InvalidDestinationDomain(domain: uint32)
    | AlreadyDeliveredMessage
    | VerifyFailed

  /** A contract call the response asks the host to run once the handler
      has returned: the hook's `post_dispatch`, or the recipient's `handle`. */
  datatype OutboundCall =
    | PostDispatch(hook: Addr, metadata: Bytes, message: Message, funds: seq<Coin>)
    | Handle(recipient: Addr, origin: uint32, sender: Bytes, body: Bytes)

  /** The events the handlers emit, with the values they are built from. */
  datatype MailboxEvent =
    | DefaultIsmSet(owner: Addr, ism: Addr)
    | DefaultHookSet(owner: Addr, hook: Addr)
    | DispatchId(id: Bytes)
    | Dispatched(message: Message)
    | ProcessId(id: Bytes)
    | Processed(domain: uint32, sender: Bytes, recipient: Bytes)

  /** A successful response; `data` is the message id of `DispatchResponse`. */
  datatype Response = Response(messages: seq<OutboundCall>, events: seq<MailboxEvent>, data: Option<Bytes>)

  datatype Transition = Transition(result: Result<Response, ContractError>, state: MailboxState)

  /** `deps.api`: turns a human-readable address into a validated one, or fails. */
  datatype Api = Api(addrValidate: string -> Result<Addr, StdError>)

  /** The message functions of the interface crate. `decode` is the
      conversion from raw bytes, `None` where it panics; `id` is the
      message digest; `senderBytes` is the fixed-width sender `to_msg`
      derives from the caller's address; `recipientAddr` turns a message's
      recipient into a local address under the given prefix. */
  datatype Codec = Codec(
    decode: Bytes -> Option<Message>,
    id: Message -> Bytes,
    senderBytes: Addr -> Result<Bytes, StdError>,
    recipientAddr: (Message, string) -> Result<Addr, StdError>)

  /** The ISM queries: the module a recipient names for itself, and the
      verdict of a module on metadata and a raw message. */
  datatype Querier = Querier(
    recipientIsm: Addr -> Result<Option<Addr>, StdError>,
    verify: (Addr, Bytes, Bytes) -> Result<bool, StdError>)

  /** Owner-gated overwrite of `default_ism`. `owner` is what `get_owner`
      returned for the caller's storage. */
  function SetDefaultIsm(s: MailboxState, owner: Result<Addr, StdError>, api: Api, sender: Addr, newDefaultIsm: string): (t: Transition)
    // the owner check comes first, before the address is looked at
    ensures owner.Err? ==> t.result == Err(Std(owner.error))
    ensures owner.Ok? && owner.value != sender ==> t.result == Err(Unauthorized)
    // then a rejected address comes back as the validator's error
    ensures owner == Ok(sender) && api.addrValidate(newDefaultIsm).Err? ==>
              t.result == Err(Std(api.addrValidate(newDefaultIsm).error))
    ensures t.result.Ok? <==> owner == Ok(sender) && api.addrValidate(newDefaultIsm).Ok?
    ensures t.result.Err? ==> t.state == s
    // on success exactly one field of the config changes
    ensures t.result.Ok? ==>
              var ism := api.addrValidate(newDefaultIsm).value;
              t.state.config.defaultIsm == Some(ism)
              && t.state.config.(defaultIsm := s.config.defaultIsm) == s.config
              && t.state.(config := s.config) == s
              && t.result.value == Response([], [DefaultIsmSet(sender, ism)], None)
  {
    match owner
    case Err(e) => Transition(Err(Std(e)), s)
    case Ok(o) =>
      if o != sender then Transition(Err(Unauthorized), s)
      else match api.addrValidate(newDefaultIsm)
        case Err(e) => Transition(Err(Std(e)), s)
        case Ok(ism) =>
          Transition(Ok(Response([], [DefaultIsmSet(sender, ism)], None)),
                     s.(config := s.config.(defaultIsm := Some(ism))))
  }

  /** Owner-gated overwrite of `default_hook`, in the same order as
      `SetDefaultIsm`. */
  function SetDefaultHook(s: MailboxState, owner: Result<Addr, StdError>, api: Api, sender: Addr, newDefaultHook: string): (t: Transition)
    ensures owner.Err? ==> t.result == Err(Std(owner.error))
    ensures owner.Ok? && owner.value != sender ==> t.result == Err(Unauthorized)
    ensures owner == Ok(sender) && api.addrValidate(newDefaultHook).Err? ==>
              t.result == Err(Std(api.addrValidate(newDefaultHook).error))
    ensures t.result.Ok? <==> owner == Ok(sender) && api.addrValidate(newDefaultHook).Ok?
    ensures t.result.Err? ==> t.state == s
    ensures t.result.Ok? ==>
              var hook := api.addrValidate(newDefaultHook).value;
              t.state.config.defaultHook == Some(hook)
              && t.state.config.(defaultHook := s.config.defaultHook) == s.config
              && t.state.(config := s.config) == s
              && t.result.value == Response([], [DefaultHookSet(sender, hook)], None)
  {
    match owner
    case Err(e) => Transition(Err(Std(e)), s)
    case Ok(o) =>
      if o != sender then Transition(Err(Unauthorized), s)
      else match api.addrValidate(newDefaultHook)
        case Err(e) => Transition(Err(Std(e)), s)
        case Ok(hook) =>
          Transition(Ok(Response([], [DefaultHookSet(sender, hook)], None)),
                     s.(config := s.config.(defaultHook := Some(hook))))
  }

  /** `DispatchMsg::get_hook_addr`: the hook named in the request, validated,
      or else the configured default (which may be absent). */
  function HookAddr(api: Api, hook: Option<string>, defaultHook: Option<Addr>): Result<Option<Addr>, StdError> {
    match hook
    case None => Ok(defaultHook)
    case Some(h) =>
      match api.addrValidate(h)
      case Err(e) => Err(e)
      case Ok(a) => Ok(Some(a))
  }

  /** `DispatchMsg::to_msg`: the message a dispatch request becomes. */
  function ToMsg(m: DispatchMsg, nonce: uint32, originDomain: uint32, sender: Bytes): Message {
    Message(MAILBOX_VERSION, nonce, originDomain, sender, m.destDomain, m.recipientAddr, m.msgBody)
  }

  /** The inputs on which `dispatch` panics instead of returning: no hook
      resolves (`expect("default_hook not set")`), or the nonce cannot be
      incremented. Both are reached only after the length check. */
  predicate DispatchPanics(s: MailboxState, api: Api, codec: Codec, sender: Addr, m: DispatchMsg) {
    |m.recipientAddr| <= MAX_RECIPIENT_LEN &&
    match HookAddr(api, m.hook, s.config.defaultHook)
    case Err(_) => false
    case Ok(None) => true
    case Ok(Some(_)) => codec.senderBytes(sender).Ok? && s.nonce == UINT32_MAX
  }

  /** The outbound path: stamp the request with the current nonce and the
      local domain, advance the nonce, remember the id and ask the hook to
      post-process the message. */
  function Dispatch(s: MailboxState, api: Api, codec: Codec, sender: Addr, funds: seq<Coin>, m: DispatchMsg): (t: Transition)
    requires !DispatchPanics(s, api, codec, sender, m)
    // over-long recipients are refused, 32 bytes are not
    ensures |m.recipientAddr| > MAX_RECIPIENT_LEN ==> t.result == Err(InvalidAddressLength(|m.recipientAddr|))
    // then the hook is resolved, and only then is the sender converted
    ensures (|m.recipientAddr| <= MAX_RECIPIENT_LEN && HookAddr(api, m.hook, s.config.defaultHook).Err?) ==>
              t.result == Err(Std(HookAddr(api, m.hook, s.config.defaultHook).error))
    ensures (|m.recipientAddr| <= MAX_RECIPIENT_LEN && HookAddr(api, m.hook, s.config.defaultHook).Ok?
             && codec.senderBytes(sender).Err?) ==>
              t.result == Err(Std(codec.senderBytes(sender).error))
    ensures t.result.Ok? <==>
              |m.recipientAddr| <= MAX_RECIPIENT_LEN
              && HookAddr(api, m.hook, s.config.defaultHook).Ok?
              && codec.senderBytes(sender).Ok?
    ensures t.result.Err? ==> t.state == s
    // exactly one outbound call, to the override hook if given, else to the default
    ensures t.result.Ok? ==>
              |t.result.value.messages| == 1 && t.result.value.messages[0].PostDispatch?
              && t.result.value.messages[0].hook ==
                   (if m.hook.Some? then api.addrValidate(m.hook.value).value else s.config.defaultHook.value)
              && t.result.value.messages[0].metadata == (if m.metadata.Some? then m.metadata.value else [])
              && t.result.value.messages[0].funds == funds
    // the message carries the current nonce and the local domain, and its id is recorded and returned
    ensures t.result.Ok? ==>
              var msg := t.result.value.messages[0].message;
              msg.version == MAILBOX_VERSION && msg.nonce == s.nonce && msg.originDomain == s.config.localDomain
              && msg.sender == codec.senderBytes(sender).value
              && msg.destDomain == m.destDomain && msg.recipient == m.recipientAddr && msg.body == m.msgBody
              && t.state == s.(nonce := s.nonce + 1, latestDispatchedId := Some(codec.id(msg)))
              && t.result.value.data == Some(codec.id(msg))
              && t.result.value.events == [DispatchId(codec.id(msg)), Dispatched(msg)]
  {
    if |m.recipientAddr| > MAX_RECIPIENT_LEN then
      Transition(Err(InvalidAddressLength(|m.recipientAddr|)), s)
    else match HookAddr(api, m.hook, s.config.defaultHook)
      case Err(e) => Transition(Err(Std(e)), s)
      case Ok(hook) =>
        match codec.senderBytes(sender)
        case Err(e) => Transition(Err(Std(e)), s)
        case Ok(senderBytes) =>
          var msg := ToMsg(m, s.nonce, s.config.localDomain, senderBytes);
          var id := codec.id(msg);
          var metadata := if m.metadata.Some? then m.metadata.value else [];
          Transition(Ok(Response([PostDispatch(hook.value, metadata, msg, funds)], [DispatchId(id), Dispatched(msg)], Some(id))),
                     s.(nonce := s.nonce + 1, latestDispatchedId := Some(id)))
  }

  /** The inputs on which `process` panics instead of returning: the raw
      bytes do not convert to a message, or no default ISM is configured
      once the recipient's own ISM has been asked for (`unwrap_or` evaluates
      `get_default_ism()` whatever the recipient answered, and that lookup
      is taken to panic when no default is set). */
  predicate ProcessPanics(s: MailboxState, codec: Codec, querier: Querier, raw: Bytes) {
    match codec.decode(raw)
    case None => true
    case Some(m) =>
      match codec.recipientAddr(m, s.config.hrp)
      case Err(_) => false
      case Ok(recipient) =>
        m.version == MAILBOX_VERSION && m.destDomain == s.config.localDomain
        && querier.recipientIsm(recipient).Ok? && s.config.defaultIsm.None?
  }

  /** `process` gets past every check before the ledger write: the
      recipient converts, version and domain match, the ISM lookup answers
      and the id has not been delivered. */
  predicate Admitted(s: MailboxState, codec: Codec, querier: Querier, raw: Bytes)
    requires codec.decode(raw).Some?
  {
    var m := codec.decode(raw).value;
    var recipient := codec.recipientAddr(m, s.config.hrp);
    recipient.Ok? && m.version == MAILBOX_VERSION && m.destDomain == s.config.localDomain
    && querier.recipientIsm(recipient.value).Ok? && codec.id(m) !in s.deliveries
  }

  /** The ISM that verifies a message: the recipient's own if it names one,
      else the default. */
  function ResolveIsm(specified: Option<Addr>, defaultIsm: Addr): (ism: Addr)
    ensures specified.Some? ==> ism == specified.value
    ensures specified.None? ==> ism == defaultIsm
  {
    if specified.Some? then specified.value else defaultIsm
  }

  /** The inbound path: decode, check, resolve the ISM, refuse a delivered
      id, record the delivery, verify, then hand the payload to the recipient. */
  function Process(s: MailboxState, codec: Codec, querier: Querier, sender: Addr, metadata: Bytes, raw: Bytes): (t: Transition)
    requires !ProcessPanics(s, codec, querier, raw)
    // only the ledger can change, and only by the entry for this message, made by the caller
    ensures t.state.(deliveries := s.deliveries) == s
    ensures var id := codec.id(codec.decode(raw).value);
            t.state.deliveries == s.deliveries
            || (id !in s.deliveries && t.state.deliveries == s.deliveries[id := Delivery(sender)])
    // version, then domain, are checked before the ledger is read or written
    ensures var m := codec.decode(raw).value;
            codec.recipientAddr(m, s.config.hrp).Ok? && m.version != MAILBOX_VERSION ==>
              t == Transition(Err(InvalidMessageVersion(m.version)), s)
    ensures var m := codec.decode(raw).value;
            codec.recipientAddr(m, s.config.hrp).Ok? && m.version == MAILBOX_VERSION
            && m.destDomain != s.config.localDomain ==>
              t == Transition(Err(InvalidDestinationDomain(m.destDomain)), s)
    // a recipient that does not convert is reported before anything else is checked
    ensures var m := codec.decode(raw).value;
            codec.recipientAddr(m, s.config.hrp).Err? ==>
              t == Transition(Err(Std(codec.recipientAddr(m, s.config.hrp).error)), s)
    // a failed ISM lookup is reported before the ledger is read, even for a delivered id
    ensures var m := codec.decode(raw).value;
            var recipient := codec.recipientAddr(m, s.config.hrp);
            recipient.Ok? && m.version == MAILBOX_VERSION && m.destDomain == s.config.localDomain
            && querier.recipientIsm(recipient.value).Err? ==>
              t == Transition(Err(Std(querier.recipientIsm(recipient.value).error)), s)
    // a delivered id is refused, but only after the ISM lookup has answered
    ensures var m := codec.decode(raw).value;
            var recipient := codec.recipientAddr(m, s.config.hrp);
            recipient.Ok? && m.version == MAILBOX_VERSION && m.destDomain == s.config.localDomain
            && querier.recipientIsm(recipient.value).Ok? && codec.id(m) in s.deliveries ==>
              t == Transition(Err(AlreadyDeliveredMessage), s)
    // the delivery is recorded before verification, so it is there whatever the verdict
    ensures t.state.deliveries != s.deliveries <==> Admitted(s, codec, querier, raw)
    ensures t.result.Ok? <==>
              Admitted(s, codec, querier, raw)
              && var m := codec.decode(raw).value;
                 var recipient := codec.recipientAddr(m, s.config.hrp).value;
                 var ism := ResolveIsm(querier.recipientIsm(recipient).value, s.config.defaultIsm.value);
                 querier.verify(ism, metadata, raw) == Ok(true)
    // once admitted, the entry stays whatever the verdict: a rejected proof and a failed query are errors
    ensures Admitted(s, codec, querier, raw) ==>
              var m := codec.decode(raw).value;
              var recipient := codec.recipientAddr(m, s.config.hrp).value;
              var ism := ResolveIsm(querier.recipientIsm(recipient).value, s.config.defaultIsm.value);
              var recorded := s.(deliveries := s.deliveries[codec.id(m) := Delivery(sender)]);
              match querier.verify(ism, metadata, raw)
              case Err(e) => t == Transition(Err(Std(e)), recorded)
              case Ok(false) => t == Transition(Err(VerifyFailed), recorded)
              case Ok(true) => t.state == recorded && t.result.Ok?
    // the recipient receives origin, sender and body of the decoded message
    ensures t.result.Ok? ==>
              var m := codec.decode(raw).value;
              var recipient := codec.recipientAddr(m, s.config.hrp).value;
              t.result.value.messages == [Handle(recipient, m.originDomain, m.sender, m.body)]
              && t.result.value.events == [ProcessId(codec.id(m)), Processed(s.config.localDomain, m.sender, m.recipient)]
              && t.result.value.data == None
  {
    var m := codec.decode(raw).value;
    match codec.recipientAddr(m, s.config.hrp)
    case Err(e) => Transition(Err(Std(e)), s)
    case Ok(recipient) =>
      if m.version != MAILBOX_VERSION then Transition(Err(InvalidMessageVersion(m.version)), s)
      else if m.destDomain != s.config.localDomain then Transition(Err(InvalidDestinationDomain(m.destDomain)), s)
      else
        var id := codec.id(m);
        match querier.recipientIsm(recipient)
        case Err(e) => Transition(Err(Std(e)), s)
        case Ok(specified) =>
          var ism := ResolveIsm(specified, s.config.defaultIsm.value);
          if id in s.deliveries then Transition(Err(AlreadyDeliveredMessage), s)
          else
            var recorded := s.(deliveries := s.deliveries[id := Delivery(sender)]);
            match querier.verify(ism, metadata, raw)
            case Err(e) => Transition(Err(Std(e)), recorded)
            case Ok(false) => Transition(Err(VerifyFailed), recorded)
            case Ok(true) =>
              Transition(Ok(Response([Handle(recipient, m.originDomain, m.sender, m.body)],
                                     [ProcessId(id), Processed(s.config.localDomain, m.sender, m.recipient)],
                                     None)),
                         recorded)
  }
}

/** The mailbox's storage as an object whose handlers update `CONFIG`,
    `NONCE`, `LATEST_DISPATCHED_ID` and `DELIVERIES` in place. The ownership
    items live in a separate object that the setters only read. */
module MailboxStorage {
  import opened CwTypes
  import opened Mailbox
  import Ownable
  import OwnableStorage

  class MailboxContract {
    var config: Config
    var nonce: uint32
    var latestDispatchedId: Option<Bytes>
    var deliveries: map<Bytes, Delivery>
    const ownership: OwnableStorage.Ownership

    function State(): MailboxState
      reads this
    {
      MailboxState(config, nonce, latestDispatchedId, deliveries)
    }

    /** `get_owner` on the contract's storage. */
    function Owner(): Result<Addr, StdError>
      reads ownership
    {
      Ownable.GetOwner(ownership.State())
    }

    /** Storage as instantiation left it. */
    constructor (initial: MailboxState, ownership: OwnableStorage.Ownership)
      ensures State() == initial && this.ownership == ownership
    {
      config := initial.config;
      nonce := initial.nonce;
      latestDispatchedId := initial.latestDispatchedId;
      deliveries := initial.deliveries;
      this.ownership := ownership;
    }

    method SetDefaultIsm(api: Api, sender: Addr, newDefaultIsm: string) returns (r: Result<Response, ContractError>)
      modifies this
      ensures Transition(r, State()) == Mailbox.SetDefaultIsm(old(State()), Owner(), api, sender, newDefaultIsm)
      ensures r.Ok? ==> Owner() == Ok(sender) && nonce == old(nonce) && deliveries == old(deliveries)
    {
      var owner := Owner();
      if owner.Err? {
        return Err(Std(owner.error));
      }
      if owner.value != sender {
        return Err(Unauthorized);
      }
      var ism := api.addrValidate(newDefaultIsm);
      if ism.Err? {
        return Err(Std(ism.error));
      }
      config := config.(defaultIsm := Some(ism.value));
      r := Ok(Response([], [DefaultIsmSet(sender, ism.value)], None));
    }

    method SetDefaultHook(api: Api, sender: Addr, newDefaultHook: string) returns (r: Result<Response, ContractError>)
      modifies this
      ensures Transition(r, State()) == Mailbox.SetDefaultHook(old(State()), Owner(), api, sender, newDefaultHook)
      ensures r.Ok? ==> Owner() == Ok(sender) && nonce == old(nonce) && deliveries == old(deliveries)
    {
      var owner := Owner();
      if owner.Err? {
        return Err(Std(owner.error));
      }
      if owner.value != sender {
        return Err(Unauthorized);
      }
      var hook := api.addrValidate(newDefaultHook);
      if hook.Err? {
        return Err(Std(hook.error));
      }
      config := config.(defaultHook := Some(hook.value));
      r := Ok(Response([], [DefaultHookSet(sender, hook.value)], None));
    }

    method Dispatch(api: Api, codec: Codec, sender: Addr, funds: seq<Coin>, m: DispatchMsg)
      returns (r: Result<Response, ContractError>)
      requires !DispatchPanics(State(), api, codec, sender, m)
      modifies this
      ensures Transition(r, State()) == Mailbox.Dispatch(old(State()), api, codec, sender, funds, m)
      ensures r.Ok? ==> nonce == old(nonce) + 1 && latestDispatchedId == r.value.data
    {
      var current := nonce;
      if |m.recipientAddr| > MAX_RECIPIENT_LEN {
        return Err(InvalidAddressLength(|m.recipientAddr|));
      }
      var hook := HookAddr(api, m.hook, config.defaultHook);
      if hook.Err? {
        return Err(Std(hook.error));
      }
      var senderBytes := codec.senderBytes(sender);
      if senderBytes.Err? {
        return Err(Std(senderBytes.error));
      }
      var msg := ToMsg(m, current, config.localDomain, senderBytes.value);
      var id := codec.id(msg);
      nonce := current + 1;
      latestDispatchedId := Some(id);
      var metadata := if m.metadata.Some? then m.metadata.value else [];
      r := Ok(Response([PostDispatch(hook.value.value, metadata, msg, funds)], [DispatchId(id), Dispatched(msg)], Some(id)));
    }

    method Process(codec: Codec, querier: Querier, sender: Addr, metadata: Bytes, raw: Bytes)
      returns (r: Result<Response, ContractError>)
      requires !ProcessPanics(State(), codec, querier, raw)
      modifies this
      ensures Transition(r, State()) == Mailbox.Process(old(State()), codec, querier, sender, metadata, raw)
      ensures forall id :: id in old(deliveries) ==> id in deliveries && deliveries[id] == old(deliveries)[id]
    {
      var m := codec.decode(raw).value;
      var recipient := codec.recipientAddr(m, config.hrp);
      if recipient.Err? {
        return Err(Std(recipient.error));
      }
      if m.version != MAILBOX_VERSION {
        return Err(InvalidMessageVersion(m.version));
      }
      if m.destDomain != config.localDomain {
        return Err(InvalidDestinationDomain(m.destDomain));
      }
      var id := codec.id(m);
      var specified := querier.recipientIsm(recipient.value);
      if specified.Err? {
        return Err(Std(specified.error));
      }
      var ism := ResolveIsm(specified.value, config.defaultIsm.value);
      if id in deliveries {
        return Err(AlreadyDeliveredMessage);
      }
      deliveries := deliveries[id := Delivery(sender)];
      var verified := querier.verify(ism, metadata, raw);
      if verified.Err? {
        return Err(Std(verified.error));
      }
      if !verified.value {
        return Err(VerifyFailed);
      }
      r := Ok(Response([Handle(recipient.value, m.originDomain, m.sender, m.body)],
                       [ProcessId(id), Processed(config.localDomain, m.sender, m.recipient)],
                       None));
    }
  }
}
