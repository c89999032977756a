/** The situations the mailbox's own tests pin down, stated for every
    collaborator that behaves as the test's mocks do, and the consequence
    of recording a delivery before verification. */
module MailboxScenarios {
  import opened CwTypes
  import opened Mailbox

  const LOCAL_DOMAIN: uint32 := 26657
  const DEST_DOMAIN: uint32 := 11155111

  /** In the storage a failed verification leaves, a relayer cannot
      resubmit the message with other metadata: the id is already in the
      ledger, so the retry is refused as a duplicate (or fails earlier, at
      the ISM lookup), and the first relayer's entry stays. The host's
      rollback of the failed call is not part of this. */
  lemma ResubmitAfterFailedVerify(
    s: MailboxState, codec: Codec, first: Querier, retry: Querier,
    sender: Addr, retrier: Addr, metadata: Bytes, otherMetadata: Bytes, raw: Bytes)
    requires !ProcessPanics(s, codec, first, raw)
    requires Process(s, codec, first, sender, metadata, raw).result == Err(VerifyFailed)
    ensures var s1 := Process(s, codec, first, sender, metadata, raw).state;
            !ProcessPanics(s1, codec, retry, raw)
            && var t := Process(s1, codec, retry, retrier, otherMetadata, raw);
               var m := codec.decode(raw).value;
               t.result.Err? && t.state == s1
               && s1.deliveries[codec.id(m)] == Delivery(sender)
               && (retry.recipientIsm(codec.recipientAddr(m, s.config.hrp).value).Ok? ==>
                     t.result == Err(AlreadyDeliveredMessage))
  {
  }

  /** The dispatch test: with nonce 0 and a 32-byte recipient the message
      is stamped with nonce 0 and the local domain, the nonce becomes 1 and
      the latest id is that message's id; a 33-byte recipient is refused
      with its length and changes nothing. */
  lemma DispatchFromFreshMailbox(
    api: Api, codec: Codec, hrp: string, sender: Addr, recipient: Bytes, body: Bytes, ism: Addr, hook: Addr)
    requires |recipient| == 32 && codec.senderBytes(sender).Ok?
    ensures var s := MailboxState(Config(hrp, LOCAL_DOMAIN, Some(ism), Some(hook)), 0, None, map[]);
            var m := DispatchMsg(DEST_DOMAIN, recipient, body, None, None);
            var t := Dispatch(s, api, codec, sender, [], m);
            var expected := Message(MAILBOX_VERSION, 0, LOCAL_DOMAIN, codec.senderBytes(sender).value,
                                    DEST_DOMAIN, recipient, body);
            t.result.Ok?
            && t.result.value.messages == [PostDispatch(hook, [], expected, [])]
            && t.state.nonce == 1 && t.state.latestDispatchedId == Some(codec.id(expected))
    ensures var s := MailboxState(Config(hrp, LOCAL_DOMAIN, Some(ism), Some(hook)), 0, None, map[]);
            var m := DispatchMsg(DEST_DOMAIN, recipient + [0], body, None, None);
            Dispatch(s, api, codec, sender, [], m) == Transition(Err(InvalidAddressLength(33)), s)
  {
  }

  /** The process tests: a well-formed message for this domain is handed on
      and its ledger entry names the relayer; version 99, a foreign
      destination, an id already delivered and a rejected proof each fail
      with their own error. */
  lemma ProcessCases(codec: Codec, querier: Querier, hrp: string, relayer: Addr, metadata: Bytes, raw: Bytes, ism: Addr, hook: Addr)
    requires codec.decode(raw).Some? && codec.recipientAddr(codec.decode(raw).value, hrp).Ok?
    requires querier.recipientIsm(codec.recipientAddr(codec.decode(raw).value, hrp).value) == Ok(Some(ism))
    ensures var s := MailboxState(Config(hrp, LOCAL_DOMAIN, Some(ism), Some(hook)), 0, None, map[]);
            var m := codec.decode(raw).value;
            var t := Process(s, codec, querier, relayer, metadata, raw);
            (m.version == 99 ==> t.result == Err(InvalidMessageVersion(99)))
            && (m.version == MAILBOX_VERSION && m.destDomain == DEST_DOMAIN ==>
                  t.result == Err(InvalidDestinationDomain(DEST_DOMAIN)))
            && (m.version == MAILBOX_VERSION && m.destDomain == LOCAL_DOMAIN ==>
                  t.state.deliveries == map[codec.id(m) := Delivery(relayer)]
                  && (querier.verify(ism, metadata, raw) == Ok(false) ==> t.result == Err(VerifyFailed))
                  && (querier.verify(ism, metadata, raw) == Ok(true) ==> t.result.Ok?))
    ensures var m := codec.decode(raw).value;
            var s := MailboxState(Config(hrp, LOCAL_DOMAIN, Some(ism), Some(hook)), 0, None,
                                  map[codec.id(m) := Delivery(relayer)]);
            m.version == MAILBOX_VERSION && m.destDomain == LOCAL_DOMAIN ==>
              Process(s, codec, querier, relayer, metadata, raw).result == Err(AlreadyDeliveredMessage)
  {
  }

  /** The setter tests: the owner sets the default ISM and hook, anyone
      else is refused and the config stays as it was. */
  lemma SettersAreOwnerOnly(s: MailboxState, api: Api, owner: Addr, other: Addr, ism: string, hook: string)
    requires owner != other && api.addrValidate(ism).Ok? && api.addrValidate(hook).Ok?
    ensures SetDefaultIsm(s, Ok(owner), api, owner, ism).state.config.defaultIsm == Some(api.addrValidate(ism).value)
    ensures SetDefaultIsm(s, Ok(owner), api, other, ism) == Transition(Err(Unauthorized), s)
    ensures SetDefaultHook(s, Ok(owner), api, owner, hook).state.config.defaultHook == Some(api.addrValidate(hook).value)
    ensures SetDefaultHook(s, Ok(owner), api, other, hook) == Transition(Err(Unauthorized), s)
  {
  }
}
