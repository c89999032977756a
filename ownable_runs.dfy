/** Any sequence of calls to the three transfer handlers, and what holds of
    the storage along it: the owner only ever passes to an address that an
    owner nominated, and the handlers do nothing before `initialize`. */
module OwnableRuns {
  import opened CwTypes
  import opened Ownable

  /** The handler calls that `handle` routes to (lib.rs:35-49). */
  datatype OwnableOp =
    | InitTransfer(sender: Addr, nextOwner: Addr)
    | RevokeTransfer(sender: Addr)
    | Claim(sender: Addr)

  function Apply(s: OwnableState, op: OwnableOp): (t: Transition)
    // a failing call leaves both items untouched
    ensures t.result.Err? ==> t.state == s
    // the owner changes only through a successful claim, and only to the pending address
    ensures t.state.owner != s.owner ==> op.Claim? && t.result.Ok? && t.state.owner == s.pending
    // a pending owner appears only through a successful nomination by the owner
    ensures t.state.pending.Some? && t.state.pending != s.pending ==>
              op.InitTransfer? && s.owner == Some(op.sender) && t.state.pending == Some(op.nextOwner)
  {
    match op
    case InitTransfer(sender, next) => InitOwnershipTransfer(s, sender, next)
    case RevokeTransfer(sender) => RevokeOwnershipTransfer(s, sender)
    case Claim(sender) => ClaimOwnership(s, sender)
  }

  /** The storage after the calls `ops`, one after the other. */
  function Run(s: OwnableState, ops: seq<OwnableOp>): OwnableState
    decreases |ops|
  {
    if ops == [] then s else Run(Apply(s, ops[0]).state, ops[1..])
  }

  /** The addresses that a successful `init_ownership_transfer` nominated
      during the calls `ops`. */
  function Nominated(s: OwnableState, ops: seq<OwnableOp>): set<Addr>
    decreases |ops|
  {
    if ops == [] then {}
    else
      var t := Apply(s, ops[0]);
      var here := if ops[0].InitTransfer? && t.result.Ok? then {ops[0].nextOwner} else {};
      here + Nominated(t.state, ops[1..])
  }

  function AsSet(o: Option<Addr>): set<Addr> {
    if o.Some? then {o.value} else {}
  }

  /** The owner and the pending owner, whichever are stored. */
  function Holders(s: OwnableState): set<Addr> {
    AsSet(s.owner) + AsSet(s.pending)
  }

  /** Whoever owns or is about to own the contract after any sequence of
      calls was already a holder at the start or was nominated on the way. */
  lemma {:induction false} HoldersComeFromNominations(s: OwnableState, ops: seq<OwnableOp>)
    ensures Holders(Run(s, ops)) <= Holders(s) + Nominated(s, ops)
    decreases |ops|
  {
    if ops != [] {
      var t := Apply(s, ops[0]);
      HoldersComeFromNominations(t.state, ops[1..]);
    }
  }

  /** The owner after any sequence of calls is the initial owner, the
      initially pending owner, or an address nominated on the way. */
  lemma OwnerComesFromNominations(s: OwnableState, ops: seq<OwnableOp>)
    requires Run(s, ops).owner.Some?
    ensures Run(s, ops).owner == s.owner || Run(s, ops).owner == s.pending
            || Run(s, ops).owner.value in Nominated(s, ops)
  {
    HoldersComeFromNominations(s, ops);
    assert Run(s, ops).owner.value in Holders(Run(s, ops));
  }

  /** Before `initialize` every transfer call fails: empty storage stays empty. */
  lemma {:induction false} UninitializedIsInert(ops: seq<OwnableOp>)
    ensures forall op :: Apply(EMPTY, op).result.Err?
    ensures Run(EMPTY, ops) == EMPTY
    decreases |ops|
  {
    if ops != [] {
      UninitializedIsInert(ops[1..]);
    }
  }

  /** A contract that has been initialized stays initialized. */
  lemma {:induction false} OwnerNeverLost(s: OwnableState, ops: seq<OwnableOp>)
    requires s.owner.Some?
    ensures GetOwner(Run(s, ops)).Ok?
    decreases |ops|
  {
    if ops != [] {
      OwnerNeverLost(Apply(s, ops[0]).state, ops[1..]);
    }
  }

  /** The last call of `ops` that succeeded, if any. */
  function LastAccepted(s: OwnableState, ops: seq<OwnableOp>): Option<OwnableOp>
    decreases |ops|
  {
    if ops == [] then None
    else
      var t := Apply(s, ops[0]);
      var later := LastAccepted(t.state, ops[1..]);
      if later.Some? then later else if t.result.Ok? then Some(ops[0]) else None
  }

  /** `get_pending_owner` answers `Some(next)` exactly when the last
      successful call was a nomination of `next`, and `None` after a
      successful revoke or claim; with no successful call it answers what
      it answered before. */
  lemma {:induction false} PendingFollowsLastAccepted(s: OwnableState, ops: seq<OwnableOp>)
    ensures GetPendingOwner(Run(s, ops)) ==
              match LastAccepted(s, ops)
              case None => GetPendingOwner(s)
              case Some(InitTransfer(_, next)) => Some(next)
              case Some(_) => None
    decreases |ops|
  {
    if ops != [] {
      PendingFollowsLastAccepted(Apply(s, ops[0]).state, ops[1..]);
    }
  }

  /** A nominee who claims and then nominates the previous owner back: after
      the four calls the roles are swapped back and nothing is pending. With
      `a == b` the owner nominates itself and the same holds. */
  lemma HandOverAndBack(a: Addr, b: Addr)
    ensures var s := OwnableState(Some(a), None);
            var ops := [InitTransfer(a, b), Claim(b), InitTransfer(b, a), Claim(a)];
            Run(s, ops) == s && Nominated(s, ops) == {a, b}
  {
    var s := OwnableState(Some(a), None);
    var ops := [InitTransfer(a, b), Claim(b), InitTransfer(b, a), Claim(a)];
    var s1 := OwnableState(Some(a), Some(b));
    var s2 := OwnableState(Some(b), None);
    var s3 := OwnableState(Some(b), Some(a));
    assert Apply(s, ops[0]).state == s1;
    assert Apply(s1, ops[1]).state == s2;
    assert Apply(s2, ops[2]).state == s3;
    assert Apply(s3, ops[3]).state == s;
    assert ops[1..] == [Claim(b), InitTransfer(b, a), Claim(a)];
    assert ops[1..][1..] == [InitTransfer(b, a), Claim(a)];
    assert ops[1..][1..][1..] == [Claim(a)];
    assert Run(s3, [Claim(a)]) == s && Nominated(s3, [Claim(a)]) == {};
    assert Run(s2, ops[2..]) == s && Nominated(s2, ops[2..]) == {a};
    assert Run(s1, ops[1..]) == s && Nominated(s1, ops[1..]) == {a};
  }
}
