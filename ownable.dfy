/** Two-phase ownership transfer (packages/ownable/src/lib.rs): the owner
    proposes a successor, and the successor has to claim before anything
    changes hands. Each handler is a function from the storage it finds to
    the result it returns and the storage it leaves behind. */
module Ownable {
  import opened CwTypes

  /** The storage items `OWNER` and `PENDING_OWNER`; `None` is an item that
      is absent from storage. */
  datatype OwnableState = OwnableState(owner: Option<Addr>, pending: Option<Addr>)

  /** What a handler returns, with the storage it leaves behind. */
  datatype Transition = Transition(result: Result<Event, StdError>, state: OwnableState)

  /** The type name `Item::load` reports when `OWNER` was never saved. */
  const ADDR_TYPE_NAME := "cosmwasm_std::addresses::Addr"

  const UNAUTHORIZED := GenericErr("unauthorized")
  const TRANSFERRING := GenericErr("ownership is transferring")
  const NOT_TRANSFERRING := GenericErr("ownership is not transferring")

  /** The empty storage of a contract that has not run `initialize`. */
  const EMPTY := OwnableState(None, None)

  /** Events of this package carry its name as a prefix. */
  const EVENT_PREFIX := "hpl_ownable::"

  function NewEvent(name: string, attributes: seq<Attribute>): (e: Event)
    // the type is the package prefix followed by the name, which can be read back from it
    ensures |e.ty| == |EVENT_PREFIX| + |name|
    ensures e.ty[..|EVENT_PREFIX|] == EVENT_PREFIX && e.ty[|EVENT_PREFIX|..] == name
    ensures e.attributes == attributes
  {
    Event(EVENT_PREFIX + name, attributes)
  }

  /** `get_owner`: fails exactly when `initialize` never stored an owner. */
  function GetOwner(s: OwnableState): (r: Result<Addr, StdError>)
    ensures r.Ok? <==> s.owner.Some?
    ensures r.Ok? ==> r.value == s.owner.value
    ensures r.Err? ==> r.error == NotFound(ADDR_TYPE_NAME)
  {
    match s.owner
    case Some(o) => Ok(o)
    case None => Err(NotFound(ADDR_TYPE_NAME))
  }

  /** `get_pending_owner`: `may_load` of `PENDING_OWNER`, which cannot fail. */
  function GetPendingOwner(s: OwnableState): (r: Option<Addr>)
    ensures r.Some? <==> s.pending.Some?
    ensures r.Some? ==> r.value == s.pending.value
  {
    s.pending
  }

  /** `initialize`: stores the owner without any check; a pending transfer,
      if there is one, is left alone. */
  function Initialize(s: OwnableState, owner: Addr): (t: OwnableState)
    ensures GetOwner(t) == Ok(owner)
    ensures GetPendingOwner(t) == GetPendingOwner(s)
  {
    s.(owner := Some(owner))
  }

  /** `init_ownership_transfer`: the owner nominates `nextOwner`. */
  function InitOwnershipTransfer(s: OwnableState, sender: Addr, nextOwner: Addr): (t: Transition)
    // the owner is loaded and compared first, even while a transfer is pending
    ensures s.owner.None? ==> t.result == Err(NotFound(ADDR_TYPE_NAME))
    ensures s.owner.Some? && s.owner.value != sender ==> t.result == Err(UNAUTHORIZED)
    ensures s.owner == Some(sender) && s.pending.Some? ==> t.result == Err(TRANSFERRING)
    ensures t.result.Ok? <==> s.owner == Some(sender) && s.pending.None?
    // a failure writes nothing; a success only nominates
    ensures t.result.Err? ==> t.state == s
    ensures t.result.Ok? ==> t.state.owner == s.owner && GetPendingOwner(t.state) == Some(nextOwner)
    ensures t.result.Ok? ==>
              t.result.value.attributes == [Attribute("owner", sender), Attribute("next_owner", nextOwner)]
  {
    match GetOwner(s)
    case Err(e) => Transition(Err(e), s)
    case Ok(owner) =>
      if sender != owner then Transition(Err(UNAUTHORIZED), s)
      else if s.pending.Some? then Transition(Err(TRANSFERRING), s)
      else
        var event := NewEvent("init", [Attribute("owner", sender), Attribute("next_owner", nextOwner)]);
        Transition(Ok(event), s.(pending := Some(nextOwner)))
  }

  /** `revoke_ownership_transfer`: the owner withdraws the nomination. */
  function RevokeOwnershipTransfer(s: OwnableState, sender: Addr): (t: Transition)
    // the caller is checked before the pending transfer
    ensures s.owner.None? ==> t.result == Err(NotFound(ADDR_TYPE_NAME))
    ensures s.owner.Some? && s.owner.value != sender ==> t.result == Err(UNAUTHORIZED)
    ensures s.owner == Some(sender) && s.pending.None? ==> t.result == Err(NOT_TRANSFERRING)
    ensures t.result.Ok? <==> s.owner == Some(sender) && s.pending.Some?
    ensures t.result.Err? ==> t.state == s
    ensures t.result.Ok? ==> t.state.owner == s.owner && GetPendingOwner(t.state) == None
  {
    match GetOwner(s)
    case Err(e) => Transition(Err(e), s)
    case Ok(owner) =>
      if sender != owner then Transition(Err(UNAUTHORIZED), s)
      else if s.pending.None? then Transition(Err(NOT_TRANSFERRING), s)
      else Transition(Ok(NewEvent("revoke", [Attribute("owner", sender)])), s.(pending := None))
  }

  /** `claim_ownership`: the nominee takes over. The current owner is never
      loaded here. */
  function ClaimOwnership(s: OwnableState, sender: Addr): (t: Transition)
    // the pending transfer is checked before the caller
    ensures s.pending.None? ==> t.result == Err(NOT_TRANSFERRING)
    ensures s.pending.Some? && s.pending.value != sender ==> t.result == Err(UNAUTHORIZED)
    ensures t.result.Ok? <==> s.pending == Some(sender)
    ensures t.result.Err? ==> t.state == s
    ensures t.result.Ok? ==> GetOwner(t.state) == Ok(sender) && GetPendingOwner(t.state) == None
  {
    if s.pending.None? then Transition(Err(NOT_TRANSFERRING), s)
    else if sender != s.pending.value then Transition(Err(UNAUTHORIZED), s)
    else Transition(Ok(NewEvent("claim", [Attribute("owner", sender)])), OwnableState(Some(sender), None))
  }
}

/** The storage of the ownable package as an object whose handlers update
    `OWNER` and `PENDING_OWNER` in place. */
module OwnableStorage {
  import opened CwTypes
  import Ownable

  class Ownership {
    var owner: Option<Addr>
    var pending: Option<Addr>

    function State(): Ownable.OwnableState
      reads this
    {
      Ownable.OwnableState(owner, pending)
    }

    /** Storage in which neither item has been saved. */
    constructor ()
      ensures State() == Ownable.EMPTY
    {
      owner, pending := None, None;
    }

    method Initialize(newOwner: Addr)
      modifies this
      ensures State() == Ownable.Initialize(old(State()), newOwner)
      ensures Ownable.GetOwner(State()) == Ok(newOwner)
    {
      owner := Some(newOwner);
    }

    method InitOwnershipTransfer(sender: Addr, nextOwner: Addr) returns (r: Result<Event, StdError>)
      modifies this
      ensures Ownable.Transition(r, State()) == Ownable.InitOwnershipTransfer(old(State()), sender, nextOwner)
      ensures r.Ok? ==> Ownable.GetPendingOwner(State()) == Some(nextOwner)
    {
      if owner.None? {
        return Err(NotFound(Ownable.ADDR_TYPE_NAME));
      }
      if sender != owner.value {
        return Err(Ownable.UNAUTHORIZED);
      }
      if pending.Some? {
        return Err(Ownable.TRANSFERRING);
      }
      pending := Some(nextOwner);
      r := Ok(Ownable.NewEvent("init", [Attribute("owner", sender), Attribute("next_owner", nextOwner)]));
    }

    method RevokeOwnershipTransfer(sender: Addr) returns (r: Result<Event, StdError>)
      modifies this
      ensures Ownable.Transition(r, State()) == Ownable.RevokeOwnershipTransfer(old(State()), sender)
      ensures r.Ok? ==> Ownable.GetPendingOwner(State()) == None && owner == old(owner)
    {
      if owner.None? {
        return Err(NotFound(Ownable.ADDR_TYPE_NAME));
      }
      if sender != owner.value {
        return Err(Ownable.UNAUTHORIZED);
      }
      if pending.None? {
        return Err(Ownable.NOT_TRANSFERRING);
      }
      pending := None;
      r := Ok(Ownable.NewEvent("revoke", [Attribute("owner", sender)]));
    }

    method ClaimOwnership(sender: Addr) returns (r: Result<Event, StdError>)
      modifies this
      ensures Ownable.Transition(r, State()) == Ownable.ClaimOwnership(old(State()), sender)
      ensures r.Ok? ==> owner == Some(sender) && old(pending) == Some(sender)
    {
      if pending.None? {
        return Err(Ownable.NOT_TRANSFERRING);
      }
      if sender != pending.value {
        return Err(Ownable.UNAUTHORIZED);
      }
      owner := Some(sender);
      pending := None;
      r := Ok(Ownable.NewEvent("claim", [Attribute("owner", sender)]));
    }
  }
}
