/** Single-owner access control (`Ownable`, OpenZeppelin 5 semantics): one
    owner account, which alone may hand ownership to another non-zero
    account or renounce it, leaving the contract without an owner. */
module Ownable {
  import opened Types

  datatype Error =
    | OwnableUnauthorizedAccount(account: Address)
    | OwnableInvalidOwner(owner: Address)

  datatype Event = OwnershipTransferred(previousOwner: Address, newOwner: Address)

  class Ownable {
    var owner: Address
    var log: seq<Event>

    /** The owner is the account the last `OwnershipTransferred` event named,
        and the events form a chain from the zero address: each one starts
        from the owner the previous one installed. */
    ghost predicate Valid()
      reads this
    {
      && log != []
      && log[0].previousOwner == ZeroAddress
      && (forall i :: 0 < i < |log| ==> log[i].previousOwner == log[i - 1].newOwner)
      && owner == log[|log| - 1].newOwner
    }

    /** Deployment with a non-zero initial owner; see `Deploy` for the
        deployment that reverts on the zero address. */
    constructor (initialOwner: Address)
      requires initialOwner != ZeroAddress
      ensures Valid()
      ensures owner == initialOwner
      ensures log == [OwnershipTransferred(ZeroAddress, initialOwner)]
    {
      owner := initialOwner;
      log := [OwnershipTransferred(ZeroAddress, initialOwner)];
    }

    /** The owner-only guard: only the account the latest ownership event
        installed passes. */
    function CheckOwner(caller: Address): (r: Outcome<Error>)
      requires Valid()
      reads this
      ensures r.Done? <==> caller == log[|log| - 1].newOwner
      ensures r.Revert? ==> r.error == OwnableUnauthorizedAccount(caller)
    {
      if caller == owner then Done else Revert(OwnableUnauthorizedAccount(caller))
    }

    /** `transferOwnership(newOwner)` called by `caller`. */
    method TransferOwnership(caller: Address, newOwner: Address) returns (r: Outcome<Error>)
      requires Valid()
      modifies this
      ensures Valid()
      ensures r == if old(owner) != caller then Revert(OwnableUnauthorizedAccount(caller))
                   else if newOwner == ZeroAddress then Revert(OwnableInvalidOwner(ZeroAddress))
                   else Done
      ensures r.Revert? ==> owner == old(owner) && log == old(log)
      ensures r.Done? ==> owner == newOwner && log == old(log) + [OwnershipTransferred(old(owner), newOwner)]
    {
      r := CheckOwner(caller);
      if r.Done? {
        if newOwner == ZeroAddress {
          r := Revert(OwnableInvalidOwner(ZeroAddress));
        } else {
          log := log + [OwnershipTransferred(owner, newOwner)];
          owner := newOwner;
        }
      }
    }

    /** `renounceOwnership()` called by `caller`. */
    method RenounceOwnership(caller: Address) returns (r: Outcome<Error>)
      requires Valid()
      modifies this
      ensures Valid()
      ensures r == if old(owner) != caller then Revert(OwnableUnauthorizedAccount(caller)) else Done
      ensures r.Revert? ==> owner == old(owner) && log == old(log)
      ensures r.Done? ==> owner == ZeroAddress && log == old(log) + [OwnershipTransferred(old(owner), ZeroAddress)]
    {
      r := CheckOwner(caller);
      if r.Done? {
        log := log + [OwnershipTransferred(owner, ZeroAddress)];
        owner := ZeroAddress;
      }
    }
  }

  /** Deploying `Ownable(initialOwner)`: reverts with
      `OwnableInvalidOwner(0)` for the zero address. */
  method Deploy(initialOwner: Address) returns (r: Result<Ownable, Error>)
    ensures r.Err? <==> initialOwner == ZeroAddress
    ensures r.Err? ==> r.error == OwnableInvalidOwner(ZeroAddress)
    ensures r.Ok? ==> fresh(r.value) && r.value.Valid() && r.value.owner == initialOwner
                      && r.value.log == [OwnershipTransferred(ZeroAddress, initialOwner)]
  {
    if initialOwner == ZeroAddress {
      r := Err(OwnableInvalidOwner(ZeroAddress));
    } else {
      var o := new Ownable(initialOwner);
      r := Ok(o);
    }
  }
}
