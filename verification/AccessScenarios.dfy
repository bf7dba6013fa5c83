/** The access-control scenarios as verified examples: single ownership
    deployed with a non-zero `owner`, and roles deployed by `owner`, who
    holds the default admin role. Role identifiers are parameters, so the
    examples hold for every hashed role name, the default admin role
    included, except where a scenario's own precondition excludes it. */
module AccessScenarios {
  import opened Types
  import Ownable
  import opened RoleAccessControl

  method OwnerAfterDeployment(owner: Address) returns (current: Address)
    requires owner != ZeroAddress
    ensures current == owner
  {
    var o := new Ownable.Ownable(owner);
    current := o.owner;
  }

  method OwnerTransfersOwnership(owner: Address, newOwner: Address)
    returns (r: Outcome<Ownable.Error>, events: seq<Ownable.Event>, current: Address)
    requires owner != ZeroAddress && newOwner != ZeroAddress
    ensures r == Done && current == newOwner
    ensures events == [Ownable.OwnershipTransferred(ZeroAddress, owner), Ownable.OwnershipTransferred(owner, newOwner)]
  {
    var o := new Ownable.Ownable(owner);
    r := o.TransferOwnership(owner, newOwner);
    events, current := o.log, o.owner;
  }

  method StrangerTransfersOwnership(owner: Address, other: Address, newOwner: Address) returns (r: Outcome<Ownable.Error>)
    requires owner != ZeroAddress && other != owner
    ensures r == Revert(Ownable.OwnableUnauthorizedAccount(other))
  {
    var o := new Ownable.Ownable(owner);
    r := o.TransferOwnership(other, newOwner);
  }

  method OwnerRenouncesOwnership(owner: Address) returns (r: Outcome<Ownable.Error>, events: seq<Ownable.Event>, current: Address)
    requires owner != ZeroAddress
    ensures r == Done && current == ZeroAddress
    ensures events == [Ownable.OwnershipTransferred(ZeroAddress, owner), Ownable.OwnershipTransferred(owner, ZeroAddress)]
  {
    var o := new Ownable.Ownable(owner);
    r := o.RenounceOwnership(owner);
    events, current := o.log, o.owner;
  }

  method StrangerRenouncesOwnership(owner: Address, other: Address) returns (r: Outcome<Ownable.Error>)
    requires owner != ZeroAddress && other != owner
    ensures r == Revert(Ownable.OwnableUnauthorizedAccount(other))
  {
    var o := new Ownable.Ownable(owner);
    r := o.RenounceOwnership(other);
  }

  method TransferOwnershipToZero(owner: Address) returns (r: Outcome<Ownable.Error>)
    requires owner != ZeroAddress
    ensures r == Revert(Ownable.OwnableInvalidOwner(ZeroAddress))
  {
    var o := new Ownable.Ownable(owner);
    r := o.TransferOwnership(owner, ZeroAddress);
  }

  method AssignRole(owner: Address, other: Address, testRole: Role) returns (r: Outcome<Error>, has: bool)
    ensures r == Done && has
  {
    var c := new RoleAccessControl(owner);
    r := c.GrantRole(owner, testRole, other);
    has := c.HasRole(testRole, other);
  }

  /** `checkRole(role)` by the holder and `checkRole(role, holder)` by
      anyone pass. Both are the one check `CheckRole(role, holder)`: the
      caller's form differs only in taking the account from the caller,
      and the check does not depend on who calls it. */
  method CheckRolePresence(owner: Address, other: Address, testRole: Role) returns (r: Outcome<Error>)
    ensures r == Done
  {
    var c := new RoleAccessControl(owner);
    var _ := c.GrantRole(owner, testRole, other);
    r := c.CheckRole(testRole, other);
  }

  method ChangeRoleAdmin(owner: Address, testRole: Role, adminRole: Role) returns (admin: Role)
    ensures admin == adminRole
  {
    var c := new RoleAccessControl(owner);
    c.SetRoleAdmin(testRole, adminRole);
    admin := c.GetRoleAdmin(testRole);
  }

  method RevokeGrantedRole(owner: Address, other: Address, testRole: Role) returns (before: bool, r: Outcome<Error>, after: bool)
    ensures before && r == Done && !after
  {
    var c := new RoleAccessControl(owner);
    var _ := c.GrantRole(owner, testRole, other);
    before := c.HasRole(testRole, other);
    r := c.RevokeRole(owner, testRole, other);
    after := c.HasRole(testRole, other);
  }

  method RenounceOwnRole(owner: Address, other: Address, testRole: Role) returns (before: bool, r: Outcome<Error>, after: bool)
    ensures before && r == Done && !after
  {
    var c := new RoleAccessControl(owner);
    var _ := c.GrantRole(owner, testRole, other);
    before := c.HasRole(testRole, other);
    r := c.RenounceRole(other, testRole, other);
    after := c.HasRole(testRole, other);
  }

  method CheckRoleWithoutIt(owner: Address, other: Address, third: Address, testRole: Role) returns (r: Outcome<Error>)
    requires third != other && (testRole != DefaultAdminRole || third != owner)
    ensures r == Revert(AccessControlUnauthorizedAccount(third, testRole))
  {
    var c := new RoleAccessControl(owner);
    var _ := c.GrantRole(owner, testRole, other);
    r := c.CheckRole(testRole, third);
  }
}
