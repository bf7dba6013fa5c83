/** Role-based access control (`MockRoleAccessControl`, OpenZeppelin 5
    `AccessControl` semantics): each role is a 32-byte identifier with a
    set of member accounts and an admin role whose members may grant and
    revoke it. The admin of every role starts as the default admin role
    (identifier zero), which the deployer holds. */
module RoleAccessControl {
  import opened Types

  /** A `bytes32` role identifier. */
  type Role = Uint256

  const DefaultAdminRole: Role := 0

  datatype Error =
    | AccessControlUnauthorizedAccount(account: Address, neededRole: Role)
    | AccessControlBadConfirmation

  datatype Event =
    | RoleGranted(role: Role, account: Address, sender: Address)
    | RoleRevoked(role: Role, account: Address, sender: Address)
    | RoleAdminChanged(role: Role, previousAdminRole: Role, newAdminRole: Role)

  /** Whether `account` holds `role` according to the log: the latest
      `RoleGranted` or `RoleRevoked` event for the pair is a grant. */
  ghost predicate HeldPerLog(log: seq<Event>, role: Role, account: Address)
    decreases |log|
  {
    if log == [] then false
    else
      var e := log[|log| - 1];
      if !e.RoleAdminChanged? && e.role == role && e.account == account then e.RoleGranted?
      else HeldPerLog(log[..|log| - 1], role, account)
  }

  /** The admin role of `role` according to the log: the one the latest
      `RoleAdminChanged` event for it installed, or the default admin role
      when there was none. */
  ghost function AdminPerLog(log: seq<Event>, role: Role): Role
    decreases |log|
  {
    if log == [] then DefaultAdminRole
    else
      var e := log[|log| - 1];
      if e.RoleAdminChanged? && e.role == role then e.newAdminRole
      else AdminPerLog(log[..|log| - 1], role)
  }

  /** Appending one event changes what the log says only for the pair or
      the role that event names. */
  lemma {:induction false} LogStep(log: seq<Event>, e: Event)
    ensures forall role: Role, account: Address ::
              HeldPerLog(log + [e], role, account) ==
              if !e.RoleAdminChanged? && e.role == role && e.account == account then e.RoleGranted?
              else HeldPerLog(log, role, account)
    ensures forall role: Role ::
              AdminPerLog(log + [e], role) ==
              if e.RoleAdminChanged? && e.role == role then e.newAdminRole
              else AdminPerLog(log, role)
  {
    assert (log + [e])[..|log|] == log;
  }

  class RoleAccessControl {
    /** The members of each role. */
    var members: set<(Role, Address)>
    /** The admin role of each role whose admin was changed. */
    var admins: map<Role, Role>
    var log: seq<Event>

    /** The stored members and admin roles are exactly what the event log
        says. */
    ghost predicate Valid()
      reads this
    {
      && (forall role: Role, account: Address :: (role, account) in members <==> HeldPerLog(log, role, account))
      && (forall role: Role :: role in admins ==> admins[role] == AdminPerLog(log, role))
      && (forall role: Role :: role !in admins ==> AdminPerLog(log, role) == DefaultAdminRole)
    }

    /** Deployment by `deployer`, who receives the default admin role. */
    constructor (deployer: Address)
      ensures Valid()
      ensures members == {(DefaultAdminRole, deployer)} && admins == map[]
      ensures log == [RoleGranted(DefaultAdminRole, deployer, deployer)]
    {
      members := {(DefaultAdminRole, deployer)};
      admins := map[];
      log := [RoleGranted(DefaultAdminRole, deployer, deployer)];
      new;
      LogStep([], RoleGranted(DefaultAdminRole, deployer, deployer));
      assert [] + [RoleGranted(DefaultAdminRole, deployer, deployer)] == log;
    }

    /** `hasRole(role, account)`: whether the latest grant or revocation of
        the role for the account is a grant. */
    function HasRole(role: Role, account: Address): (b: bool)
      requires Valid()
      reads this
      ensures b <==> HeldPerLog(log, role, account)
    {
      (role, account) in members
    }

    /** `getRoleAdmin(role)`: the admin role the latest admin change for the
        role installed, the default admin role if none. */
    function GetRoleAdmin(role: Role): (admin: Role)
      requires Valid()
      reads this
      ensures admin == AdminPerLog(log, role)
      ensures role !in admins ==> admin == DefaultAdminRole
    {
      if role in admins then admins[role] else DefaultAdminRole
    }

    /** `checkRole(role, account)`; `checkRole(role)` is this check with
        the caller as the account. */
    function CheckRole(role: Role, account: Address): (r: Outcome<Error>)
      requires Valid()
      reads this
      ensures r.Done? <==> HeldPerLog(log, role, account)
      ensures r.Revert? ==> r.error == AccessControlUnauthorizedAccount(account, role)
    {
      if HasRole(role, account) then Done else Revert(AccessControlUnauthorizedAccount(account, role))
    }

    /** `grantRole(role, account)` called by `caller`, a member of the
        role's admin role. Granting a role already held emits nothing. */
    method GrantRole(caller: Address, role: Role, account: Address) returns (r: Outcome<Error>)
      requires Valid()
      modifies this
      ensures Valid()
      ensures r == old(CheckRole(GetRoleAdmin(role), caller))
      ensures admins == old(admins)
      ensures r.Revert? ==> members == old(members) && log == old(log)
      ensures r.Done? ==> members == old(members) + {(role, account)}
      ensures r.Done? ==> log == old(log) + (if old(HasRole(role, account)) then [] else [RoleGranted(role, account, caller)])
    {
      r := CheckRole(GetRoleAdmin(role), caller);
      if r.Done? && !HasRole(role, account) {
        LogStep(log, RoleGranted(role, account, caller));
        members := members + {(role, account)};
        log := log + [RoleGranted(role, account, caller)];
      }
    }

    /** The internal revocation: removes `account` from `role`, emitting
        only when it was a member. */
    method Revoke(caller: Address, role: Role, account: Address)
      requires Valid()
      modifies this
      ensures Valid()
      ensures members == old(members) - {(role, account)}
      ensures admins == old(admins)
      ensures log == old(log) + (if old(HasRole(role, account)) then [RoleRevoked(role, account, caller)] else [])
    {
      if HasRole(role, account) {
        LogStep(log, RoleRevoked(role, account, caller));
        members := members - {(role, account)};
        log := log + [RoleRevoked(role, account, caller)];
      }
    }

    /** `revokeRole(role, account)` called by `caller`, a member of the
        role's admin role. */
    method RevokeRole(caller: Address, role: Role, account: Address) returns (r: Outcome<Error>)
      requires Valid()
      modifies this
      ensures Valid()
      ensures r == old(CheckRole(GetRoleAdmin(role), caller))
      ensures admins == old(admins)
      ensures r.Revert? ==> members == old(members) && log == old(log)
      ensures r.Done? ==> members == old(members) - {(role, account)}
      ensures r.Done? ==> log == old(log) + (if old(HasRole(role, account)) then [RoleRevoked(role, account, caller)] else [])
    {
      r := CheckRole(GetRoleAdmin(role), caller);
      if r.Done? {
        Revoke(caller, role, account);
      }
    }

    /** `renounceRole(role, callerConfirmation)` called by `caller`: an
        account may only drop its own membership. */
    method RenounceRole(caller: Address, role: Role, callerConfirmation: Address) returns (r: Outcome<Error>)
      requires Valid()
      modifies this
      ensures Valid()
      ensures r == if callerConfirmation != caller then Revert(AccessControlBadConfirmation) else Done
      ensures admins == old(admins)
      ensures r.Revert? ==> members == old(members) && log == old(log)
      ensures r.Done? ==> members == old(members) - {(role, caller)}
      ensures r.Done? ==> log == old(log) + (if old(HasRole(role, caller)) then [RoleRevoked(role, caller, caller)] else [])
    {
      if callerConfirmation != caller {
        r := Revert(AccessControlBadConfirmation);
      } else {
        Revoke(caller, role, caller);
        r := Done;
      }
    }

    /** `setRoleAdmin(role, adminRole)`, exposed by the mock without a guard:
        afterwards the role's admin is `adminRole` and every other role's
        admin is as before. */
    method SetRoleAdmin(role: Role, adminRole: Role)
      requires Valid()
      modifies this
      ensures Valid()
      ensures GetRoleAdmin(role) == adminRole
      ensures forall other :: other != role ==> GetRoleAdmin(other) == old(GetRoleAdmin(other))
      ensures admins == old(admins)[role := adminRole] && members == old(members)
      ensures log == old(log) + [RoleAdminChanged(role, old(GetRoleAdmin(role)), adminRole)]
    {
      LogStep(log, RoleAdminChanged(role, GetRoleAdmin(role), adminRole));
      log := log + [RoleAdminChanged(role, GetRoleAdmin(role), adminRole)];
      admins := admins[role := adminRole];
    }
  }
}
