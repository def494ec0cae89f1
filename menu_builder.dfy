/**
 * The settings all menu builders share: the waiter, the allowed users and roles, and the
 * timeout. Every setter returns the builder itself, so calls can be chained.
 */
module MenuBuilders {
  import opened Wrappers
  import opened Host
  import Waiter

  /**
   * The elements of a varargs array, as a set. Its ensures only spell the comprehension out
   * for the setters' proofs; what the setters do is stated by their own contracts.
   */
  function Elements(xs: seq<nat>): (r: set<nat>)
    ensures forall x :: x in r <==> x in xs
  {
    set x | x in xs
  }

  class MenuBuilder {
    var waiter: Waiter.EventWaiter?
    var users: set<UserId>
    var roles: set<RoleId>
    var timeout: int
    var unit: Option<TimeUnit>

    /** The defaults: no waiter, nobody listed, timeout -1, unit MINUTES. */
    constructor ()
      ensures waiter == null && users == {} && roles == {}
      ensures timeout == -1 && unit == Some(MINUTES)
    {
      waiter, users, roles, timeout, unit := null, {}, {}, -1, Some(MINUTES);
    }

    method SetEventWaiter(w: Waiter.EventWaiter?) returns (b: MenuBuilder)
      modifies this
      ensures b == this && waiter == w
      ensures users == old(users) && roles == old(roles) && timeout == old(timeout) && unit == old(unit)
    {
      waiter := w;
      b := this;
    }

    /** addUsers: the given users join those already allowed. */
    method AddUsers(us: seq<UserId>) returns (b: MenuBuilder)
      modifies this
      ensures b == this && users == old(users) + Elements(us)
      ensures waiter == old(waiter) && roles == old(roles) && timeout == old(timeout) && unit == old(unit)
    {
      users := users + Elements(us);
      b := this;
    }

    /** setUsers: exactly the given users are allowed. */
    method SetUsers(us: seq<UserId>) returns (b: MenuBuilder)
      modifies this
      ensures b == this && users == Elements(us)
      ensures waiter == old(waiter) && roles == old(roles) && timeout == old(timeout) && unit == old(unit)
    {
      users := {};
      users := users + Elements(us);
      b := this;
    }

    /** addRoles: the given roles join those already allowed. */
    method AddRoles(rs: seq<RoleId>) returns (b: MenuBuilder)
      modifies this
      ensures b == this && roles == old(roles) + Elements(rs)
      ensures waiter == old(waiter) && users == old(users) && timeout == old(timeout) && unit == old(unit)
    {
      roles := roles + Elements(rs);
      b := this;
    }

    /** setRoles: exactly the given roles are allowed. */
    method SetRoles(rs: seq<RoleId>) returns (b: MenuBuilder)
      modifies this
      ensures b == this && roles == Elements(rs)
      ensures waiter == old(waiter) && users == old(users) && timeout == old(timeout) && unit == old(unit)
    {
      roles := {};
      roles := roles + Elements(rs);
      b := this;
    }

    /** setTimeout: both the amount and the unit (which may be null) are stored. */
    method SetTimeout(t: int, u: Option<TimeUnit>) returns (b: MenuBuilder)
      modifies this
      ensures b == this && timeout == t && unit == u
      ensures waiter == old(waiter) && users == old(users) && roles == old(roles)
    {
      timeout := t;
      unit := u;
      b := this;
    }
  }
}
