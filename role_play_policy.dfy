/** Who may do what with scenarios. */
module RolePlayPolicy {
  import RolePlays
  import Ordering

  datatype AccountUser = AccountUser(admin: bool)

  predicate Index(u: AccountUser) { true }
  predicate Show(u: AccountUser) { true }
  predicate Create(u: AccountUser) { u.admin }
  predicate Update(u: AccountUser) { u.admin }
  predicate Destroy(u: AccountUser) { u.admin }

  /** Everyone may list and view; only admins may create, update and destroy. */
  lemma Permissions(u: AccountUser)
    ensures Index(u) && Show(u)
    ensures Create(u) <==> u.admin
    ensures Update(u) <==> u.admin
    ensures Destroy(u) <==> u.admin
  {
  }

  /** `Scope#resolve`: every scenario, active or not, in the default order. */
  function Resolve(rps: seq<RolePlays.RolePlay>): (r: seq<RolePlays.RolePlay>)
    ensures multiset(r) == multiset(rps)
    ensures forall i :: 0 <= i < |rps| ==> rps[i] in r
  {
    var r := RolePlays.DefaultOrder(rps);
    Ordering.SameMembers(rps, r);
    r
  }
}
