/** The administrator's user page: a list of users held as page state,
    deleted in place, searched by name or e-mail, counted by role, and
    shown with a readable role label. */
module AdminUsers {
  import opened Common
  import opened Records

  /** The search box: the lower-cased term occurs in the lower-cased name or
      in the lower-cased e-mail. */
  function MatchesSearch(term: string): User -> bool
  {
    (u: User) => Contains(Lower(u.name), Lower(term)) || Contains(Lower(u.email), Lower(term))
  }

  /** `filteredUsers` */
  function FilterUsers(us: seq<User>, term: string): (r: seq<User>)
    ensures IsSubsequence(r, us)
    ensures forall u :: u in r ==>
              u in us &&
              (Contains(Lower(u.name), Lower(term)) || Contains(Lower(u.email), Lower(term)))
    ensures forall u :: u in us &&
              (Contains(Lower(u.name), Lower(term)) || Contains(Lower(u.email), Lower(term)))
              ==> u in r
    ensures forall u :: u in us &&
              (Contains(Lower(u.name), Lower(term)) || Contains(Lower(u.email), Lower(term)))
              ==> multiset(r)[u] == multiset(us)[u]
  {
    Filter(us, MatchesSearch(term))
  }

  /** An empty search keeps every user. */
  lemma EmptySearchKeepsAll(us: seq<User>)
    ensures FilterUsers(us, "") == us
  {
    forall u | u in us ensures MatchesSearch("")(u) {
      ContainsEmpty(Lower(u.name));
    }
    FilterAll(us, MatchesSearch(""));
  }

  function IdIsNot(id: string): User -> bool
  {
    (u: User) => u.id != id
  }

  /** `users.filter((u) => u.id !== id)` */
  function RemoveUserById(us: seq<User>, id: string): (r: seq<User>)
    ensures IsSubsequence(r, us)
    ensures forall u :: u in r ==> u.id != id
    ensures forall u :: u in us && u.id != id ==> u in r
    ensures forall u :: u in us && u.id != id ==> multiset(r)[u] == multiset(us)[u]
  {
    Filter(us, IdIsNot(id))
  }

  /** Deleting an id no user has leaves the list unchanged. */
  lemma DeleteAbsentIsNoop(us: seq<User>, id: string)
    requires forall u :: u in us ==> u.id != id
    ensures RemoveUserById(us, id) == us
  {
    FilterAll(us, IdIsNot(id));
  }

  function RoleIs(role: string): User -> bool
  {
    (u: User) => u.role == role
  }

  /** The Admins figure: `users.filter((u) => u.role === 'admin').length`,
      the number of users whose role is exactly 'admin'. */
  function AdminCount(us: seq<User>): (n: nat)
    ensures n == CountWhere(us, RoleIs("admin"))
    ensures n <= |us|
    ensures n == 0 <==> forall u :: u in us ==> u.role != "admin"
  {
    FilterCount(us, RoleIs("admin"));
    var admins := Filter(us, RoleIs("admin"));
    assert admins != [] ==> admins[0] in admins;
    |admins|
  }

  /** The Project Managers figure: the number of users whose role is
      exactly 'chef_projet'. */
  function ChefCount(us: seq<User>): (n: nat)
    ensures n == CountWhere(us, RoleIs("chef_projet"))
    ensures n <= |us|
    ensures n == 0 <==> forall u :: u in us ==> u.role != "chef_projet"
  {
    FilterCount(us, RoleIs("chef_projet"));
    var chefs := Filter(us, RoleIs("chef_projet"));
    assert chefs != [] ==> chefs[0] in chefs;
    |chefs|
  }

  /** No user is counted both as an admin and as a project manager. */
  lemma RoleCountsBounded(us: seq<User>)
    ensures AdminCount(us) + ChefCount(us) <= |us|
  {
    CountDisjoint2(us, RoleIs("admin"), RoleIs("chef_projet"));
  }

  function IsUnderscore(c: char): bool { c == '_' }

  /** `user.role.replace('_', ' ')`: a string pattern, so only the first
      underscore becomes a space. */
  function RoleLabel(role: string): (r: string)
    ensures |r| == |role|
    ensures '_' !in role ==> r == role
    ensures forall i :: IsFirst(role, IsUnderscore, i) ==>
              r[i] == ' ' && forall j :: 0 <= j < |role| && j != i ==> r[j] == role[j]
  {
    match FirstIndex(role, IsUnderscore)
    case None => role
    case Some(i) => role[..i] + " " + role[i + 1..]
  }

  class UsersPage {
    var users: seq<User>

    constructor (initial: seq<User>)
      ensures users == initial
    {
      users := initial;
    }

    /** `handleDelete`: `confirmed` is the answer to the confirmation dialog. */
    method HandleDelete(id: string, confirmed: bool)
      modifies this
      ensures users == if confirmed then RemoveUserById(old(users), id) else old(users)
    {
      if confirmed {
        users := RemoveUserById(users, id);
      }
    }
  }
}
