/** The project lead's indicator page: the lead's own projects, the
    indicators of those projects, and an optional narrowing to one project. */
module ChefIndicators {
  import opened Common
  import opened Records

  /** `user?.id`: absent when nobody is signed in. */
  function UserId(user: Option<User>): Option<string>
  {
    match user
    case None => None
    case Some(u) => Some(u.id)
  }

  /** `p.chefProjectId === user?.id`; with nobody signed in no project matches,
      since a project's lead id is always a string. */
  function LedBy(userId: Option<string>): Project -> bool
  {
    (p: Project) => userId == Some(p.chefProjectId)
  }

  /** `myProjects` */
  function MyProjects(ps: seq<Project>, user: Option<User>): (r: seq<Project>)
    ensures IsSubsequence(r, ps)
    ensures forall p :: p in r ==> p in ps && user.Some? && p.chefProjectId == user.value.id
    ensures forall p :: p in ps && user.Some? && p.chefProjectId == user.value.id ==> p in r
    ensures forall p :: p in ps && user.Some? && p.chefProjectId == user.value.id ==>
              multiset(r)[p] == multiset(ps)[p]
    ensures user.None? ==> r == []
  {
    var r := Filter(ps, LedBy(UserId(user)));
    assert r != [] ==> r[0] in r;
    r
  }

  /** `myIndicators`: the indicators of the lead's projects, in their
      original order. */
  function MyIndicators(inds: seq<Indicator>, ps: seq<Project>, user: Option<User>): (r: seq<Indicator>)
    ensures IsSubsequence(r, inds)
    ensures forall i :: i in r ==>
              i in inds && exists p :: p in ps && UserId(user) == Some(p.chefProjectId) && p.id == i.projectId
    ensures forall i :: i in inds &&
              (exists p :: p in ps && UserId(user) == Some(p.chefProjectId) && p.id == i.projectId)
              ==> i in r
    ensures forall i :: i in inds &&
              (exists p :: p in ps && UserId(user) == Some(p.chefProjectId) && p.id == i.projectId)
              ==> multiset(r)[i] == multiset(inds)[i]
  {
    IndicatorsOf(inds, MyProjects(ps, user))
  }

  /** `selectedProject` is truthy: set and not the empty string. */
  predicate IsSelected(selected: Option<string>)
  {
    selected.Some? && selected.value != ""
  }

  function OfProject(id: string): Indicator -> bool
  {
    (i: Indicator) => i.projectId == id
  }

  /** `filteredIndicators` */
  function FilterIndicators(mine: seq<Indicator>, selected: Option<string>): (r: seq<Indicator>)
    ensures !IsSelected(selected) ==> r == mine
    ensures IsSubsequence(r, mine)
    ensures IsSelected(selected) ==>
              (forall i :: i in r ==> i in mine && i.projectId == selected.value) &&
              (forall i :: i in mine && i.projectId == selected.value ==> i in r) &&
              (forall i :: i in mine && i.projectId == selected.value ==>
                 multiset(r)[i] == multiset(mine)[i])
  {
    if IsSelected(selected) then Filter(mine, OfProject(selected.value))
    else
      SubsequenceRefl(mine);
      mine
  }

  /** Selecting a project the lead does not own shows no indicator. */
  lemma ForeignSelectionIsEmpty(inds: seq<Indicator>, ps: seq<Project>, user: Option<User>, sel: string)
    requires sel != ""
    requires forall p :: p in MyProjects(ps, user) ==> p.id != sel
    ensures FilterIndicators(MyIndicators(inds, ps, user), Some(sel)) == []
  {
  }

  /** Whatever is selected, the page shows indicators in the order of the
      full indicator list. */
  lemma ShownInOriginalOrder(inds: seq<Indicator>, ps: seq<Project>, user: Option<User>, selected: Option<string>)
    ensures IsSubsequence(FilterIndicators(MyIndicators(inds, ps, user), selected), inds)
  {
    var mine := MyIndicators(inds, ps, user);
    SubsequenceTrans(FilterIndicators(mine, selected), mine, inds);
  }
}
