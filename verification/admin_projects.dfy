/** The administrator's project page: a list of projects held as page state,
    edited, created and deleted in place, searched by name or description,
    and summed up in four figures. */
module AdminProjects {
  import opened Common
  import opened Records

  /** The project with the saved project's id, replaced by it; every other
      project kept (`projects.map((p) => p.id === project.id ? project : p)`). */
  function ReplaceById(ps: seq<Project>, q: Project): (r: seq<Project>)
    ensures |r| == |ps|
    ensures forall i :: 0 <= i < |ps| && ps[i].id == q.id ==> r[i] == q
    ensures forall i :: 0 <= i < |ps| && ps[i].id != q.id ==> r[i] == ps[i]
  {
    seq(|ps|, i requires 0 <= i < |ps| => if ps[i].id == q.id then q else ps[i])
  }

  function IdIsNot(id: string): Project -> bool
  {
    (p: Project) => p.id != id
  }

  /** `projects.filter((p) => p.id !== id)` */
  function RemoveById(ps: seq<Project>, id: string): (r: seq<Project>)
    ensures IsSubsequence(r, ps)
    ensures forall p :: p in r ==> p.id != id
    ensures forall p :: p in ps && p.id != id ==> p in r
    ensures forall p :: p in ps && p.id != id ==> multiset(r)[p] == multiset(ps)[p]
  {
    Filter(ps, IdIsNot(id))
  }

  /** Deleting an id no project has leaves the list unchanged. */
  lemma DeleteAbsentIsNoop(ps: seq<Project>, id: string)
    requires forall p :: p in ps ==> p.id != id
    ensures RemoveById(ps, id) == ps
  {
    FilterAll(ps, IdIsNot(id));
  }

  /** Saving an edit and then deleting that id is the same as deleting it. */
  lemma {:induction false} DeleteAfterEdit(ps: seq<Project>, q: Project)
    ensures RemoveById(ReplaceById(ps, q), q.id) == RemoveById(ps, q.id)
  {
    if ps != [] {
      DeleteAfterEdit(ps[1..], q);
      assert ReplaceById(ps, q) == [ReplaceById(ps, q)[0]] + ReplaceById(ps[1..], q);
    }
  }

  /** Creating a project with a fresh id and then deleting it restores the list. */
  lemma CreateThenDelete(ps: seq<Project>, q: Project)
    requires forall p :: p in ps ==> p.id != q.id
    ensures RemoveById(ps + [q], q.id) == ps
  {
    FilterAppend(ps, q, IdIsNot(q.id));
    FilterAll(ps, IdIsNot(q.id));
  }

  /** The search box: the lower-cased term occurs in the lower-cased name or
      in the lower-cased description. */
  function MatchesSearch(term: string): Project -> bool
  {
    (p: Project) => Contains(Lower(p.name), Lower(term)) || Contains(Lower(p.description), Lower(term))
  }

  /** `filteredProjects` */
  function FilterProjects(ps: seq<Project>, term: string): (r: seq<Project>)
    ensures IsSubsequence(r, ps)
    ensures forall p :: p in r ==>
              p in ps &&
              (Contains(Lower(p.name), Lower(term)) || Contains(Lower(p.description), Lower(term)))
    ensures forall p :: p in ps &&
              (Contains(Lower(p.name), Lower(term)) || Contains(Lower(p.description), Lower(term)))
              ==> p in r
    ensures forall p :: p in ps &&
              (Contains(Lower(p.name), Lower(term)) || Contains(Lower(p.description), Lower(term)))
              ==> multiset(r)[p] == multiset(ps)[p]
  {
    Filter(ps, MatchesSearch(term))
  }

  /** An empty search keeps every project. */
  lemma EmptySearchKeepsAll(ps: seq<Project>)
    ensures FilterProjects(ps, "") == ps
  {
    forall p | p in ps ensures MatchesSearch("")(p) {
      ContainsEmpty(Lower(p.name));
    }
    FilterAll(ps, MatchesSearch(""));
  }

  /** The search ignores the case of the term. */
  lemma SearchIgnoresTermCase(ps: seq<Project>, term: string)
    ensures FilterProjects(ps, term) == FilterProjects(ps, Lower(term))
  {
    LowerIdempotent(term);
    assert MatchesSearch(term) == MatchesSearch(Lower(term));
  }

  /** The Active figure: `projects.filter((p) => p.status === 'active').length`. */
  function ActiveCount(ps: seq<Project>): (n: nat)
    ensures n <= |ps|
    ensures n == CountWhere(ps, StatusIs("active"))
    ensures n == 0 <==> forall p :: p in ps ==> p.status != "active"
  {
    FilterCount(ps, StatusIs("active"));
    var active := Filter(ps, StatusIs("active"));
    assert active != [] ==> active[0] in active;
    |active|
  }

  /** `getStatusColor`: a badge class for the four known statuses, the empty
      string for any other. */
  function StatusColor(status: string): (r: string)
    ensures r != "" <==> status in {"active", "planning", "completed", "paused"}
  {
    if status == "active" then "bg-emerald-100 text-emerald-700 dark:bg-emerald-900 dark:text-emerald-200"
    else if status == "planning" then "bg-blue-100 text-blue-700 dark:bg-blue-900 dark:text-blue-200"
    else if status == "completed" then "bg-gray-100 text-gray-700 dark:bg-gray-700 dark:text-gray-200"
    else if status == "paused" then "bg-amber-100 text-amber-700 dark:bg-amber-900 dark:text-amber-200"
    else ""
  }

  /** The page's state: the project list, the project being edited (none
      when the form creates a project) and whether the form is open. */
  class ProjectsPage {
    var projects: seq<Project>
    var projectToEdit: Option<Project>
    var isModalOpen: bool

    constructor (initial: seq<Project>)
      ensures projects == initial && projectToEdit == None && !isModalOpen
    {
      projects := initial;
      projectToEdit := None;
      isModalOpen := false;
    }

    method HandleAddProject()
      modifies this
      ensures projectToEdit == None && isModalOpen && projects == old(projects)
    {
      projectToEdit := None;
      isModalOpen := true;
    }

    method HandleEditProject(p: Project)
      modifies this
      ensures projectToEdit == Some(p) && isModalOpen && projects == old(projects)
    {
      projectToEdit := Some(p);
      isModalOpen := true;
    }

    /** `handleSaveProject`: the form's mode, not the saved id, decides
        between replacing and appending. */
    method HandleSaveProject(q: Project)
      modifies this`projects
      ensures projectToEdit.Some? ==> projects == ReplaceById(old(projects), q)
      ensures projectToEdit.None? ==> projects == old(projects) + [q]
      ensures projectToEdit.None? ==>
                TotalBudget(projects) == TotalBudget(old(projects)) + q.budget &&
                TotalSpent(projects) == TotalSpent(old(projects)) + q.spent
    {
      if projectToEdit.Some? {
        projects := ReplaceById(projects, q);
      } else {
        TotalsAppend(projects, q);
        projects := projects + [q];
      }
    }

    /** `handleDelete`: `confirmed` is the answer to the confirmation dialog. */
    method HandleDelete(id: string, confirmed: bool)
      modifies this`projects
      ensures projects == if confirmed then RemoveById(old(projects), id) else old(projects)
    {
      if confirmed {
        projects := RemoveById(projects, id);
      }
    }
  }
}
