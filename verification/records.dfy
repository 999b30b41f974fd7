/** The records the pages work on. Only the fields that the modelled logic
    reads are kept; avatars, dates, units and progress values are rendered
    and nothing more. */
module Records {
  import opened Common

  datatype User = User(id: string, name: string, email: string, role: string)

  datatype Project = Project(
    id: string,
    name: string,
    description: string,
    status: string,
    budget: int,
    spent: int,
    chefProjectId: string,
    donatorIds: seq<string>)

  datatype Indicator = Indicator(id: string, projectId: string, name: string)

  function Budget(p: Project): int { p.budget }

  function Spent(p: Project): int { p.spent }

  /** `projects.reduce((sum, p) => sum + p.budget, 0)`: the first budget plus
      the total of the rest, and never negative when no budget is. */
  function TotalBudget(ps: seq<Project>): (r: int)
    ensures ps != [] ==> r == ps[0].budget + SumOf(ps[1..], Budget)
    ensures (forall p :: p in ps ==> p.budget >= 0) ==> r >= 0
  {
    SumOfFront(ps, Budget);
    SumOf(ps, Budget)
  }

  /** `projects.reduce((sum, p) => sum + p.spent, 0)`: the first spending plus
      the total of the rest, and never negative when no spending is. */
  function TotalSpent(ps: seq<Project>): (r: int)
    ensures ps != [] ==> r == ps[0].spent + SumOf(ps[1..], Spent)
    ensures (forall p :: p in ps ==> p.spent >= 0) ==> r >= 0
  {
    SumOfFront(ps, Spent);
    SumOf(ps, Spent)
  }

  /** Appending a project adds its budget and its spending to the totals. */
  lemma TotalsAppend(ps: seq<Project>, p: Project)
    ensures TotalBudget(ps + [p]) == TotalBudget(ps) + p.budget
    ensures TotalSpent(ps + [p]) == TotalSpent(ps) + p.spent
  {
  }

  /** Whenever budgets and spending are never negative, a selection of the
      projects has totals no larger than those of all projects. */
  lemma SelectionTotalsBounded(sel: seq<Project>, ps: seq<Project>)
    requires IsSubsequence(sel, ps)
    requires forall p :: p in ps ==> p.budget >= 0 && p.spent >= 0
    ensures TotalBudget(sel) <= TotalBudget(ps)
    ensures TotalSpent(sel) <= TotalSpent(ps)
  {
    SumOfSubsequence(sel, ps, Budget);
    SumOfSubsequence(sel, ps, Spent);
  }

  function StatusIs(status: string): Project -> bool
  {
    (p: Project) => p.status == status
  }

  /** `projects.some((p) => p.id === i.projectId)` */
  function InProjects(ps: seq<Project>): Indicator -> bool
  {
    (i: Indicator) => exists p | p in ps :: p.id == i.projectId
  }

  /** The indicators that belong to one of `ps`, in their original order
      (the `indicators.filter(... some ...)` shared by the project lead's and
      the donor's pages). */
  function IndicatorsOf(inds: seq<Indicator>, ps: seq<Project>): (r: seq<Indicator>)
    ensures IsSubsequence(r, inds)
    ensures forall i :: i in r ==> i in inds && exists p :: p in ps && p.id == i.projectId
    ensures forall i :: i in inds && (exists p :: p in ps && p.id == i.projectId) ==> i in r
    ensures forall i :: i in inds && (exists p :: p in ps && p.id == i.projectId) ==>
              multiset(r)[i] == multiset(inds)[i]
  {
    Filter(inds, InProjects(ps))
  }
}
