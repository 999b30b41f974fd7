/** The donor's dashboard: the projects the signed-in donor funds, their
    indicators, money totals, a count by status and the bar chart's data. */
module DonorDashboard {
  import opened Common
  import opened Records

  /** `user?.id || ''` */
  function DonorKey(user: Option<User>): string
  {
    match user
    case None => ""
    case Some(u) => u.id
  }

  function FundedBy(key: string): Project -> bool
  {
    (p: Project) => key in p.donatorIds
  }

  /** `fundedProjects`: the projects whose donor list holds the donor's id
      (the empty string when nobody is signed in), in their original order. */
  function FundedProjects(ps: seq<Project>, user: Option<User>): (r: seq<Project>)
    ensures IsSubsequence(r, ps)
    ensures forall p :: p in r ==> p in ps && DonorKey(user) in p.donatorIds
    ensures forall p :: p in ps && DonorKey(user) in p.donatorIds ==> p in r
    ensures forall p :: p in ps && DonorKey(user) in p.donatorIds ==>
              multiset(r)[p] == multiset(ps)[p]
  {
    Filter(ps, FundedBy(DonorKey(user)))
  }

  /** When no budget or spending is negative, what a donor sees invested and
      spent never exceeds the totals of all projects. */
  lemma FundedTotalsBounded(ps: seq<Project>, user: Option<User>)
    requires forall p :: p in ps ==> p.budget >= 0 && p.spent >= 0
    ensures TotalBudget(FundedProjects(ps, user)) <= TotalBudget(ps)
    ensures TotalSpent(FundedProjects(ps, user)) <= TotalSpent(ps)
  {
    SelectionTotalsBounded(FundedProjects(ps, user), ps);
  }

  function Remainder(p: Project): int { p.budget - p.spent }

  /** The totals' difference is the sum of what each project has left. */
  lemma {:induction false} RemainingIsSumOfRemainders(funded: seq<Project>)
    ensures TotalBudget(funded) - TotalSpent(funded) == SumOf(funded, Remainder)
  {
    if funded != [] {
      RemainingIsSumOfRemainders(funded[..|funded| - 1]);
    }
  }

  /** The Remaining Budget figure, `totalBudget - totalSpent`: what the funded
      projects have left between them, never negative when no project has
      spent more than its budget. */
  function RemainingBudget(funded: seq<Project>): (r: int)
    ensures r == SumOf(funded, Remainder)
    ensures (forall p :: p in funded ==> p.spent <= p.budget) ==> r >= 0
  {
    RemainingIsSumOfRemainders(funded);
    SumOfFront(funded, Remainder);
    TotalBudget(funded) - TotalSpent(funded)
  }

  datatype StatusSlice = StatusSlice(name: string, value: nat)

  /** `projectsByStatus`: Active, Completed and Planning, in that order.
      Paused projects, and any other status, are not counted. */
  function ProjectsByStatus(funded: seq<Project>): (r: seq<StatusSlice>)
    ensures |r| == 3
    ensures r[0].name == "Active" && r[1].name == "Completed" && r[2].name == "Planning"
    ensures r[0].value + r[1].value + r[2].value +
            |Filter(funded, NoneOf(StatusIs("active"), StatusIs("completed"), StatusIs("planning")))|
            == |funded|
    ensures r[0].value + r[1].value + r[2].value <= |funded|
    ensures r[0].value == CountWhere(funded, StatusIs("active"))
    ensures r[1].value == CountWhere(funded, StatusIs("completed"))
    ensures r[2].value == CountWhere(funded, StatusIs("planning"))
  {
    FilterCount(funded, StatusIs("active"));
    FilterCount(funded, StatusIs("completed"));
    FilterCount(funded, StatusIs("planning"));
    CountPartition3(funded, StatusIs("active"), StatusIs("completed"), StatusIs("planning"));
    [ StatusSlice("Active", |Filter(funded, StatusIs("active"))|),
      StatusSlice("Completed", |Filter(funded, StatusIs("completed"))|),
      StatusSlice("Planning", |Filter(funded, StatusIs("planning"))|) ]
  }

  datatype BudgetBar = BudgetBar(name: string, budget: int, spent: int)

  /** `name.substring(0, n)` for a non-negative `n`: at most the first `n`
      characters. */
  function Take(s: string, n: nat): (r: string)
    ensures r <= s
    ensures |r| == if |s| <= n then |s| else n
  {
    if |s| <= n then s else s[..n]
  }

  /** `budgetData`: one bar per funded project, in order, labelled with at
      most the first ten characters of its name. */
  function BudgetData(funded: seq<Project>): (r: seq<BudgetBar>)
    ensures |r| == |funded|
    ensures forall i :: 0 <= i < |r| ==>
              r[i].name <= funded[i].name &&
              |r[i].name| == (if |funded[i].name| <= 10 then |funded[i].name| else 10) &&
              r[i].budget == funded[i].budget && r[i].spent == funded[i].spent
  {
    seq(|funded|, i requires 0 <= i < |funded| =>
      BudgetBar(Take(funded[i].name, 10), funded[i].budget, funded[i].spent))
  }

  /** The chart's bars add up to the dashboard's totals. */
  lemma {:induction false} BudgetDataTotals(funded: seq<Project>)
    ensures SumOf(BudgetData(funded), BarBudget) == TotalBudget(funded)
    ensures SumOf(BudgetData(funded), BarSpent) == TotalSpent(funded)
  {
    if funded != [] {
      var init := funded[..|funded| - 1];
      BudgetDataTotals(init);
      assert BudgetData(funded)[..|funded| - 1] == BudgetData(init);
    }
  }

  function BarBudget(b: BudgetBar): int { b.budget }

  function BarSpent(b: BudgetBar): int { b.spent }
}
