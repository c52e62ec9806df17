/**
 * The seed records of src/data/mockData.ts, which every list view and the analytics
 * page read, and what the model computes from them.
 */
module MockData {
  import opened Wrappers
  import opened Seqs
  import opened Types
  import Analytics
  import Server
  import TasksList
  import DealsList

  const MockCustomer1: Customer := Customer("1", "John Smith", "john.smith@acme.com", "+1-555-0123", "Acme Corp", Active, "Website",
      1705276800000, 1710028800000, "Interested in enterprise solution")
  const MockCustomer2: Customer := Customer("2", "Sarah Johnson", "sarah.j@techstart.com", "+1-555-0456", "TechStart Inc", Prospect, "LinkedIn",
      1708387200000, 1709856000000, "Looking for CRM solution")
  const MockCustomer3: Customer := Customer("3", "Mike Wilson", "mike.w@globaltech.com", "+1-555-0789", "GlobalTech Solutions", Active, "Referral",
      1706572800000, 1710201600000, "Current customer, very satisfied")
  const MockCustomer4: Customer := Customer("4", "Emily Davis", "emily.d@innovate.com", "+1-555-0321", "Innovate Labs", Inactive, "Trade Show",
      1707523200000, 1709078400000, "Budget constraints")
  const MockCustomer5: Customer := Customer("5", "David Brown", "david.b@megacorp.com", "+1-555-0654", "MegaCorp Industries", Active, "Cold Call",
      1709251200000, 1710460800000, "Enterprise deal in progress")

  const MockCustomers: seq<Customer> := [MockCustomer1, MockCustomer2, MockCustomer3, MockCustomer4, MockCustomer5]

  const MockDeal1: Deal := Deal("1", "Acme Corp Enterprise License", "Enterprise software license for 500 users", "1", "John Smith",
      50000, Negotiation, 75, 1713139200000, 1713139200000, 1706745600000, "Final contract review in progress")
  const MockDeal2: Deal := Deal("2", "TechStart CRM Implementation", "Complete CRM system implementation and training", "2", "Sarah Johnson",
      25000, Proposal, 60, 1714435200000, 1714435200000, 1709251200000, "Proposal sent, waiting for feedback")
  const MockDeal3: Deal := Deal("3", "GlobalTech Support Renewal", "Annual support and maintenance renewal", "3", "Mike Wilson",
      15000, Closed, 100, 1709251200000, 1709251200000, 1707955200000, "Successfully closed")
  const MockDeal4: Deal := Deal("4", "MegaCorp Multi-Year Contract", "Multi-year enterprise contract with custom features", "5", "David Brown",
      100000, Qualification, 40, 1719705600000, 1719705600000, 1709596800000, "Initial meeting completed")
  const MockDeal5: Deal := Deal("5", "Innovate Labs Pilot Program", "Pilot program for new product line", "4", "Emily Davis",
      5000, Prospecting, 20, 1715731200000, 1715731200000, 1710028800000, "Initial contact made")

  const MockDeals: seq<Deal> := [MockDeal1, MockDeal2, MockDeal3, MockDeal4, MockDeal5]

  const MockTask1: Task := Task("1", "Follow up with Acme Corp", "Call John to discuss contract terms", Some("1"), Some("1"),
      1710892800000, High, Pending, "Sales Team", 1710460800000)
  const MockTask2: Task := Task("2", "Prepare TechStart proposal", "Create detailed proposal for TechStart CRM implementation",
      Some("2"), Some("2"), 1710720000000, Medium, InProgress, "Sales Team", 1710028800000)
  const MockTask3: Task := Task("3", "Schedule MegaCorp demo", "Arrange product demonstration for MegaCorp team", Some("5"), Some("4"),
      1711324800000, Medium, Pending, "Sales Team", 1710201600000)

  const MockTasks: seq<Task> := [MockTask1, MockTask2, MockTask3]

  /** The hard-coded figures of the dashboard cards. */
  const MockDashboardStats: DashboardStats := DashboardStats(5, 5, 195000, 4, 15000, 25)

  /** The server's seed records are the first records of the front end's mock data. */
  lemma SeedIsMockPrefix()
    ensures Server.SeedCustomers == MockCustomers[..2]
    ensures Server.SeedDeals == MockDeals[..1]
    ensures Server.SeedTasks == MockTasks[..1]
  {
  }

  /** 1 when `p` holds of `x`, else 0. */
  function Indicator<T>(p: T -> bool, x: T): nat {
    if p(x) then 1 else 0
  }

  /** `Count` over a five-element sequence, spelled out. */
  lemma CountFive<T(!new)>(p: T -> bool, s: seq<T>)
    requires |s| == 5
    ensures Count(p, s) == Indicator(p, s[0]) + Indicator(p, s[1]) + Indicator(p, s[2]) + Indicator(p, s[3]) + Indicator(p, s[4])
  {
    CountFrom(p, s, 0);
    CountFrom(p, s, 1);
    CountFrom(p, s, 2);
    CountFrom(p, s, 3);
    CountFrom(p, s, 4);
    assert s[0..] == s && s[5..] == [];
  }

  /** `Count` over a three-element sequence, spelled out. */
  lemma CountThree<T(!new)>(p: T -> bool, s: seq<T>)
    requires |s| == 3
    ensures Count(p, s) == Indicator(p, s[0]) + Indicator(p, s[1]) + Indicator(p, s[2])
  {
    CountFrom(p, s, 0);
    CountFrom(p, s, 1);
    CountFrom(p, s, 2);
    assert s[0..] == s && s[3..] == [];
  }

  /** `Sum` over a five-element sequence, spelled out. */
  lemma SumFive<T(!new)>(f: T -> int, s: seq<T>)
    requires |s| == 5
    ensures Sum(f, s) == f(s[0]) + f(s[1]) + f(s[2]) + f(s[3]) + f(s[4])
  {
    SumFrom(f, s, 0);
    SumFrom(f, s, 1);
    SumFrom(f, s, 2);
    SumFrom(f, s, 3);
    SumFrom(f, s, 4);
    assert s[0..] == s && s[5..] == [];
  }

  /** The percentages the mock figures produce. */
  lemma PercentsOfMockSizes()
    ensures Analytics.Percent(1, 5) == Analytics.Finite(20.0)
    ensures Analytics.Percent(3, 5) == Analytics.Finite(60.0)
    ensures Analytics.Percent(0, 3) == Analytics.Finite(0.0)
  {
  }

  /** The dashboard figures are what the server's stats route computes over the mock records. */
  lemma DashboardMatchesServerStats()
    ensures Server.ServerStats(MockCustomers, MockDeals) == MockDashboardStats
  {
    SumFive(DealValue, MockDeals);
    CountFive(IsOpen, MockDeals);
  }

  /** One closed deal in five: the analytics page shows 20% and 15000 of revenue where the dashboard shows 25%. */
  lemma MockConversion()
    ensures Count(IsClosed, MockDeals) == 1
    ensures Analytics.ConversionRate(MockDeals) == Analytics.Finite(20.0)
    ensures Analytics.TotalRevenue(MockDeals) == 15000
    ensures MockDashboardStats.conversionRate != 20
  {
    var d := MockDeals;
    FilterFrom(IsClosed, d, 4);
    assert d[5..] == [];
    FilterFrom(IsClosed, d, 3);
    FilterFrom(IsClosed, d, 2);
    FilterFrom(IsClosed, d, 1);
    FilterFrom(IsClosed, d, 0);
    assert d[0..] == d;
    assert Filter(IsClosed, d) == [d[2]];
    assert [d[2]][1..] == [];
    assert Sum(DealValue, [d[2]]) == 15000;
    PercentsOfMockSizes();
  }

  /** The average mock deal is 39000. */
  lemma MockAverage()
    ensures Analytics.AverageDealSize(MockDeals) == Analytics.Finite(39000.0)
  {
    DashboardMatchesServerStats();
  }

  /** The pipeline chart counts three of the five deals; the prospecting and qualification deals are missing. */
  lemma MockStageChart()
    ensures Analytics.ChartTotal(Analytics.StageChart(MockDeals)) == 3
  {
    Analytics.StageChartTotal(MockDeals);
    MockEarlyStages();
  }

  /** With the deal type's stage names the chart would count all five mock deals. */
  lemma MockCorrectedStageChart()
    ensures Analytics.ChartTotal(Analytics.CorrectedStageChart(MockDeals)) == 5
  {
    Analytics.CorrectedStageChartTotal(MockDeals);
  }

  /** One mock deal is in `prospecting`, one in `qualification`. */
  lemma MockEarlyStages()
    ensures Count(HasStage(Prospecting), MockDeals) == 1
    ensures Count(HasStage(Qualification), MockDeals) == 1
  {
    MockProspecting();
    MockQualification();
  }

  /** Exactly one mock deal is in `prospecting`. */
  lemma MockProspecting()
    ensures Count(HasStage(Prospecting), MockDeals) == 1
  {
    CountFive(HasStage(Prospecting), MockDeals);
  }

  /** Exactly one mock deal is in `qualification`. */
  lemma MockQualification()
    ensures Count(HasStage(Qualification), MockDeals) == 1
  {
    CountFive(HasStage(Qualification), MockDeals);
  }

  /** No mock deal is lost. */
  lemma NoMockDealLost()
    ensures Count(HasStage(Lost), MockDeals) == 0
  {
    CountFive(HasStage(Lost), MockDeals);
  }

  /** The pipeline summary of the deals page counts all five deals, none of them lost. */
  lemma MockPipelineSummary()
    ensures DealsList.Summary(MockDeals).Total() == 5
  {
    NoMockDealLost();
  }

  /** On 19 March 2024 only the in-progress proposal task is overdue. */
  lemma MockTaskStats()
    ensures TasksList.Stats(MockTasks, 1710806400000) == TasksList.TaskStats(3, 0, 2, 1)
  {
    var t := MockTasks;
    CountThree(TasksList.OverdueAt(1710806400000), t);
    CountThree(TasksList.IsPending, t);
    CountThree(IsCompleted, t);
  }

  /** Three of the five customers are active, and no task is completed. */
  lemma MockRates()
    ensures Analytics.ActiveCustomers(MockCustomers) == 3
    ensures Analytics.CustomerGrowth(MockCustomers) == Analytics.Finite(60.0)
    ensures Analytics.TaskCompletionRate(MockTasks) == Analytics.Finite(0.0)
  {
    CountFive(Analytics.IsActive, MockCustomers);
    CountThree(IsCompleted, MockTasks);
    PercentsOfMockSizes();
  }

  /** The sources of the mock customers. */
  const MockSourceNames: set<string> := {"Website", "LinkedIn", "Referral", "Trade Show", "Cold Call"}

  /** The five sources of the mock customers. */
  lemma MockSourceSet()
    ensures Analytics.SourcesOf(MockCustomers) == MockSourceNames
  {
    var c := MockCustomers;
    assert forall x :: x in c ==> x == c[0] || x == c[1] || x == c[2] || x == c[3] || x == c[4];
    assert c[0] in c && c[1] in c && c[2] in c && c[3] in c && c[4] in c;
  }

  /** Each of those sources belongs to exactly one mock customer. */
  lemma MockSourceOnce(k: string)
    requires k in MockSourceNames
    ensures Count(Analytics.HasSource(k), MockCustomers) == 1
  {
    CountFive(Analytics.HasSource(k), MockCustomers);
  }

  /** Every one of the mock sources belongs to exactly one mock customer. */
  lemma MockSourcesOnce()
    ensures forall k :: k in MockSourceNames ==> Count(Analytics.HasSource(k), MockCustomers) == 1
  {
    forall k | k in MockSourceNames ensures Count(Analytics.HasSource(k), MockCustomers) == 1 {
      MockSourceOnce(k);
    }
  }

  /** Customers whose sources all occur once are grouped into a count of 1 per source. */
  lemma EachSourceOnce(customers: seq<Customer>, sources: set<string>)
    requires Analytics.SourcesOf(customers) == sources
    requires forall k :: k in sources ==> Count(Analytics.HasSource(k), customers) == 1
    ensures Analytics.SourceCounts(customers).Keys == sources
    ensures forall k :: k in Analytics.SourceCounts(customers) ==> Analytics.SourceCounts(customers)[k] == 1
  {
    Analytics.SourceCountsExact(customers);
  }

  /** Every mock customer comes from a different source, so the grouping counts each source once. */
  lemma MockSources()
    ensures Analytics.SourceCounts(MockCustomers).Keys == MockSourceNames
    ensures forall k :: k in Analytics.SourceCounts(MockCustomers) ==> Analytics.SourceCounts(MockCustomers)[k] == 1
  {
    MockSourceSet();
    MockSourcesOnce();
    EachSourceOnce(MockCustomers, MockSourceNames);
  }
}
