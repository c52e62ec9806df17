/** The CRM entities of src/types/index.ts. */
module Types {
  import opened Wrappers

  /** A JavaScript `Date`, as milliseconds since the epoch. */
  type Timestamp = int

  datatype CustomerStatus = Active | Inactive | Prospect {
    /** The string literal the front end compares against. */
    function Name(): string {
      match this
      case Active => "active"
      case Inactive => "inactive"
      case Prospect => "prospect"
    }
  }

  datatype DealStage = Prospecting | Qualification | Proposal | Negotiation | Closed | Lost {
    function Name(): string {
      match this
      case Prospecting => "prospecting"
      case Qualification => "qualification"
      case Proposal => "proposal"
      case Negotiation => "negotiation"
      case Closed => "closed"
      case Lost => "lost"
    }
  }

  /** Distinct stages have distinct names, and none of them is the filter value `"all"`. */
  lemma StageNames()
    ensures forall a: DealStage, b: DealStage :: a.Name() == b.Name() ==> a == b
    ensures forall a: DealStage :: a.Name() != "all"
  {
  }

  datatype TaskPriority = Low | Medium | High {
    function Name(): string {
      match this
      case Low => "low"
      case Medium => "medium"
      case High => "high"
    }
  }

  datatype TaskStatus = Pending | InProgress | Completed {
    function Name(): string {
      match this
      case Pending => "pending"
      case InProgress => "in-progress"
      case Completed => "completed"
    }
  }

  datatype Customer = Customer(
    id: string,
    name: string,
    email: string,
    phone: string,
    company: string,
    status: CustomerStatus,
    source: string,
    createdAt: Timestamp,
    lastContact: Timestamp,
    notes: string)

  /** A deal; `value` is an amount of money, whole units. */
  datatype Deal = Deal(
    id: string,
    title: string,
    description: string,
    customerId: string,
    customerName: string,
    value: int,
    stage: DealStage,
    probability: int,
    expectedCloseDate: Timestamp,
    closeDate: Timestamp,
    createdAt: Timestamp,
    notes: string)

  datatype Task = Task(
    id: string,
    title: string,
    description: string,
    customerId: Option<string>,
    dealId: Option<string>,
    dueDate: Timestamp,
    priority: TaskPriority,
    status: TaskStatus,
    assignedTo: string,
    createdAt: Timestamp)

  datatype DashboardStats = DashboardStats(
    totalCustomers: nat,
    totalDeals: nat,
    totalValue: int,
    activeDeals: nat,
    thisMonthRevenue: int,
    conversionRate: int)

  /** `deal.value`, as a function value for `Seqs.Sum`. */
  function DealValue(d: Deal): int {
    d.value
  }

  /** `deal.stage === 'closed'`. */
  predicate IsClosed(d: Deal) {
    d.stage == Closed
  }

  /** `deal.stage !== 'closed'`: a deal still in the pipeline, or lost. */
  predicate IsOpen(d: Deal) {
    d.stage != Closed
  }

  /** `task.status === 'completed'`. */
  predicate IsCompleted(t: Task) {
    t.status == Completed
  }

  /** A list view's drop-down filter (`filter === 'all' || field === filter`): `"all"` lets every value through. */
  predicate Selects(filter: string, field: string) {
    filter == "all" || field == filter
  }

  /** `d.stage === stage`, as a function value for `Seqs.Filter`. */
  function HasStage(stage: DealStage): Deal -> bool {
    (d: Deal) => d.stage == stage
  }
}
