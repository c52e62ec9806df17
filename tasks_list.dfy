/** The logic of src/components/Tasks/TasksList.tsx: search and filters, statistics, badges. */
module TasksList {
  import opened Text
  import opened Seqs
  import opened Types

  /** The search box: the lower-cased term occurs in the lower-cased title or description. */
  predicate MatchesSearch(t: Task, term: string) {
    Includes(Lower(t.title), Lower(term)) || Includes(Lower(t.description), Lower(term))
  }

  /** The row test of `filteredTasks`: search, status filter and priority filter together. */
  predicate TaskMatches(t: Task, term: string, statusFilter: string, priorityFilter: string) {
    MatchesSearch(t, term) && Selects(statusFilter, t.status.Name()) && Selects(priorityFilter, t.priority.Name())
  }

  function TaskCriteria(term: string, statusFilter: string, priorityFilter: string): Task -> bool {
    (t: Task) => TaskMatches(t, term, statusFilter, priorityFilter)
  }

  /** `filteredTasks`: the tasks shown for the current search term and filters. */
  function FilteredTasks(tasks: seq<Task>, term: string, statusFilter: string, priorityFilter: string): (r: seq<Task>)
    ensures IsSubsequence(r, tasks)
    ensures forall t :: t in r <==> t in tasks && TaskMatches(t, term, statusFilter, priorityFilter)
    ensures statusFilter != "all" ==> forall t :: t in r ==> t.status.Name() == statusFilter
    ensures priorityFilter != "all" ==> forall t :: t in r ==> t.priority.Name() == priorityFilter
  {
    Filter(TaskCriteria(term, statusFilter, priorityFilter), tasks)
  }

  /** An empty search with both filters on `"all"` shows every task. */
  lemma FilteredTasksUnfiltered(tasks: seq<Task>)
    ensures FilteredTasks(tasks, "", "all", "all") == tasks
  {
    forall t | t in tasks ensures TaskCriteria("", "all", "all")(t) {
      IncludesEmpty(Lower(t.title));
    }
    FilterAll(TaskCriteria("", "all", "all"), tasks);
  }

  /**
   * Tightening the criteria never adds rows: a search term containing the old one,
   * or a status or priority filter set where it was `"all"`, keeps a subsequence.
   */
  lemma FilteredTasksTighten(tasks: seq<Task>, term: string, term': string,
                             statusFilter: string, statusFilter': string,
                             priorityFilter: string, priorityFilter': string)
    requires Includes(term', term)
    requires statusFilter == "all" || statusFilter' == statusFilter
    requires priorityFilter == "all" || priorityFilter' == priorityFilter
    ensures IsSubsequence(FilteredTasks(tasks, term', statusFilter', priorityFilter'),
                          FilteredTasks(tasks, term, statusFilter, priorityFilter))
  {
    var loose, strict := TaskCriteria(term, statusFilter, priorityFilter), TaskCriteria(term', statusFilter', priorityFilter');
    forall t | t in tasks && strict(t) ensures loose(t) {
      LowerKeepsIncludes(term', term);
      if Includes(Lower(t.title), Lower(term')) {
        IncludesTransitive(Lower(t.title), Lower(term'), Lower(term));
      } else {
        IncludesTransitive(Lower(t.description), Lower(term'), Lower(term));
      }
    }
    FilterMonotone(loose, strict, tasks);
  }

  predicate IsPending(t: Task) {
    t.status == Pending
  }

  /**
   * A task is overdue at `now` when its due date is before `now` and it is not completed.
   * The statistics card and the red due date in the table use this same test.
   */
  predicate IsOverdue(t: Task, now: Timestamp) {
    t.dueDate < now && t.status != Completed
  }

  function OverdueAt(now: Timestamp): Task -> bool {
    (t: Task) => IsOverdue(t, now)
  }

  datatype TaskStats = TaskStats(total: nat, completed: nat, pending: nat, overdue: nat)

  /** `taskStats`, with `new Date()` passed in as `now`. */
  function Stats(tasks: seq<Task>, now: Timestamp): (r: TaskStats)
    ensures r.total == |tasks|
    ensures r.completed + r.pending <= r.total
    ensures r.overdue + r.completed <= r.total
  {
    CountDisjoint(IsCompleted, IsPending, tasks);
    CountDisjoint(OverdueAt(now), IsCompleted, tasks);
    TaskStats(|tasks|, Count(IsCompleted, tasks), Count(IsPending, tasks), Count(OverdueAt(now), tasks))
  }

  /** A task due before `now` stays overdue as the clock advances until it is completed. */
  lemma OverdueLater(t: Task, now: Timestamp, later: Timestamp)
    requires now <= later
    ensures IsOverdue(t, now) ==> IsOverdue(t, later)
    ensures IsCompleted(t) ==> !IsOverdue(t, now)
  {
  }

  /** With the tasks unchanged, the overdue count of the statistics card never falls as time passes. */
  lemma OverdueCountGrows(tasks: seq<Task>, now: Timestamp, later: Timestamp)
    requires now <= later
    ensures Count(OverdueAt(now), tasks) <= Count(OverdueAt(later), tasks)
  {
    CountMonotone(OverdueAt(later), OverdueAt(now), tasks);
  }

  const DueDanger: string := "text-danger-600 font-semibold"

  /** The class of the due date in the table: red exactly when the task is overdue. */
  function TableDueDateClass(t: Task, now: Timestamp): (r: string)
    ensures r == DueDanger <==> IsOverdue(t, now)
    ensures !IsOverdue(t, now) ==> r == "text-gray-600"
  {
    if t.dueDate < now && t.status != Completed then DueDanger else "text-gray-600"
  }

  /** The class of the due date on a mobile card: red exactly when the task is overdue, otherwise none. */
  function CardDueDateClass(t: Task, now: Timestamp): (r: string)
    ensures r == DueDanger <==> IsOverdue(t, now)
    ensures !IsOverdue(t, now) ==> r == ""
  {
    if t.dueDate < now && t.status != Completed then DueDanger else ""
  }

  /**
   * The table and the cards render the filtered tasks, while the statistics card counts all
   * of them: the red due dates are at most the overdue count, and exactly as many when
   * nothing is filtered.
   */
  lemma RedDueDatesAreOverdue(tasks: seq<Task>, term: string, statusFilter: string, priorityFilter: string, now: Timestamp)
    ensures Count((t: Task) => TableDueDateClass(t, now) == DueDanger, FilteredTasks(tasks, term, statusFilter, priorityFilter))
      <= Stats(tasks, now).overdue
    ensures Count((t: Task) => CardDueDateClass(t, now) == DueDanger, FilteredTasks(tasks, term, statusFilter, priorityFilter))
      <= Stats(tasks, now).overdue
    ensures term == "" && statusFilter == "all" && priorityFilter == "all" ==>
      Count((t: Task) => TableDueDateClass(t, now) == DueDanger, FilteredTasks(tasks, term, statusFilter, priorityFilter))
        == Stats(tasks, now).overdue
      && Count((t: Task) => CardDueDateClass(t, now) == DueDanger, FilteredTasks(tasks, term, statusFilter, priorityFilter))
        == Stats(tasks, now).overdue
  {
    var shown := FilteredTasks(tasks, term, statusFilter, priorityFilter);
    CountSame((t: Task) => TableDueDateClass(t, now) == DueDanger, OverdueAt(now), shown);
    CountSame((t: Task) => CardDueDateClass(t, now) == DueDanger, OverdueAt(now), shown);
    CountSubsequence(OverdueAt(now), shown, tasks);
    FilteredTasksUnfiltered(tasks);
  }

  /** `getPriorityBadgeClass`. */
  function PriorityBadgeClass(priority: string): (r: string)
    ensures r in {"badge-danger", "badge-warning", "badge-success", "badge-primary"}
  {
    match priority
    case "high" => "badge-danger"
    case "medium" => "badge-warning"
    case "low" => "badge-success"
    case _ => "badge-primary"
  }

  /** `getStatusBadgeClass`. */
  function StatusBadgeClass(status: string): (r: string)
    ensures r in {"badge-success", "badge-primary", "badge-warning"}
  {
    match status
    case "completed" => "badge-success"
    case "in-progress" => "badge-primary"
    case "pending" => "badge-warning"
    case _ => "badge-primary"
  }

  /** The badge each priority and status of a task gets; values outside the enumerations get `badge-primary`. */
  lemma BadgeTable(p: TaskPriority, s: TaskStatus, other: string)
    ensures PriorityBadgeClass(p.Name()) == match p case High => "badge-danger" case Medium => "badge-warning" case Low => "badge-success"
    ensures StatusBadgeClass(s.Name()) == match s case Completed => "badge-success" case InProgress => "badge-primary" case Pending => "badge-warning"
    ensures other !in {"high", "medium", "low"} ==> PriorityBadgeClass(other) == "badge-primary"
    ensures other !in {"completed", "in-progress", "pending"} ==> StatusBadgeClass(other) == "badge-primary"
  {
  }
}
