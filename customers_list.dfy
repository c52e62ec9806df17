/** The logic of src/components/Customers/CustomersList.tsx: search and status filter, badges. */
module CustomersList {
  import opened Text
  import opened Seqs
  import opened Types

  /** The search box: the lower-cased term occurs in the lower-cased name, email or company. */
  predicate MatchesSearch(c: Customer, term: string) {
    Includes(Lower(c.name), Lower(term)) || Includes(Lower(c.email), Lower(term)) || Includes(Lower(c.company), Lower(term))
  }

  /** The row test of `filteredCustomers`: search and status filter together. */
  predicate CustomerMatches(c: Customer, term: string, statusFilter: string) {
    MatchesSearch(c, term) && Selects(statusFilter, c.status.Name())
  }

  function CustomerCriteria(term: string, statusFilter: string): Customer -> bool {
    (c: Customer) => CustomerMatches(c, term, statusFilter)
  }

  /** `filteredCustomers`: the customers shown for the current search term and status filter. */
  function FilteredCustomers(customers: seq<Customer>, term: string, statusFilter: string): (r: seq<Customer>)
    ensures IsSubsequence(r, customers)
    ensures forall c :: c in r <==> c in customers && CustomerMatches(c, term, statusFilter)
    ensures statusFilter != "all" ==> forall c :: c in r ==> c.status.Name() == statusFilter
  {
    Filter(CustomerCriteria(term, statusFilter), customers)
  }

  /** The two criteria combine by conjunction: filtering by one and then the other is filtering by both. */
  lemma FilteredCustomersConjunction(customers: seq<Customer>, term: string, statusFilter: string)
    ensures FilteredCustomers(customers, term, statusFilter)
         == FilteredCustomers(FilteredCustomers(customers, term, "all"), "", statusFilter)
  {
    FilterInStages(customers, term, statusFilter);
  }

  lemma {:induction false} FilterInStages(customers: seq<Customer>, term: string, statusFilter: string)
    ensures Filter(CustomerCriteria(term, statusFilter), customers)
         == Filter(CustomerCriteria("", statusFilter), Filter(CustomerCriteria(term, "all"), customers))
  {
    if |customers| > 0 {
      var c := customers[0];
      IncludesEmpty(Lower(c.name));
      FilterInStages(customers[1..], term, statusFilter);
      var inner := Filter(CustomerCriteria(term, "all"), customers);
      if MatchesSearch(c, term) {
        assert inner == [c] + Filter(CustomerCriteria(term, "all"), customers[1..]);
        assert inner[0] == c && inner[1..] == Filter(CustomerCriteria(term, "all"), customers[1..]);
      }
    }
  }

  /** An empty search with the filter on `"all"` shows every customer. */
  lemma FilteredCustomersUnfiltered(customers: seq<Customer>)
    ensures FilteredCustomers(customers, "", "all") == customers
  {
    forall c | c in customers ensures CustomerCriteria("", "all")(c) {
      IncludesEmpty(Lower(c.name));
    }
    FilterAll(CustomerCriteria("", "all"), customers);
  }

  /** A search term containing the old one, or a status chosen where it was `"all"`, keeps a subsequence. */
  lemma FilteredCustomersTighten(customers: seq<Customer>, term: string, term': string, statusFilter: string, statusFilter': string)
    requires Includes(term', term)
    requires statusFilter == "all" || statusFilter' == statusFilter
    ensures IsSubsequence(FilteredCustomers(customers, term', statusFilter'), FilteredCustomers(customers, term, statusFilter))
  {
    var loose, strict := CustomerCriteria(term, statusFilter), CustomerCriteria(term', statusFilter');
    forall c | c in customers && strict(c) ensures loose(c) {
      LowerKeepsIncludes(term', term);
      if Includes(Lower(c.name), Lower(term')) {
        IncludesTransitive(Lower(c.name), Lower(term'), Lower(term));
      } else if Includes(Lower(c.email), Lower(term')) {
        IncludesTransitive(Lower(c.email), Lower(term'), Lower(term));
      } else {
        IncludesTransitive(Lower(c.company), Lower(term'), Lower(term));
      }
    }
    FilterMonotone(loose, strict, customers);
  }

  /** `getStatusBadgeClass`. */
  function StatusBadgeClass(status: string): (r: string)
    ensures r in {"badge-success", "badge-danger", "badge-warning", "badge-primary"}
  {
    match status
    case "active" => "badge-success"
    case "inactive" => "badge-danger"
    case "prospect" => "badge-warning"
    case _ => "badge-primary"
  }

  /** The badge of each status; any other string gets `badge-primary`. */
  lemma StatusBadgeTable(s: CustomerStatus, other: string)
    ensures StatusBadgeClass(s.Name()) == match s case Active => "badge-success" case Inactive => "badge-danger" case Prospect => "badge-warning"
    ensures other !in {"active", "inactive", "prospect"} ==> StatusBadgeClass(other) == "badge-primary"
  {
  }
}
