/** The logic of src/components/Deals/DealsList.tsx: search and stage filter, pipeline summary, badges. */
module DealsList {
  import opened Text
  import opened Seqs
  import opened Types

  /** The search box: the lower-cased term occurs in the lower-cased title or customer name. */
  predicate MatchesSearch(d: Deal, term: string) {
    Includes(Lower(d.title), Lower(term)) || Includes(Lower(d.customerName), Lower(term))
  }

  /** The row test of `filteredDeals`. */
  predicate DealMatches(d: Deal, term: string, stageFilter: string) {
    MatchesSearch(d, term) && Selects(stageFilter, d.stage.Name())
  }

  function DealCriteria(term: string, stageFilter: string): Deal -> bool {
    (d: Deal) => DealMatches(d, term, stageFilter)
  }

  /** `filteredDeals`: the deals shown for the current search term and stage filter. */
  function FilteredDeals(deals: seq<Deal>, term: string, stageFilter: string): (r: seq<Deal>)
    ensures IsSubsequence(r, deals)
    ensures forall d :: d in r <==> d in deals && DealMatches(d, term, stageFilter)
    ensures forall stage: DealStage :: stageFilter == stage.Name() ==> forall d :: d in r ==> d.stage == stage
    ensures stageFilter != "all" && (forall stage: DealStage :: stageFilter != stage.Name()) ==> r == []
  {
    StageNames();
    var r := Filter(DealCriteria(term, stageFilter), deals);
    assert r != [] ==> r[0] in r;
    r
  }

  /** An empty search with the filter on `"all"` shows every deal. */
  lemma FilteredDealsUnfiltered(deals: seq<Deal>)
    ensures FilteredDeals(deals, "", "all") == deals
  {
    forall d | d in deals ensures DealCriteria("", "all")(d) {
      IncludesEmpty(Lower(d.title));
    }
    FilterAll(DealCriteria("", "all"), deals);
  }

  /** A search term containing the old one, or a stage chosen where it was `"all"`, keeps a subsequence. */
  lemma FilteredDealsTighten(deals: seq<Deal>, term: string, term': string, stageFilter: string, stageFilter': string)
    requires Includes(term', term)
    requires stageFilter == "all" || stageFilter' == stageFilter
    ensures IsSubsequence(FilteredDeals(deals, term', stageFilter'), FilteredDeals(deals, term, stageFilter))
  {
    var loose, strict := DealCriteria(term, stageFilter), DealCriteria(term', stageFilter');
    forall d | d in deals && strict(d) ensures loose(d) {
      LowerKeepsIncludes(term', term);
      if Includes(Lower(d.title), Lower(term')) {
        IncludesTransitive(Lower(d.title), Lower(term'), Lower(term));
      } else {
        IncludesTransitive(Lower(d.customerName), Lower(term'), Lower(term));
      }
    }
    FilterMonotone(loose, strict, deals);
  }

  /** `getStageBadgeClass`. */
  function StageBadgeClass(stage: string): (r: string)
    ensures r in {"badge-warning", "badge-primary", "badge-secondary", "badge-success"}
  {
    match stage
    case "prospecting" => "badge-warning"
    case "qualification" => "badge-primary"
    case "proposal" => "badge-secondary"
    case "negotiation" => "badge-warning"
    case "closed" => "badge-success"
    case _ => "badge-primary"
  }

  /**
   * The badge of every stage: `lost` has no case of its own and falls to `badge-primary`
   * like any unknown string; prospecting and negotiation share `badge-warning`.
   */
  lemma StageBadgeTable(stage: DealStage, other: string)
    ensures StageBadgeClass(stage.Name()) == match stage
      case Prospecting => "badge-warning"
      case Qualification => "badge-primary"
      case Proposal => "badge-secondary"
      case Negotiation => "badge-warning"
      case Closed => "badge-success"
      case Lost => "badge-primary"
    ensures other !in {"prospecting", "qualification", "proposal", "negotiation", "closed"} ==> StageBadgeClass(other) == "badge-primary"
  {
  }

  datatype PipelineSummary = PipelineSummary(prospecting: nat, qualification: nat, proposal: nat, negotiation: nat, closed: nat) {
    function Total(): nat {
      prospecting + qualification + proposal + negotiation + closed
    }
  }

  /**
   * `pipelineSummary`: the number of deals in each stage but `lost`. The five cards add up
   * to every deal that is not lost.
   */
  function Summary(deals: seq<Deal>): (s: PipelineSummary)
    ensures s.Total() + Count(HasStage(Lost), deals) == |deals|
  {
    StageCountsAddUp(deals);
    PipelineSummary(
      Count(HasStage(Prospecting), deals),
      Count(HasStage(Qualification), deals),
      Count(HasStage(Proposal), deals),
      Count(HasStage(Negotiation), deals),
      Count(HasStage(Closed), deals))
  }

  /** Every deal is in exactly one of the six stages. */
  lemma {:induction false} StageCountsAddUp(deals: seq<Deal>)
    ensures Count(HasStage(Prospecting), deals) + Count(HasStage(Qualification), deals)
          + Count(HasStage(Proposal), deals) + Count(HasStage(Negotiation), deals)
          + Count(HasStage(Closed), deals) + Count(HasStage(Lost), deals) == |deals|
  {
    if |deals| > 0 {
      StageCountsAddUp(deals[1..]);
    }
  }
}
