/** The contract list: a status taken from the `status` query parameter and a
    case-sensitive search on customer or product name. */
module Contracts {
  import opened Wrappers
  import opened Text
  import opened Seqs

  /** A contract of the list; `status` uses this page's own spelling. */
  datatype ContractSummary = ContractSummary(id: string, customerName: string, productName: string,
                                             status: string, date: string, amount: string)

  /** The `contracts` list. */
  const ContractList := [
    ContractSummary("1", "김철수", "Premium Suite Membership", "progress", "2024-03-20", "135,000,000"),
    ContractSummary("2", "이영희", "Deluxe Pool Villa", "completed", "2024-03-15", "280,000,000"),
    ContractSummary("3", "박지민", "Ocean View Suite", "hold", "2024-03-10", "120,000,000"),
    ContractSummary("4", "정민수", "Garden Suite", "not-started", "2024-03-05", "180,000,000")
  ]

  datatype StatusBadge = StatusBadge(caption: string, color: string)

  /** `statusInfo`, without the icon components. */
  const StatusInfo: map<string, StatusBadge> := map[
    "progress" := StatusBadge("진행중", "bg-blue-500"),
    "completed" := StatusBadge("완료", "bg-green-500"),
    "hold" := StatusBadge("보류", "bg-yellow-500"),
    "not-started" := StatusBadge("미진행", "bg-gray-500")
  ]

  /** `searchParams.get('status') || 'all'`: absent or empty means every status. */
  function CurrentStatus(statusParam: Option<string>): (s: string)
    ensures s == "all" <==> statusParam.None? || statusParam.value in {"", "all"}
    ensures s != "all" ==> s == statusParam.value
  {
    if statusParam.None? || statusParam.value == "" then "all" else statusParam.value
  }

  predicate Matches(c: ContractSummary, status: string, query: string) {
    && (status == "all" || c.status == status)
    && (Contains(c.customerName, query) || Contains(c.productName, query))
  }

  /** `filteredContracts`. */
  function FilteredContracts(contracts: seq<ContractSummary>, status: string, query: string): (r: seq<ContractSummary>)
    ensures IsSubsequence(r, contracts)
    ensures forall i :: 0 <= i < |r| ==> Matches(r[i], status, query)
    ensures forall i :: 0 <= i < |contracts| && Matches(contracts[i], status, query) ==> contracts[i] in r
    ensures status != "all" ==> forall i :: 0 <= i < |r| ==> r[i].status == status
  {
    Filter(contracts, (c: ContractSummary) => Matches(c, status, query))
  }

  /** No status parameter and an empty search shows all four contracts. */
  lemma EverythingByDefault()
    ensures FilteredContracts(ContractList, CurrentStatus(None), "") == ContractList
    ensures |ContractList| == 4
  {
    forall c: ContractSummary
      ensures Matches(c, "all", "")
    {
      ContainsEmpty(c.customerName);
    }
    FilterKeepsAll(ContractList, (c: ContractSummary) => Matches(c, "all", ""));
  }

  /** A status no contract has, such as a misspelt parameter, empties the list. */
  lemma UnknownStatusShowsNothing(status: string, query: string)
    requires status !in {"all", "progress", "completed", "hold", "not-started"}
    ensures FilteredContracts(ContractList, status, query) == []
  {
    FilterKeepsNone(ContractList, (c: ContractSummary) => Matches(c, status, query));
  }

  /** The search is case-sensitive: "Premium" finds the first contract,
      "premium" does not. */
  lemma SearchIsCaseSensitive()
    ensures ContractList[0] in FilteredContracts(ContractList, "all", "Premium")
    ensures ContractList[0] !in FilteredContracts(ContractList, "all", "premium")
  {
    var c0 := ContractList[0];
    assert OccursAt(c0.productName, "Premium", 0);
    NoLowerP(c0.customerName);
    NoLowerP(c0.productName);
    assert !Matches(c0, "all", "premium");
  }

  /** A string with no `p` that has six characters after it does not
      contain "premium". */
  lemma NoLowerP(s: string)
    requires forall i :: 0 <= i <= |s| - 7 ==> s[i] != 'p'
    ensures !Contains(s, "premium")
  {
    forall i | 0 <= i <= |s| - 7
      ensures !OccursAt(s, "premium", i)
    {
      assert s[i..i + 7][0] == s[i];
    }
  }

  /** Every status in the list has a badge, so rendering a filtered contract
      never misses the table. */
  lemma EveryShownStatusHasBadge(status: string, query: string, c: ContractSummary)
    requires c in FilteredContracts(ContractList, status, query)
    ensures c.status in StatusInfo
  {
    SubsequenceMembers(FilteredContracts(ContractList, status, query), ContractList, c);
  }
}
