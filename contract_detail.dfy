/** The staff contract view: free status selection and one checkbox per flag,
    each an update of the shared store, with no automatic promotion. */
module ContractDetail {
  import opened Wrappers
  import opened ContractStore

  /** `handleProgressChange(f)`: flips one flag. */
  function Toggle(st: ContractState, f: Flag): (r: ContractState)
    ensures r.progress.Get(f) == !st.progress.Get(f)
    ensures forall g :: g != f ==> r.progress.Get(g) == st.progress.Get(g)
    ensures r.status == st.status
  {
    ContractState(st.status, Merge(st.progress, Only(f, !st.progress.Get(f))))
  }

  /** Toggling the same checkbox twice restores the contract. */
  lemma ToggleTwice(st: ContractState, f: Flag)
    ensures Toggle(Toggle(st, f), f) == st
  {
    ProgressExtensionality(Toggle(Toggle(st, f), f).progress, st.progress);
  }

  /** Toggling the last unset flag completes the checklist, yet the status
      stays what it was. */
  lemma ToggleNeverPromotes(st: ContractState, f: Flag)
    requires !st.progress.Get(f)
    requires forall g :: g != f ==> st.progress.Get(g)
    requires st.status != Completed
    ensures Toggle(st, f).progress.AllCompleted()
    ensures Toggle(st, f).status != Completed
  {
  }

  /** `handleStatusChange(s)`: any of the four statuses, whatever the flags. */
  function ChangeStatus(st: ContractState, s: Status): (r: ContractState)
    ensures r.status == s
    ensures r.progress == st.progress
  {
    ContractState(s, st.progress)
  }

  /** Staff can mark a contract completed with every flag unset. */
  lemma CompletedWithoutAnyFlag()
    ensures ChangeStatus(InitialState, Completed).status == Completed
    ensures forall f :: !ChangeStatus(InitialState, Completed).progress.Get(f)
  {
  }

  /** The text under each progress tile: the payment tile says `진행중`
      while unpaid, the other three say `대기중` while unset. */
  function TileText(p: Progress, f: Flag): (r: string)
    ensures r == "완료" <==> p.Get(f)
    ensures !p.Get(f) && f == PaymentCompleted ==> r == "진행중"
    ensures !p.Get(f) && f != PaymentCompleted ==> r == "대기중"
  {
    if p.Get(f) then "완료"
    else if f == PaymentCompleted then "진행중"
    else "대기중"
  }

  /** The "check membership" button is rendered only for a completed contract. */
  predicate ShowMembershipButton(st: ContractState) {
    st.status == Completed
  }

  /** In this view the membership button depends on the status alone: a
      toggle never changes it, and choosing a status decides it. */
  lemma MembershipButtonFollowsStatus(st: ContractState, f: Flag, s: Status)
    ensures ShowMembershipButton(Toggle(st, f)) == ShowMembershipButton(st)
    ensures ShowMembershipButton(ChangeStatus(st, s)) <==> s == Completed
  {
  }

  method HandleStatusChange(store: Store, s: Status)
    modifies store
    ensures store.State() == ChangeStatus(old(store.State()), s)
  {
    store.SetStatus(s);
  }

  method HandleProgressChange(store: Store, f: Flag)
    modifies store
    ensures store.State() == Toggle(old(store.State()), f)
  {
    store.SetProgress(Only(f, !store.progress.Get(f)));
  }
}
