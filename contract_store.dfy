/** The shared contract progress store: one contract's lifecycle status and
    its four-flag checklist, read and written by the staff and the customer
    detail views. */
module ContractStore {
  import opened Wrappers

  datatype Status = NotStarted | InProgress | Completed | OnHold

  /** The names of the four checklist flags (`keyof ContractProgress`). */
  datatype Flag = SignatureCompleted | DocumentsSubmitted | DocumentsVerified | PaymentCompleted

  datatype Progress = Progress(
    signatureCompleted: bool,
    documentsSubmitted: bool,
    documentsVerified: bool,
    paymentCompleted: bool)
  {
    /** `progress[f]`. */
    function Get(f: Flag): bool {
      match f
      case SignatureCompleted => signatureCompleted
      case DocumentsSubmitted => documentsSubmitted
      case DocumentsVerified => documentsVerified
      case PaymentCompleted => paymentCompleted
    }

    /** Every flag is set. */
    predicate AllCompleted() {
      forall f: Flag :: Get(f)
    }
  }

  /** `Partial<ContractProgress>`: a flag that is `None` is not named by the update. */
  datatype PartialProgress = PartialProgress(
    signatureCompleted: Option<bool>,
    documentsSubmitted: Option<bool>,
    documentsVerified: Option<bool>,
    paymentCompleted: Option<bool>)
  {
    function Get(f: Flag): Option<bool> {
      match f
      case SignatureCompleted => signatureCompleted
      case DocumentsSubmitted => documentsSubmitted
      case DocumentsVerified => documentsVerified
      case PaymentCompleted => paymentCompleted
    }
  }

  /** The partial update that names `f` only, with value `b` (`{ [f]: b }`). */
  function Only(f: Flag, b: bool): (p: PartialProgress)
    ensures p.Get(f) == Some(b)
    ensures forall g :: g != f ==> p.Get(g) == None
  {
    match f
    case SignatureCompleted => PartialProgress(Some(b), None, None, None)
    case DocumentsSubmitted => PartialProgress(None, Some(b), None, None)
    case DocumentsVerified => PartialProgress(None, None, Some(b), None)
    case PaymentCompleted => PartialProgress(None, None, None, Some(b))
  }

  /** `{ ...p, ...patch }`: the flags the patch names take its values, the others keep theirs. */
  function Merge(p: Progress, patch: PartialProgress): (r: Progress)
    ensures forall f :: patch.Get(f).Some? ==> r.Get(f) == patch.Get(f).value
    ensures forall f :: patch.Get(f).None? ==> r.Get(f) == p.Get(f)
  {
    Progress(
      patch.signatureCompleted.GetOr(p.signatureCompleted),
      patch.documentsSubmitted.GetOr(p.documentsSubmitted),
      patch.documentsVerified.GetOr(p.documentsVerified),
      patch.paymentCompleted.GetOr(p.paymentCompleted))
  }

  /** Two checklists that agree on every flag are the same checklist. */
  lemma ProgressExtensionality(p: Progress, q: Progress)
    requires forall f :: p.Get(f) == q.Get(f)
    ensures p == q
  {
    assert p.Get(SignatureCompleted) == q.Get(SignatureCompleted);
    assert p.Get(DocumentsSubmitted) == q.Get(DocumentsSubmitted);
    assert p.Get(DocumentsVerified) == q.Get(DocumentsVerified);
    assert p.Get(PaymentCompleted) == q.Get(PaymentCompleted);
  }

  /** Applying the same partial update twice is the same as applying it once. */
  lemma MergeIdempotent(p: Progress, patch: PartialProgress)
    ensures Merge(Merge(p, patch), patch) == Merge(p, patch)
  {
    ProgressExtensionality(Merge(Merge(p, patch), patch), Merge(p, patch));
  }

  /** An update that names no flag changes nothing. */
  lemma MergeNothing(p: Progress)
    ensures Merge(p, PartialProgress(None, None, None, None)) == p
  {
  }

  /** Merging `{ [f]: b }` sets `f` to `b` and leaves the other three flags alone. */
  lemma MergeOnly(p: Progress, f: Flag, b: bool)
    ensures Merge(p, Only(f, b)).Get(f) == b
    ensures forall g :: g != f ==> Merge(p, Only(f, b)).Get(g) == p.Get(g)
  {
  }

  /** The whole store as a value. */
  datatype ContractState = ContractState(status: Status, progress: Progress)

  const NoProgress := Progress(false, false, false, false)

  /** `initialState`: in progress, nothing done. */
  const InitialState := ContractState(InProgress, NoProgress)

  lemma InitialStateHasNoFlags()
    ensures InitialState.status == InProgress
    ensures forall f :: !InitialState.progress.Get(f)
  {
  }

  /** The zustand store created by `useContractStore`. */
  class Store {
    var status: Status
    var progress: Progress

    function State(): ContractState
      reads this
    {
      ContractState(status, progress)
    }

    constructor ()
      ensures State() == InitialState
    {
      status := InProgress;
      progress := NoProgress;
    }

    /** `setStatus`: overwrites the status, whatever the flags say. */
    method SetStatus(s: Status)
      modifies this
      ensures status == s
      ensures progress == old(progress)
    {
      status := s;
    }

    /** `setProgress`: merges a partial update into the flags. */
    method SetProgress(patch: PartialProgress)
      modifies this
      ensures progress == Merge(old(progress), patch)
      ensures status == old(status)
    {
      progress := Merge(progress, patch);
    }

    /** `reset`: back to the initial state from any state. */
    method Reset()
      modifies this
      ensures State() == InitialState
    {
      status := InitialState.status;
      progress := InitialState.progress;
    }
  }

  /** `reset(); reset()` leaves the store as `reset()` does. */
  method ResetTwice(store: Store)
    modifies store
    ensures store.State() == InitialState
  {
    store.Reset();
    store.Reset();
  }

  /** No store operation keeps "completed implies every flag": from the
      initial state, `setStatus(completed)` yields a completed contract with no
      flag set. */
  method CompletedWithoutFlags() returns (s: ContractState)
    ensures s.status == Completed
    ensures !s.progress.AllCompleted()
  {
    var store := new Store();
    store.SetStatus(Completed);
    s := store.State();
    assert !s.progress.Get(SignatureCompleted);
  }
}
