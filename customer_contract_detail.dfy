/** The customer-facing contract view: sign, upload a document and pay, each
    one an update of the shared store, and the screen state derived from it. */
module CustomerContractDetail {
  import opened Wrappers
  import opened ContractStore

  /** The `allCompleted` test of the payment handler: every flag of the
      snapshot taken before the call, with the payment flag forced on. */
  predicate AllCompletedAfterPayment(p: Progress) {
    p.(paymentCompleted := true).AllCompleted()
  }

  /** The test succeeds exactly when the three other flags were already set. */
  lemma AllCompletedAfterPaymentIff(p: Progress)
    ensures AllCompletedAfterPayment(p) <==>
      p.signatureCompleted && p.documentsSubmitted && p.documentsVerified
  {
    var q := p.(paymentCompleted := true);
    if p.signatureCompleted && p.documentsSubmitted && p.documentsVerified {
      assert forall f :: q.Get(f);
    } else {
      assert !q.Get(SignatureCompleted) || !q.Get(DocumentsSubmitted) || !q.Get(DocumentsVerified);
    }
  }

  /** `handleSignatureComplete`. */
  function Sign(st: ContractState): (r: ContractState)
    ensures r.progress.signatureCompleted
    ensures forall f :: f != SignatureCompleted ==> r.progress.Get(f) == st.progress.Get(f)
    ensures r.status == st.status
  {
    ContractState(st.status, Merge(st.progress, Only(SignatureCompleted, true)))
  }

  /** `handleFileUpload`, with the chosen file reduced to whether there is one. */
  function Upload(st: ContractState, filePresent: bool): (r: ContractState)
    ensures filePresent ==> r.progress.documentsSubmitted
    ensures filePresent ==> forall f :: f != DocumentsSubmitted ==> r.progress.Get(f) == st.progress.Get(f)
    ensures !filePresent ==> r == st
    ensures r.status == st.status
  {
    if filePresent then ContractState(st.status, Merge(st.progress, Only(DocumentsSubmitted, true)))
    else st
  }

  /** `handlePaymentComplete`: sets the payment flag, then promotes the
      contract to completed when the other three flags were already set. */
  function Pay(st: ContractState): (r: ContractState)
    ensures r.progress.paymentCompleted
    ensures forall f :: f != PaymentCompleted ==> r.progress.Get(f) == st.progress.Get(f)
    ensures st.progress.signatureCompleted && st.progress.documentsSubmitted && st.progress.documentsVerified
      ==> r.status == Completed
    ensures !(st.progress.signatureCompleted && st.progress.documentsSubmitted && st.progress.documentsVerified)
      ==> r.status == st.status
  {
    AllCompletedAfterPaymentIff(st.progress);
    var progress := Merge(st.progress, Only(PaymentCompleted, true));
    ContractState(if AllCompletedAfterPayment(st.progress) then Completed else st.status, progress)
  }

  /** Paying never clears a flag and never sets a status other than
      completed, and a payment that completes the checklist completes the
      contract. */
  lemma PayOnlyAdvances(st: ContractState)
    ensures forall f :: st.progress.Get(f) ==> Pay(st).progress.Get(f)
    ensures Pay(st).status == st.status || Pay(st).status == Completed
    ensures Pay(st).progress.AllCompleted() ==> Pay(st).status == Completed
  {
    var r := Pay(st);
    if !(st.progress.signatureCompleted && st.progress.documentsSubmitted && st.progress.documentsVerified) {
      assert !r.progress.Get(SignatureCompleted) || !r.progress.Get(DocumentsSubmitted) || !r.progress.Get(DocumentsVerified);
      assert !st.progress.Get(SignatureCompleted) || !st.progress.Get(DocumentsSubmitted) || !st.progress.Get(DocumentsVerified);
    } else {
      assert forall f :: r.progress.Get(f);
    }
  }

  /** Signing or uploading again once the flag is set changes nothing: the
      store's merge is harmless to repeat. */
  lemma RepeatedActionsAreHarmless(st: ContractState)
    ensures st.progress.signatureCompleted ==> Sign(st) == st
    ensures st.progress.documentsSubmitted ==> Upload(st, true) == st
    ensures st.progress.paymentCompleted ==> Pay(st).progress == st.progress
  {
    if st.progress.signatureCompleted {
      ProgressExtensionality(Sign(st).progress, st.progress);
    }
    if st.progress.documentsSubmitted {
      ProgressExtensionality(Upload(st, true).progress, st.progress);
    }
    if st.progress.paymentCompleted {
      ProgressExtensionality(Pay(st).progress, st.progress);
    }
  }

  /** The three floating action buttons. */
  datatype Action = SignAction | UploadAction | PayAction

  /** The flag each button's handler sets. */
  function ActionFlag(a: Action): Flag {
    match a
    case SignAction => SignatureCompleted
    case UploadAction => DocumentsSubmitted
    case PayAction => PaymentCompleted
  }

  /** The button's `disabled` attribute. */
  predicate ActionDisabled(p: Progress, a: Action) {
    match a
    case SignAction => p.signatureCompleted
    case UploadAction => p.documentsSubmitted
    case PayAction => p.paymentCompleted
  }

  /** Each button is disabled exactly when its own flag is set, so each
      handler disables its own button and no other. */
  lemma ActionsDisableTheirButtons(st: ContractState, a: Action)
    ensures ActionDisabled(st.progress, a) <==> st.progress.Get(ActionFlag(a))
    ensures ActionDisabled(Sign(st).progress, SignAction)
    ensures ActionDisabled(Upload(st, true).progress, UploadAction)
    ensures ActionDisabled(Pay(st).progress, PayAction)
    ensures a != SignAction ==> (ActionDisabled(Sign(st).progress, a) <==> ActionDisabled(st.progress, a))
    ensures a != UploadAction ==> (ActionDisabled(Upload(st, true).progress, a) <==> ActionDisabled(st.progress, a))
    ensures a != PayAction ==> (ActionDisabled(Pay(st).progress, a) <==> ActionDisabled(st.progress, a))
  {
    assert Sign(st).progress.Get(ActionFlag(a)) == (a == SignAction || st.progress.Get(ActionFlag(a)));
    assert Pay(st).progress.Get(ActionFlag(a)) == (a == PayAction || st.progress.Get(ActionFlag(a)));
  }

  /** The "check membership" button is rendered only for a completed contract. */
  predicate ShowMembershipButton(st: ContractState) {
    st.status == Completed
  }

  /** After paying, the membership button shows exactly when the contract was
      already completed or the other three flags were already set. */
  lemma MembershipButtonAfterPay(st: ContractState)
    ensures ShowMembershipButton(Pay(st)) <==>
      st.status == Completed
      || (st.progress.signatureCompleted && st.progress.documentsSubmitted && st.progress.documentsVerified)
  {
  }

  /** The text under each progress tile: every tile of this view says
      `대기중` while its flag is unset. */
  function TileText(p: Progress, f: Flag): (r: string)
    ensures r == "완료" <==> p.Get(f)
    ensures !p.Get(f) ==> r == "대기중"
  {
    if p.Get(f) then "완료" else "대기중"
  }

  method HandleSignatureComplete(store: Store)
    modifies store
    ensures store.State() == Sign(old(store.State()))
  {
    store.SetProgress(Only(SignatureCompleted, true));
  }

  method HandleFileUpload(store: Store, filePresent: bool)
    modifies store
    ensures store.State() == Upload(old(store.State()), filePresent)
  {
    if filePresent {
      store.SetProgress(Only(DocumentsSubmitted, true));
    }
  }

  /** The handler reads the flags of the render it was created in, which in
      this sequential model is the store before the call. */
  method HandlePaymentComplete(store: Store)
    modifies store
    ensures store.State() == Pay(old(store.State()))
  {
    var snapshot := store.progress;
    store.SetProgress(Only(PaymentCompleted, true));
    if AllCompletedAfterPayment(snapshot) {
      store.SetStatus(Completed);
    }
  }
}
