/** What the two detail views do together to the shared store: the
    customer's actions alone never complete a contract, a customer and staff
    member together can, and staff can complete one outright. */
module ContractLifecycle {
  import opened ContractStore
  import CustomerContractDetail
  import ContractDetail

  /** One customer action: sign, choose a file (or cancel the picker), pay. */
  datatype CustomerAction = Sign | Upload(filePresent: bool) | Pay

  function ApplyCustomer(st: ContractState, a: CustomerAction): ContractState {
    match a
    case Sign => CustomerContractDetail.Sign(st)
    case Upload(present) => CustomerContractDetail.Upload(st, present)
    case Pay => CustomerContractDetail.Pay(st)
  }

  /** The store after the customer performs `actions` in order. */
  function RunCustomer(st: ContractState, actions: seq<CustomerAction>): ContractState
    decreases |actions|
  {
    if actions == [] then st else RunCustomer(ApplyCustomer(st, actions[0]), actions[1..])
  }

  /** No customer action sets `documentsVerified`, and paying promotes only
      when it is set, so a contract that is neither verified nor completed
      stays so. */
  lemma {:induction false} CustomerCannotVerify(st: ContractState, actions: seq<CustomerAction>)
    requires !st.progress.documentsVerified && st.status != Completed
    ensures !RunCustomer(st, actions).progress.documentsVerified
    ensures RunCustomer(st, actions).status != Completed
    decreases |actions|
  {
    if actions != [] {
      var next := ApplyCustomer(st, actions[0]);
      assert !next.progress.Get(DocumentsVerified);
      CustomerCannotVerify(next, actions[1..]);
    }
  }

  /** From the initial store, no sequence of customer actions reaches completed. */
  lemma CustomerAloneNeverCompletes(actions: seq<CustomerAction>)
    ensures RunCustomer(InitialState, actions).status != Completed
  {
    CustomerCannotVerify(InitialState, actions);
  }

  /** Sign, upload, staff verification, pay: the contract is completed, every
      flag is set, and the membership button shows in both views. */
  lemma SignUploadVerifyPayCompletes()
    ensures var st := CustomerContractDetail.Pay(
              ContractDetail.Toggle(
                CustomerContractDetail.Upload(CustomerContractDetail.Sign(InitialState), true),
                DocumentsVerified));
            st.status == Completed && st.progress.AllCompleted()
            && CustomerContractDetail.ShowMembershipButton(st)
            && ContractDetail.ShowMembershipButton(st)
  {
    var st := CustomerContractDetail.Pay(
              ContractDetail.Toggle(
                CustomerContractDetail.Upload(CustomerContractDetail.Sign(InitialState), true),
                DocumentsVerified));
    assert forall f :: st.progress.Get(f);
  }

  /** The same flow run against one store object through the handlers. */
  method SignUploadVerifyPay() returns (finalState: ContractState)
    ensures finalState.status == Completed
    ensures finalState.progress.AllCompleted()
  {
    var store := new Store();
    CustomerContractDetail.HandleSignatureComplete(store);
    CustomerContractDetail.HandleFileUpload(store, true);
    ContractDetail.HandleProgressChange(store, DocumentsVerified);
    CustomerContractDetail.HandlePaymentComplete(store);
    finalState := store.State();
    SignUploadVerifyPayCompletes();
  }

  /** Paying last in the customer view promotes; ticking the payment box
      last in the staff view, from the same flags, does not. */
  lemma ViewsDisagreeOnPromotion()
    ensures var st := ContractState(InProgress, Progress(true, true, true, false));
            CustomerContractDetail.Pay(st).status == Completed
            && ContractDetail.Toggle(st, PaymentCompleted).status == InProgress
            && ContractDetail.Toggle(st, PaymentCompleted).progress == CustomerContractDetail.Pay(st).progress
  {
    var st := ContractState(InProgress, Progress(true, true, true, false));
    ProgressExtensionality(ContractDetail.Toggle(st, PaymentCompleted).progress, CustomerContractDetail.Pay(st).progress);
  }

  /** The two views' tiles read alike except for an unpaid payment tile. */
  lemma TilesAgreeExceptUnpaidPayment(p: Progress, f: Flag)
    ensures CustomerContractDetail.TileText(p, f) == ContractDetail.TileText(p, f)
      <==> p.Get(f) || f != PaymentCompleted
  {
  }
}
