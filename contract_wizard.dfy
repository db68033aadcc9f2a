/** The contract creation wizard: four linear steps with validation on the
    way forward, and the editable list of payment instalments. */
module ContractWizard {
  import opened Text
  import opened Seqs
  import opened Formatters

  datatype Step = BasicInfo | Payment | Terms | Signature

  /** Position of a step in `['basic-info', 'payment', 'terms', 'signature']`. */
  function StepIndex(s: Step): nat {
    match s
    case BasicInfo => 0
    case Payment => 1
    case Terms => 2
    case Signature => 3
  }

  /** The validation notices that block the way forward. */
  datatype ValidationError = NameRequired | ResidentNumberRequired | PhoneNumberRequired | TermsNotAccepted

  /** What pressing "next" did: moved one step on, showed a notice, or left the
      wizard for the contract detail page. */
  datatype NextOutcome = Advanced | Rejected(error: ValidationError) | ExitTo(path: string)

  datatype Transition = Transition(step: Step, outcome: NextOutcome)

  const ContractDetailPath := "/contract/1"

  /** `handleNextStep`, on the fields it reads. */
  function NextStep(step: Step, customerName: string, residentNumber: string,
                    phoneNumber: string, termsAccepted: bool): (t: Transition)
    ensures t.outcome == Advanced <==> t.step != step
    ensures t.outcome == Advanced ==> StepIndex(t.step) == StepIndex(step) + 1
    ensures t.outcome.ExitTo? <==> step == Signature
    ensures t.outcome.ExitTo? ==> t.outcome.path == ContractDetailPath
    ensures t.outcome.Rejected? ==> step == BasicInfo || step == Terms
  {
    match step
    case BasicInfo =>
      if Trim(customerName) == [] then Transition(step, Rejected(NameRequired))
      else if |residentNumber| < 14 then Transition(step, Rejected(ResidentNumberRequired))
      else if |phoneNumber| < 12 then Transition(step, Rejected(PhoneNumberRequired))
      else Transition(Payment, Advanced)
    case Payment => Transition(Terms, Advanced)
    case Terms =>
      if !termsAccepted then Transition(step, Rejected(TermsNotAccepted))
      else Transition(Signature, Advanced)
    case Signature => Transition(step, ExitTo(ContractDetailPath))
  }

  /** `handlePreviousStep`: one step back, nothing before the first step. */
  function PreviousStep(step: Step): (r: Step)
    ensures StepIndex(r) == if step == BasicInfo then 0 else StepIndex(step) - 1
  {
    match step
    case BasicInfo => BasicInfo
    case Payment => BasicInfo
    case Terms => Payment
    case Signature => Terms
  }

  /** The first step is left exactly when the three checks pass, in the
      order name, resident number, phone number; a failed check names itself. */
  lemma BasicInfoGuard(name: string, rrn: string, phone: string, terms: bool)
    ensures var t := NextStep(BasicInfo, name, rrn, phone, terms);
      && (t.step == Payment <==> (exists i :: 0 <= i < |name| && !IsWhitespace(name[i])) && |rrn| >= 14 && |phone| >= 12)
      && (t.outcome == Rejected(NameRequired) <==> forall i :: 0 <= i < |name| ==> IsWhitespace(name[i]))
      && (t.outcome == Rejected(ResidentNumberRequired) <==>
            (exists i :: 0 <= i < |name| && !IsWhitespace(name[i])) && |rrn| < 14)
      && (t.outcome == Rejected(PhoneNumberRequired) <==>
            (exists i :: 0 <= i < |name| && !IsWhitespace(name[i])) && |rrn| >= 14 && |phone| < 12)
      && (t.step != Payment ==> t.step == BasicInfo && t.outcome.Rejected?)
  {
    TrimEmptyIff(name);
  }

  /** On fields holding formatter output, the length checks mean a full
      thirteen-digit resident number and a phone number of ten or more digits. */
  lemma BasicInfoGuardOnTypedInput(name: string, typedRrn: string, typedPhone: string, terms: bool)
    ensures NextStep(BasicInfo, name, FormatResidentNumber(typedRrn), FormatPhoneNumber(typedPhone), terms).step == Payment
      <==> Trim(name) != [] && |Digits(typedRrn)| >= 13 && |Digits(typedPhone)| >= 10
  {
    ResidentNumberComplete(typedRrn);
    PhoneNumberComplete(typedPhone);
  }

  /** Some concrete runs of the first step: a blank name, and a fourteen
      character resident number with a twelve character phone number. */
  lemma BasicInfoExamples()
    ensures NextStep(BasicInfo, "", "123456-1234567", "010-1234-5678", false) == Transition(BasicInfo, Rejected(NameRequired))
    ensures NextStep(BasicInfo, "  ", "123456-1234567", "010-1234-5678", false) == Transition(BasicInfo, Rejected(NameRequired))
    ensures NextStep(BasicInfo, "김철수", "123456-1234567", "010-123-4567", false) == Transition(Payment, Advanced)
    ensures NextStep(BasicInfo, "김철수", "123456-123456", "010-123-4567", false) == Transition(BasicInfo, Rejected(ResidentNumberRequired))
  {
    BasicInfoGuard("", "123456-1234567", "010-1234-5678", false);
    BasicInfoGuard("  ", "123456-1234567", "010-1234-5678", false);
    assert !IsWhitespace("김철수"[0]);
    BasicInfoGuard("김철수", "123456-1234567", "010-123-4567", false);
    BasicInfoGuard("김철수", "123456-123456", "010-123-4567", false);
  }

  /** The later steps: payment always moves on, terms moves on only when
      accepted, signature leaves the wizard and keeps its step. */
  lemma LaterStepGuards(name: string, rrn: string, phone: string, terms: bool)
    ensures NextStep(Payment, name, rrn, phone, terms) == Transition(Terms, Advanced)
    ensures NextStep(Terms, name, rrn, phone, terms).step == Signature <==> terms
    ensures NextStep(Signature, name, rrn, phone, terms) == Transition(Signature, ExitTo(ContractDetailPath))
  {
  }

  /** "Previous" undoes every "next" that moved, and does nothing on the first step. */
  lemma PreviousUndoesNext(step: Step, name: string, rrn: string, phone: string, terms: bool)
    ensures NextStep(step, name, rrn, phone, terms).outcome == Advanced ==>
      PreviousStep(NextStep(step, name, rrn, phone, terms).step) == step
    ensures PreviousStep(BasicInfo) == BasicInfo
  {
  }

  // ---- payment schedule -------------------------------------------------

  /** One instalment; `kind` is the TypeScript record's `type` field. */
  datatype PaymentSchedule = PaymentSchedule(id: string, kind: string, amount: int, dueDate: string)

  /** `updatePaymentSchedule`'s `(field, value)` pair, one case per key of the record. */
  datatype FieldUpdate = SetId(id: string) | SetKind(kind: string) | SetAmount(amount: int) | SetDueDate(dueDate: string)

  /** `{ ...schedule, [field]: value }`. */
  function ApplyUpdate(e: PaymentSchedule, u: FieldUpdate): (r: PaymentSchedule)
    ensures r.id == if u.SetId? then u.id else e.id
    ensures r.kind == if u.SetKind? then u.kind else e.kind
    ensures r.amount == if u.SetAmount? then u.amount else e.amount
    ensures r.dueDate == if u.SetDueDate? then u.dueDate else e.dueDate
  {
    match u
    case SetId(v) => e.(id := v)
    case SetKind(v) => e.(kind := v)
    case SetAmount(v) => e.(amount := v)
    case SetDueDate(v) => e.(dueDate := v)
  }

  function DigitChar(n: nat): (c: char)
    requires n < 10
    ensures IsDigit(c)
  {
    ('0' as int + n) as char
  }

  /** The number a string of decimal digits denotes, most significant digit first. */
  function DecimalValue(s: string): nat
    requires AllDigits(s)
  {
    if s == [] then 0 else 10 * DecimalValue(s[..|s| - 1]) + (s[|s| - 1] as int - '0' as int)
  }

  /** `String(n)` for a natural number: its decimal digits, most significant first. */
  function NatToString(n: nat): (r: string)
    ensures 1 <= |r|
    ensures AllDigits(r)
    ensures DecimalValue(r) == n
    ensures |r| > 1 ==> r[0] != '0'
    ensures n >= 10 ==> |r| >= 2
    decreases n
  {
    if n < 10 then [DigitChar(n)]
    else
      var r := NatToString(n / 10) + [DigitChar(n % 10)];
      assert r[..|r| - 1] == NatToString(n / 10);
      r
  }

  /** A decimal numeral without leading zeros is the string of its own value. */
  lemma {:induction false} CanonicalNumeral(r: string)
    requires 1 <= |r| && AllDigits(r) && (|r| > 1 ==> r[0] != '0')
    ensures NatToString(DecimalValue(r)) == r
    decreases |r|
  {
    var d := r[|r| - 1] as int - '0' as int;
    if |r| == 1 {
      assert DigitChar(d) == r[0];
    } else {
      var r' := r[..|r| - 1];
      assert r'[0] == r[0];
      CanonicalNumeral(r');
      var m := DecimalValue(r');
      assert m >= 1;
      assert DecimalValue(r) == 10 * m + d;
      assert (10 * m + d) / 10 == m && (10 * m + d) % 10 == d;
      assert DigitChar(d) == r[|r| - 1];
      assert r == r' + [r[|r| - 1]];
    }
  }

  /** Distinct numbers get distinct strings. */
  lemma NatToStringInjective(m: nat, n: nat)
    ensures NatToString(m) == NatToString(n) <==> m == n
  {
  }

  /** Only the number one is written "1". */
  lemma NatToStringIsOne(n: nat)
    ensures NatToString(n) == "1" <==> n == 1
  {
    if n < 10 && NatToString(n) == "1" {
      assert DigitChar(n) == '1';
    }
  }

  const InitialSchedules := [PaymentSchedule("1", "계약금", 10000000, "2024-03-20")]

  /** The instalment `addPaymentSchedule` appends to a list of `n` entries. */
  function NewSchedule(n: nat): PaymentSchedule {
    PaymentSchedule(NatToString(n + 1), "중도금", 0, "")
  }

  /** `addPaymentSchedule`. */
  function AddSchedule(s: seq<PaymentSchedule>): (r: seq<PaymentSchedule>)
    ensures |r| == |s| + 1
    ensures r[..|s|] == s
    ensures r[|s|] == PaymentSchedule(NatToString(|s| + 1), "중도금", 0, "")
  {
    s + [NewSchedule(|s|)]
  }

  /** `removePaymentSchedule`: keep the entries whose id differs. */
  function RemoveSchedule(s: seq<PaymentSchedule>, id: string): (r: seq<PaymentSchedule>)
    ensures IsSubsequence(r, s)
    ensures forall i :: 0 <= i < |r| ==> r[i].id != id
    ensures forall i :: 0 <= i < |s| && s[i].id != id ==> s[i] in r
    ensures forall x :: multiset(r)[x] == if x.id != id then multiset(s)[x] else 0
  {
    FilterCounts(s, (e: PaymentSchedule) => e.id != id);
    Filter(s, (e: PaymentSchedule) => e.id != id)
  }

  /** `updatePaymentSchedule`: the entries with that id take the update; the rest stay. */
  function UpdateSchedule(s: seq<PaymentSchedule>, id: string, u: FieldUpdate): (r: seq<PaymentSchedule>)
    ensures |r| == |s|
    ensures forall i :: 0 <= i < |s| ==> r[i] == if s[i].id == id then ApplyUpdate(s[i], u) else s[i]
  {
    seq(|s|, i requires 0 <= i < |s| => if s[i].id == id then ApplyUpdate(s[i], u) else s[i])
  }

  /** No two entries share an id. */
  predicate UniqueIds(s: seq<PaymentSchedule>) {
    forall i, j :: 0 <= i < j < |s| ==> s[i].id != s[j].id
  }

  /** With unique ids, removing the id of entry `k` deletes that entry alone. */
  lemma RemoveUniqueDeletesOne(s: seq<PaymentSchedule>, k: nat)
    requires UniqueIds(s) && k < |s|
    ensures RemoveSchedule(s, s[k].id) == s[..k] + s[k + 1..]
    ensures |RemoveSchedule(s, s[k].id)| == |s| - 1
  {
    var id := s[k].id;
    var keep := (e: PaymentSchedule) => e.id != id;
    assert s == s[..k] + ([s[k]] + s[k + 1..]);
    FilterAppend(s[..k], [s[k]] + s[k + 1..], keep);
    FilterAppend([s[k]], s[k + 1..], keep);
    FilterKeepsAll(s[..k], keep);
    FilterKeepsAll(s[k + 1..], keep);
    assert Filter([s[k]], keep) == [];
  }

  /** The list always has its seeded first entry, with id "1", and no later
      entry carries that id. */
  predicate FirstEntryKept(s: seq<PaymentSchedule>) {
    |s| >= 1 && s[0].id == "1" && forall i :: 1 <= i < |s| ==> s[i].id != "1"
  }

  lemma InitialSchedulesKeepFirst()
    ensures FirstEntryKept(InitialSchedules) && UniqueIds(InitialSchedules)
  {
  }

  /** An added entry's id is at least "2", so it never copies the first id. */
  lemma AddKeepsFirst(s: seq<PaymentSchedule>)
    requires FirstEntryKept(s)
    ensures FirstEntryKept(AddSchedule(s))
    ensures AddSchedule(s)[0] == s[0]
  {
    NatToStringIsOne(|s| + 1);
  }

  /** Removing by the id of a row after the first, the only rows with a
      remove button, keeps the first entry in place. */
  lemma RemoveLaterKeepsFirst(s: seq<PaymentSchedule>, k: nat)
    requires FirstEntryKept(s) && 1 <= k < |s|
    ensures FirstEntryKept(RemoveSchedule(s, s[k].id))
    ensures RemoveSchedule(s, s[k].id)[0] == s[0]
  {
    var id := s[k].id;
    var keep := (e: PaymentSchedule) => e.id != id;
    var rest := Filter(s[1..], keep);
    assert RemoveSchedule(s, id) == [s[0]] + rest;
    forall i | 0 <= i < |rest|
      ensures rest[i].id != "1"
    {
      assert rest[i] in s[1..];
    }
  }

  /** Editing the type, amount or date of any entry keeps the first entry. */
  lemma UpdateKeepsFirst(s: seq<PaymentSchedule>, id: string, u: FieldUpdate)
    requires FirstEntryKept(s) && !u.SetId?
    ensures FirstEntryKept(UpdateSchedule(s, id, u))
    ensures UpdateSchedule(s, id, u)[0].id == "1"
  {
  }

  /** Row `i` carries the id `String(i + 1)`, as rows appended by `AddSchedule` do. */
  predicate IdsArePositions(s: seq<PaymentSchedule>) {
    forall i :: 0 <= i < |s| ==> s[i].id == NatToString(i + 1)
  }

  lemma PositionIdsAreUnique(s: seq<PaymentSchedule>)
    requires IdsArePositions(s)
    ensures UniqueIds(s)
  {
    forall i, j | 0 <= i < j < |s|
      ensures s[i].id != s[j].id
    {
      NatToStringInjective(i + 1, j + 1);
    }
  }

  /** Adding keeps ids equal to positions. */
  lemma AddKeepsPositions(s: seq<PaymentSchedule>)
    requires IdsArePositions(s)
    ensures IdsArePositions(AddSchedule(s))
  {
  }

  /** Removing any row but the last from a list whose ids are its positions,
      then adding, gives two rows with the same id: the new row's id is the
      length after removal plus one, which the old last row already holds. */
  lemma RemoveThenAddCollides(s: seq<PaymentSchedule>, k: nat)
    requires IdsArePositions(s) && k + 1 < |s|
    ensures var t := AddSchedule(RemoveSchedule(s, s[k].id));
      && |t| == |s| && t[|s| - 2].id == t[|s| - 1].id && !UniqueIds(t)
  {
    PositionIdsAreUnique(s);
    RemoveUniqueDeletesOne(s, k);
    var r := RemoveSchedule(s, s[k].id);
    assert r[|s| - 2] == s[|s| - 1];
  }

  /** Removing the last row keeps ids equal to positions, so the next add
      creates no collision. */
  lemma RemoveLastThenAddUnique(s: seq<PaymentSchedule>)
    requires IdsArePositions(s) && |s| >= 1
    ensures IdsArePositions(AddSchedule(RemoveSchedule(s, s[|s| - 1].id)))
    ensures UniqueIds(AddSchedule(RemoveSchedule(s, s[|s| - 1].id)))
  {
    PositionIdsAreUnique(s);
    RemoveUniqueDeletesOne(s, |s| - 1);
    AddKeepsPositions(RemoveSchedule(s, s[|s| - 1].id));
    PositionIdsAreUnique(AddSchedule(RemoveSchedule(s, s[|s| - 1].id)));
  }

  /** Removing id "2" from the rows "1", "2", "3" leaves "1" and "3". */
  lemma RemoveSecondOfThree()
    ensures RemoveSchedule(AddSchedule(AddSchedule(InitialSchedules)), "2") == InitialSchedules + [NewSchedule(2)]
  {
    var s2 := AddSchedule(AddSchedule(InitialSchedules));
    assert NatToString(2) == "2";
    assert s2 == InitialSchedules + [NewSchedule(1), NewSchedule(2)];
    RemoveUniqueDeletesOne(s2, 1);
  }

  /** Removing id "3" from the rows "1", "3", "3" deletes both of the latter. */
  lemma RemoveDuplicatedId()
    ensures RemoveSchedule(InitialSchedules + [NewSchedule(2), NewSchedule(2)], "3") == InitialSchedules
  {
    assert NatToString(3) == "3";
    var keep := (e: PaymentSchedule) => e.id != "3";
    FilterAppend(InitialSchedules, [NewSchedule(2), NewSchedule(2)], keep);
    FilterKeepsAll(InitialSchedules, keep);
    FilterKeepsNone([NewSchedule(2), NewSchedule(2)], keep);
  }

  /** Ids are not unique: add, add, remove the second row, add again, and the
      new row reuses the id "3"; its remove button then deletes two rows. */
  lemma IdReuseAfterRemove()
    ensures var s := AddSchedule(RemoveSchedule(AddSchedule(AddSchedule(InitialSchedules)), "2"));
      && |s| == 3 && s[1].id == "3" && s[2].id == "3" && !UniqueIds(s)
      && RemoveSchedule(s, "3") == InitialSchedules
  {
    RemoveSecondOfThree();
    var s := AddSchedule(InitialSchedules + [NewSchedule(2)]);
    assert NatToString(3) == "3";
    assert s == InitialSchedules + [NewSchedule(2), NewSchedule(2)];
    RemoveDuplicatedId();
  }

  // ---- the wizard's state -----------------------------------------------

  /** The component's state that the steps read and the schedule editor writes. */
  class Wizard {
    var currentStep: Step
    var customerName: string
    var residentNumber: string
    var phoneNumber: string
    var termsAccepted: bool
    var paymentSchedules: seq<PaymentSchedule>

    /** The two masked fields only ever hold formatter output. */
    ghost predicate Valid()
      reads this
    {
      && FormatResidentNumber(residentNumber) == residentNumber
      && FormatPhoneNumber(phoneNumber) == phoneNumber
    }

    constructor ()
      ensures Valid() && FirstEntryKept(paymentSchedules)
      ensures currentStep == BasicInfo
      ensures customerName == "" && residentNumber == "" && phoneNumber == ""
      ensures !termsAccepted
      ensures paymentSchedules == InitialSchedules
    {
      currentStep := BasicInfo;
      customerName, residentNumber, phoneNumber := "", "", "";
      termsAccepted := false;
      paymentSchedules := InitialSchedules;
    }

    method EnterCustomerName(value: string)
      requires Valid()
      modifies this`customerName
      ensures Valid()
      ensures customerName == value
    {
      customerName := value;
    }

    /** The resident number input stores the masked text. */
    method EnterResidentNumber(value: string)
      requires Valid()
      modifies this`residentNumber
      ensures Valid()
      ensures residentNumber == FormatResidentNumber(value)
    {
      ResidentNumberIdempotent(value);
      residentNumber := FormatResidentNumber(value);
    }

    /** The phone number input stores the masked text. */
    method EnterPhoneNumber(value: string)
      requires Valid()
      modifies this`phoneNumber
      ensures Valid()
      ensures phoneNumber == FormatPhoneNumber(value)
    {
      PhoneNumberIdempotent(value);
      phoneNumber := FormatPhoneNumber(value);
    }

    method SetTermsAccepted(checked: bool)
      requires Valid()
      modifies this`termsAccepted
      ensures Valid()
      ensures termsAccepted == checked
    {
      termsAccepted := checked;
    }

    method AddPaymentSchedule()
      modifies this`paymentSchedules
      ensures paymentSchedules == AddSchedule(old(paymentSchedules))
      ensures FirstEntryKept(old(paymentSchedules)) ==> FirstEntryKept(paymentSchedules)
    {
      if FirstEntryKept(paymentSchedules) {
        AddKeepsFirst(paymentSchedules);
      }
      paymentSchedules := AddSchedule(paymentSchedules);
    }

    /** The remove button of row `index`, shown for every row but the first. */
    method RemovePaymentScheduleRow(index: nat)
      requires 1 <= index < |paymentSchedules|
      modifies this`paymentSchedules
      ensures paymentSchedules == RemoveSchedule(old(paymentSchedules), old(paymentSchedules)[index].id)
      ensures FirstEntryKept(old(paymentSchedules)) ==> FirstEntryKept(paymentSchedules)
    {
      if FirstEntryKept(paymentSchedules) {
        RemoveLaterKeepsFirst(paymentSchedules, index);
      }
      RemovePaymentSchedule(paymentSchedules[index].id);
    }

    /** `removePaymentSchedule(id)` on any id; with the first entry's id it
        would empty the first row, which no button offers. */
    method RemovePaymentSchedule(id: string)
      modifies this`paymentSchedules
      ensures paymentSchedules == RemoveSchedule(old(paymentSchedules), id)
    {
      paymentSchedules := RemoveSchedule(paymentSchedules, id);
    }

    /** `updatePaymentSchedule`; the rows' inputs edit the type, amount and date. */
    method UpdatePaymentSchedule(id: string, u: FieldUpdate)
      modifies this`paymentSchedules
      ensures paymentSchedules == UpdateSchedule(old(paymentSchedules), id, u)
      ensures FirstEntryKept(old(paymentSchedules)) && !u.SetId? ==> FirstEntryKept(paymentSchedules)
    {
      if FirstEntryKept(paymentSchedules) && !u.SetId? {
        UpdateKeepsFirst(paymentSchedules, id, u);
      }
      paymentSchedules := UpdateSchedule(paymentSchedules, id, u);
    }

    /** `handleNextStep`: only the step may change; a rejection or the exit
        leaves the whole state as it was. */
    method HandleNextStep() returns (outcome: NextOutcome)
      requires Valid()
      modifies this`currentStep
      ensures Valid()
      ensures old(currentStep) == BasicInfo ==>
        (currentStep == Payment <==>
          Trim(customerName) != [] && |Digits(residentNumber)| == 13 && |Digits(phoneNumber)| >= 10)
      ensures var t := NextStep(old(currentStep), customerName, residentNumber, phoneNumber, termsAccepted);
        currentStep == t.step && outcome == t.outcome
    {
      BasicInfoGuardOnTypedInput(customerName, residentNumber, phoneNumber, termsAccepted);
      var t := NextStep(currentStep, customerName, residentNumber, phoneNumber, termsAccepted);
      currentStep := t.step;
      outcome := t.outcome;
    }

    method HandlePreviousStep()
      modifies this`currentStep
      ensures currentStep == PreviousStep(old(currentStep))
    {
      currentStep := PreviousStep(currentStep);
    }
  }
}
