/**
 The gate in front of every success claim: how a webhook delivery finds its payment row, and what
 each of the two settlement channels demands of the provider's own answer.
 */
module SettlementGate {
  import opened Options
  import P = PaymentLifecycle

  type Reference = string
  type TransactionId = string
  type Currency = string

  datatype ProviderStatus = ReportedSuccess | ReportedPending | ReportedDefault | ReportedOther

  /** What `GET /transaction/verify` answered. A JSON number need not be an integer. */
  datatype Answer = Answer(status: ProviderStatus, reference: Reference, amount: real, currency: Currency)

  /**
   A `payments` row. `settledReference` and `transactionId` are its unique columns, written by a winning claim.
   `history` and `settledBy` are bookkeeping that the statements below refer to.
   */
  datatype Payment = Payment(
    order: nat,
    paystack: bool,
    amountCents: int,
    currency: Currency,
    customerReference: Reference,
    providerReference: Option<Reference>,   // metadata.paystack.providerReference
    settledReference: Option<Reference>,    // provider_reference
    transactionId: Option<TransactionId>,
    status: P.PaymentStatus,
    history: seq<P.PaymentStatus>,
    settledBy: Option<Answer>)

  /** The parts of a signed webhook body that the pipeline reads. */
  datatype Delivery = Delivery(
    event: string,
    chargeSuccess: bool,
    reference: Option<Reference>,
    transactionId: Option<TransactionId>,
    amount: real,
    currency: Option<Currency>)

  const MAX_SAFE_INTEGER := 0x1F_FFFF_FFFF_FFFF

  predicate IsSafeInteger(x: real) {
    x == x.Floor as real && -MAX_SAFE_INTEGER <= x.Floor <= MAX_SAFE_INTEGER
  }

  /** `amount_cents` is a 32-bit column. */
  predicate IsColumnInt(n: int) {
    -0x8000_0000 <= n < 0x8000_0000
  }

  // ---------- Locating the row ----------

  /** `findFirst` ordered by creation, newest first: rows are kept in creation order. */
  function Newest(rows: seq<Payment>, matches: Payment -> bool): (found: Option<nat>)
    ensures found.Some? ==> found.value < |rows| && matches(rows[found.value])
    ensures found.Some? ==> forall i :: found.value < i < |rows| ==> !matches(rows[i])
    ensures found.None? ==> forall i :: 0 <= i < |rows| ==> !matches(rows[i])
  {
    if rows == [] then None
    else if matches(rows[|rows| - 1]) then Some(|rows| - 1)
    else Newest(rows[..|rows| - 1], matches)
  }

  datatype Located = Found(payment: nat) | Disagreement(candidate: nat) | Unknown

  function Locate(rows: seq<Payment>, d: Delivery): Located {
    var byReference :=
      if d.reference.Some? then Newest(rows, (r: Payment) => r.paystack && r.customerReference == d.reference.value)
      else None;
    var byTransaction :=
      if byReference.None? && d.transactionId.Some?
        then Newest(rows, (r: Payment) => r.transactionId == d.transactionId)
      else None;
    var byProviderReference :=
      if d.reference.Some? then Newest(rows, (r: Payment) => r.paystack && r.providerReference == d.reference)
      else None;
    if byReference.Some? then Found(byReference.value)
    else if byTransaction.Some? && rows[byTransaction.value].paystack then
      if d.reference.None? || rows[byTransaction.value].customerReference == d.reference.value
      then Found(byTransaction.value)
      else Disagreement(byTransaction.value)
    else if byProviderReference.Some? then Found(byProviderReference.value)
    else Unknown
  }

  // ---------- The two gates ----------

  function LookupReference(row: Payment, d: Delivery): Reference {
    if d.reference.Some? then d.reference.value else row.customerReference
  }

  datatype WebhookVerdict = AmountMismatch | CurrencyMismatch | NotCorroborated | WebhookAccepted

  /** `reply` is what asking the provider about LookupReference gave; None when the call threw. */
  function JudgeWebhook(row: Payment, d: Delivery, reply: Option<Answer>): WebhookVerdict {
    if !IsSafeInteger(d.amount) || d.amount != row.amountCents as real then AmountMismatch
    else if d.currency != Some(row.currency) then CurrencyMismatch
    else if reply.None? then NotCorroborated
    else
      var a := reply.value;
      if || a.status != ReportedSuccess
         || a.reference != LookupReference(row, d)
         || a.amount != row.amountCents as real
         || a.currency != row.currency
      then NotCorroborated
      else WebhookAccepted
  }

  datatype StatusVerdict =
    | StillPending
    | ReportedFailure
    | ReferenceMismatch
    | StatusAmountMismatch
    | StatusCurrencyMismatch
    | StatusAccepted

  function JudgeStatus(row: Payment, a: Answer): StatusVerdict {
    if a.status != ReportedSuccess then
      if a.status == ReportedPending || a.status == ReportedDefault then StillPending else ReportedFailure
    else if a.reference != row.customerReference && Some(a.reference) != row.providerReference then ReferenceMismatch
    else if !IsSafeInteger(a.amount) || a.amount != row.amountCents as real then StatusAmountMismatch
    else if a.currency != row.currency then StatusCurrencyMismatch
    else StatusAccepted
  }

  /** What settles money, said without either channel: our row and the provider's word agree on everything. */
  predicate Corroborates(row: Payment, a: Answer) {
    && a.status == ReportedSuccess
    && (a.reference == row.customerReference || row.providerReference == Some(a.reference))
    && a.amount == row.amountCents as real
    && a.currency == row.currency
  }

  /** The status check lets a success claim start exactly when the answer corroborates the row. */
  lemma StatusGateIsCorroboration(row: Payment, a: Answer)
    requires IsColumnInt(row.amountCents)
    ensures JudgeStatus(row, a) == StatusAccepted <==> Corroborates(row, a)
  {
    assert (row.amountCents as real).Floor == row.amountCents;
  }

  /**
   Whichever lookup found the row, the webhook's gate is the status check's gate plus three demands
   on the delivery itself. So it never settles against an answer the status check would refuse.
   */
  lemma WebhookGateImpliesStatusGate(rows: seq<Payment>, d: Delivery, p: nat, a: Answer)
    requires Locate(rows, d) == Found(p) && IsColumnInt(rows[p].amountCents)
    ensures p < |rows|
    ensures
      JudgeWebhook(rows[p], d, Some(a)) == WebhookAccepted
      <==>
      && JudgeStatus(rows[p], a) == StatusAccepted
      && a.reference == LookupReference(rows[p], d)
      && d.amount == rows[p].amountCents as real
      && d.currency == Some(rows[p].currency)
  {
    StatusGateIsCorroboration(rows[p], a);
    assert (rows[p].amountCents as real).Floor == rows[p].amountCents;
  }

  /** The payment that a charge delivery passes every gate for. */
  function AcceptedFor(rows: seq<Payment>, d: Delivery, reply: Option<Answer>): (p: Option<nat>)
    ensures p.Some? ==> p.value < |rows| && reply.Some?
  {
    if !d.chargeSuccess then None
    else
      match Locate(rows, d)
      case Found(p) => if JudgeWebhook(rows[p], d, reply) == WebhookAccepted then Some(p) else None
      case _ => None
  }

  // ---------- Asking the provider ----------

  /** `verificationReferences`: our reference first, then the one the provider echoed, if it differs. */
  function VerificationReferences(row: Payment): (refs: seq<Reference>)
    ensures 1 <= |refs| <= 2 && refs[0] == row.customerReference
    ensures forall i, j :: 0 <= i < j < |refs| ==> refs[i] != refs[j]
    ensures forall a: Answer :: Corroborates(row, a) && a.reference != "" ==> a.reference in refs
  {
    if row.providerReference.Some? && row.providerReference.value !in ["", row.customerReference]
    then [row.customerReference, row.providerReference.value]
    else [row.customerReference]
  }
}
