/** What every run of the checkout keeps, through stops between any two steps. */
module CheckoutTheorems {

  import opened Wrappers
  import opened CheckoutLedger
  import opened CheckoutSaga

  // ---------- the invariant ----------

  predicate IsPaid(stage: Stage) {
    stage == Settled || stage == Active || stage == RefundRequired || stage == Refunded
  }

  /** The columns a row has filled are those its stage calls for. */
  ghost predicate RowOk(row: Row) {
    && (row.receipt.Some? <==> row.stage == Active)
    && (row.refund.Some? ==> row.quote.rail == Lnurlcash && (row.stage == RefundRequired || row.stage == Refunded))
    && (row.stage == Refunded ==> row.refund.Some? && row.refund.value.refundedAt.Some?)
    && (row.rotation.Some? <==> row.quote.rail == Lnurlcash && (row.stage == LnurlPending || IsPaid(row.stage)))
    && (row.noteId.Some? <==> row.rotation.Some?)
    && (row.paymentHash.Some? <==> row.quote.rail == Lightning && (row.stage == AwaitingPayment || IsPaid(row.stage)))
    && (row.stage == InvoicePending || row.stage == AwaitingPayment ==> row.quote.rail == Lightning)
    && (row.stage == LnurlPending ==> row.quote.rail == Lnurlcash)
    && (row.settlement.Some? <==> IsPaid(row.stage))
    && (row.rotation.Some? ==> (row.rotation.value.certificate.Some? <==> IsPaid(row.stage)))
  }

  /** `proof` settles this row: the preimage of its payment hash, or the
      issuer's signature on its replacement note; and the settlement names it. */
  ghost predicate Proven(c: Checks, row: Row, proof: string) {
    match row.quote.rail
    case Lightning =>
      row.paymentHash == Some(c.digest(proof)) && row.settlement == Some(HashReference(c.digest(proof)))
    case Lnurlcash =>
      && row.rotation.Some? && row.rotation.value.certificate == Some(proof)
      && c.Signed(row.rotation.value, row.quote.priceMsat, proof)
      && row.settlement == Some(c.NoteReference(row.rotation.value))
  }

  ghost predicate RowsInv(c: Checks, s: Node) {
    forall id | id in s.orders ::
      RowOk(s.orders[id]) && (IsPaid(s.orders[id].stage) ==> id in s.proofs && Proven(c, s.orders[id], s.proofs[id]))
  }

  ghost predicate CreatedInv(s: Node) {
    && (forall i, j | 0 <= i < j < |s.created| :: s.created[i] != s.created[j])
    && (forall id | id in s.created ::
      id in s.orders && s.orders[id].quote.rail == Lightning
      && s.orders[id].stage != Reserving && s.orders[id].stage != Quoted && s.orders[id].stage != Expired)
  }

  /** Every request sent is the one in the journal. */
  ghost predicate SentInv(s: Node) {
    && (forall q | q in s.rotates ::
      q.0 in s.orders && s.orders[q.0].rotation.Some? && s.orders[q.0].rotation.value.requestUrl == q.1)
    && (forall q | q in s.melts ::
      q.0 in s.orders && s.orders[q.0].refund.Some? && s.orders[q.0].refund.value.requestUrl == q.1)
  }

  ghost predicate StoreInv(s: Node) {
    && (forall id | id in s.activated :: At(s.orders, id, Settled) || At(s.orders, id, Active))
    && (forall id | At(s.orders, id, Active) :: id in s.activated)
  }

  /** The journal of a refund, apart from what later steps add to it. */
  predicate SameRefund(a: Refund, b: Refund) {
    b == a.(issuerVerify := b.issuerVerify, refundedAt := b.refundedAt)
  }

  /** What the operation under way knows about its order. */
  ghost predicate TaskOk(c: Checks, s: Node) {
    match s.task
    case Offering(id) => id in s.orders && s.orders[id].quote.rail == Lightning
    case Issuing(id) => At(s.orders, id, InvoicePending) && id !in s.created
    case Swapping(id) => id in s.orders && s.orders[id].quote.rail == Lnurlcash
    case Rotating(id, r) => At(s.orders, id, LnurlPending) && s.orders[id].rotation == Some(r)
    case Rotated(id, r) => At(s.orders, id, LnurlPending) && s.orders[id].rotation == Some(r)
    case Recovering(id, r) => At(s.orders, id, LnurlPending) && s.orders[id].rotation == Some(r)
    case Certifying(id, r, signature) =>
      && At(s.orders, id, LnurlPending) && s.orders[id].rotation == Some(r)
      && c.Signed(r, s.orders[id].quote.priceMsat, signature) && id in s.proofs && s.proofs[id] == signature
    case Asking(id, hash) => At(s.orders, id, AwaitingPayment) && s.orders[id].paymentHash == Some(hash)
    case Paying(id, hash) =>
      && At(s.orders, id, AwaitingPayment) && s.orders[id].paymentHash == Some(hash)
      && id in s.proofs && c.digest(s.proofs[id]) == hash
    case Fulfilling(id) => At(s.orders, id, Settled)
    case Activating(id, _) => At(s.orders, id, Settled) && id in s.activated
    case Refusing(id) => At(s.orders, id, Settled) && id !in s.activated
    case Preparing(id) => At(s.orders, id, RefundRequired) && s.orders[id].quote.rail == Lnurlcash
    case Verifying(id, j) => At(s.orders, id, RefundRequired) && s.orders[id].refund == Some(j)
    case Melting(id, j) => At(s.orders, id, RefundRequired) && s.orders[id].refund == Some(j)
    case Melted(id, j) => At(s.orders, id, RefundRequired) && s.orders[id].refund == Some(j)
    case Confirming(id, j) => At(s.orders, id, RefundRequired) && s.orders[id].refund == Some(j)
    case Completing(id, j) =>
      && At(s.orders, id, RefundRequired) && s.orders[id].refund.Some? && j.refundedAt.Some?
      && SameRefund(s.orders[id].refund.value, j)
    case _ => true
  }

  ghost predicate Inv(c: Checks, s: Node) {
    Unique(s.orders) && RowsInv(c, s) && CreatedInv(s) && SentInv(s) && StoreInv(s) && TaskOk(c, s)
  }

  // ---------- one step ----------

  /** How one row may differ after a step. */
  ghost predicate RowStep(a: Row, b: Row) {
    && b.quote == a.quote && b.request == a.request
    && (b.stage == a.stage || Edge(a.stage, b.stage))
    && (a.paymentHash.Some? ==> b.paymentHash == a.paymentHash && b.invoice == a.invoice)
    && (a.noteId.Some? ==> b.noteId == a.noteId)
    && (a.settlement.Some? ==> b.settlement == a.settlement)
    && (a.receipt.Some? ==> b.receipt == a.receipt)
    && (a.rotation.Some? ==>
          b.rotation.Some? && b.rotation.value == a.rotation.value.(certificate := b.rotation.value.certificate))
    && (a.refund.Some? ==> b.refund.Some? && SameRefund(a.refund.value, b.refund.value))
  }

  ghost predicate Onward(s: Node, t: Node) {
    && (forall id | id in s.orders :: id in t.orders && RowStep(s.orders[id], t.orders[id]))
    && s.created <= t.created && s.rotates <= t.rotates && s.melts <= t.melts && s.activated <= t.activated
  }

  lemma {:induction false} SameOrders(c: Checks, s: Node, task: Task)
    requires Inv(c, s) && TaskOk(c, s.(task := task))
    ensures Inv(c, s.(task := task)) && Onward(s, s.(task := task))
  {
    hide Unique, RowOk, Proven, TaskOk;
  }

  lemma {:induction false} RowsAfter(c: Checks, s: Node, id: string, row: Row)
    requires RowsInv(c, s) && id in s.orders && RowOk(row)
    requires IsPaid(row.stage) ==> id in s.proofs && Proven(c, row, s.proofs[id])
    ensures RowsInv(c, s.(orders := s.orders[id := row]))
  {
    hide RowOk, Proven;
  }

  lemma {:induction false} LogsAfter(s: Node, id: string, row: Row)
    requires CreatedInv(s) && SentInv(s) && id in s.orders && RowStep(s.orders[id], row)
    ensures var t := s.(orders := s.orders[id := row]); CreatedInv(t) && SentInv(t) && Onward(s, t)
  {
  }

  lemma {:induction false} StoreAfter(s: Node, id: string, row: Row)
    requires StoreInv(s) && id in s.orders
    requires id in s.activated ==> row.stage == Settled || row.stage == Active
    requires row.stage == Active ==> id in s.activated
    ensures StoreInv(s.(orders := s.orders[id := row]))
  {
  }

  /** A step that writes one row, as its guard and its task allow. */
  lemma {:induction false} RowChange(c: Checks, s: Node, id: string, row: Row, task: Task)
    requires Inv(c, s) && id in s.orders && RowOk(row) && RowStep(s.orders[id], row) && Unique(s.orders[id := row])
    requires IsPaid(row.stage) ==> id in s.proofs && Proven(c, row, s.proofs[id])
    requires id in s.activated ==> row.stage == Settled || row.stage == Active
    requires row.stage == Active ==> id in s.activated
    requires TaskOk(c, s.(orders := s.orders[id := row], task := task))
    ensures var t := s.(orders := s.orders[id := row], task := task); Inv(c, t) && Onward(s, t)
  {
    hide Unique, RowOk, RowStep, Proven, TaskOk;
    RowsAfter(c, s, id, row);
    LogsAfter(s, id, row);
    StoreAfter(s, id, row);
  }

  // ---------- the beginnings ----------

  lemma {:induction false} NewRowKeepsUnique(orders: Orders, id: string, request: string, quote: Quote)
    requires Unique(orders) && id !in orders
    ensures Unique(orders[id := NewRow(request, quote)])
  {
    hide Distinct;
    var row := NewRow(request, quote);
    UpdateKeepsDistinct(orders, id, row, Hashes);
    UpdateKeepsDistinct(orders, id, row, Notes);
    UpdateKeepsDistinct(orders, id, row, Settlements);
  }

  lemma {:induction false} RowAdded(c: Checks, s: Node, id: string, request: string, quote: Quote, task: Task)
    requires RowsInv(c, s) && CreatedInv(s) && SentInv(s) && StoreInv(s) && id !in s.orders
    ensures var t := s.(orders := s.orders[id := NewRow(request, quote)], task := task);
      RowsInv(c, t) && CreatedInv(t) && SentInv(t) && StoreInv(t) && Onward(s, t)
  {
    assert RowOk(NewRow(request, quote));
    hide RowOk, Proven, RowStep;
    forall other | other in s.orders ensures RowStep(s.orders[other], s.orders[other]) {
      RowStays(s.orders[other]);
    }
  }

  lemma {:induction false} RowStays(row: Row)
    ensures RowStep(row, row)
  {
  }

  lemma {:induction false} AskKeeps(c: Checks, s: Node, id: string, request: string, quote: Quote)
    requires Inv(c, s) && s.task == Idle
    ensures var t := AskStep(s, id, request, quote); Inv(c, t) && Onward(s, t)
  {
    hide Unique, RowOk, RowStep, Proven, RowsInv, CreatedInv, SentInv, StoreInv, Onward;
    SameOrders(c, s, Holding(id));
    SameOrders(c, s, Idle);
    if id !in s.orders && |s.orders| < MAX_ORDERS {
      NewRowKeepsUnique(s.orders, id, request, quote);
      RowAdded(c, s, id, request, quote, Holding(id));
    }
  }

  lemma {:induction false} BeginKeeps(c: Checks, s: Node, a: Action)
    requires Inv(c, s) && s.task == Idle
    ensures Inv(c, BeginStep(s, a)) && Onward(s, BeginStep(s, a))
  {
    hide Unique, Proven, RowStep, AskStep, CreatedInv, SentInv, StoreInv, Onward;
    if a.Ask? {
      AskKeeps(c, s, a.id, a.request, a.quote);
    } else {
      var t := BeginStep(s, a);
      assert t == s.(task := t.task);
      SameOrders(c, s, t.task);
    }
  }

  // ---------- the steps that write a row ----------

  lemma {:induction false} HoldKeeps(c: Checks, s: Node, id: string, expired: bool)
    requires Inv(c, s)
    ensures var t := HoldStep(s, id, expired); Inv(c, t) && Onward(s, t)
  {
    hide Unique, Proven, RowsInv, CreatedInv, SentInv, Onward;
    if At(s.orders, id, Reserving) {
      var row := s.orders[id].(stage := if expired then Expired else Quoted);
      OneRow(c, s, id);
      SameColumnsKeepUnique(s.orders, id, row);
      RowChange(c, s, id, row, Idle);
    } else {
      SameOrders(c, s, Idle);
    }
  }

  lemma {:induction false} OneRow(c: Checks, s: Node, id: string)
    requires RowsInv(c, s) && id in s.orders
    ensures RowOk(s.orders[id])
    ensures (IsPaid(s.orders[id].stage) ==> id in s.proofs && Proven(c, s.orders[id], s.proofs[id]))
  {
  }

  lemma {:induction false} OfferKeeps(c: Checks, s: Node, id: string)
    requires Inv(c, s) && s.task == Offering(id)
    ensures var t := Then(s, WithStage(s.orders, id, Quoted, InvoicePending), Issuing(id)); Inv(c, t) && Onward(s, t)
  {
    hide Unique, Proven, RowsInv, SentInv, Onward;
    if At(s.orders, id, Quoted) {
      var row := s.orders[id].(stage := InvoicePending);
      OneRow(c, s, id);
      SameColumnsKeepUnique(s.orders, id, row);
      RowChange(c, s, id, row, Issuing(id));
    } else {
      SameOrders(c, s, Idle);
    }
  }

  lemma {:induction false} RecordKeeps(c: Checks, s: Node, id: string, invoice: string, hash: string)
    requires Inv(c, s)
    ensures var t := Then(s, WithInvoice(s.orders, id, invoice, hash), Idle); Inv(c, t) && Onward(s, t)
  {
    hide Unique, Proven, RowsInv, CreatedInv, SentInv, Onward, HashTaken;
    if WithInvoice(s.orders, id, invoice, hash).Ok? {
      var row := s.orders[id].(stage := AwaitingPayment, invoice := Some(invoice), paymentHash := Some(hash));
      OneRow(c, s, id);
      InvoiceKeepsUnique(s.orders, id, invoice, hash);
      RowChange(c, s, id, row, Idle);
    } else {
      SameOrders(c, s, Idle);
    }
  }

  lemma {:induction false} JournalKeeps(c: Checks, s: Node, id: string, noteId: string, r: Rotation)
    requires Inv(c, s) && s.task == Swapping(id) && r.certificate == None
    ensures var t := JournalStep(s, id, noteId, r); Inv(c, t) && Onward(s, t)
  {
    hide Unique, Proven, RowsInv, CreatedInv, SentInv, Onward, NoteTaken;
    if WithRotation(s.orders, id, noteId, r).Ok? {
      var row := s.orders[id].(stage := LnurlPending, noteId := Some(noteId), rotation := Some(r));
      OneRow(c, s, id);
      RotationKeepsUnique(s.orders, id, noteId, r);
      RowChange(c, s, id, row, Rotating(id, r));
    } else {
      SameOrders(c, s, Idle);
    }
  }

  lemma {:induction false} CertifyKeeps(c: Checks, s: Node, id: string, r: Rotation, signature: string)
    requires Inv(c, s) && s.task == Certifying(id, r, signature)
    ensures var t := CertifyStep(c, s, id, r, signature); Inv(c, t) && Onward(s, t)
  {
    hide Unique, RowsInv, CreatedInv, SentInv, Onward, SettlementTaken;
    var certified := r.(certificate := Some(signature));
    var reference := c.NoteReference(r);
    if WithSettlement(s.orders, id, LnurlPending, reference, Some(certified)).Ok? {
      var row := s.orders[id].(stage := Settled, settlement := Some(reference), rotation := Some(certified));
      OneRow(c, s, id);
      SettlementKeepsUnique(s.orders, id, LnurlPending, reference, Some(certified));
      RowChange(c, s, id, row, Fulfilling(id));
    } else {
      SameOrders(c, s, Idle);
    }
  }

  lemma {:induction false} PayKeeps(c: Checks, s: Node, id: string, hash: string)
    requires Inv(c, s) && s.task == Paying(id, hash)
    ensures var t := PayStep(s, id, hash); Inv(c, t) && Onward(s, t)
  {
    hide Unique, RowsInv, CreatedInv, SentInv, Onward, SettlementTaken;
    var reference := HashReference(hash);
    if WithSettlement(s.orders, id, AwaitingPayment, reference, None).Ok? {
      var row := s.orders[id].(stage := Settled, settlement := Some(reference));
      OneRow(c, s, id);
      SettlementKeepsUnique(s.orders, id, AwaitingPayment, reference, None);
      RowChange(c, s, id, row, Fulfilling(id));
    } else {
      SameOrders(c, s, Idle);
    }
  }

  lemma {:induction false} FinishKeeps(c: Checks, s: Node)
    requires Inv(c, s) && (s.task.Activating? || s.task.Refusing?)
    ensures var t := SettleStep(c, s, Finish); Inv(c, t) && Onward(s, t)
  {
    hide Unique, RowsInv, CreatedInv, SentInv, Onward;
    var id := s.task.id;
    var row := if s.task.Activating? then s.orders[id].(stage := Active, receipt := Some(s.task.receipt))
               else s.orders[id].(stage := RefundRequired);
    OneRow(c, s, id);
    SameColumnsKeepUnique(s.orders, id, row);
    RowChange(c, s, id, row, Idle);
  }

  lemma {:induction false} PrepareKeeps(c: Checks, s: Node, id: string, j: Refund)
    requires Inv(c, s) && s.task == Preparing(id)
    ensures var t := PrepareStep(s, id, j); Inv(c, t) && Onward(s, t)
  {
    hide Unique, RowsInv, CreatedInv, SentInv, Onward;
    if WithRefund(s.orders, id, j).Ok? {
      var row := s.orders[id].(refund := Some(j));
      OneRow(c, s, id);
      SameColumnsKeepUnique(s.orders, id, row);
      RowChange(c, s, id, row, Melting(id, j));
    } else {
      SameOrders(c, s, Idle);
    }
  }

  lemma {:induction false} MeltAnswerKeeps(c: Checks, s: Node, id: string, j: Refund, verify: Option<string>)
    requires Inv(c, s) && s.task == Melted(id, j)
    ensures var t := MeltAnswerStep(s, id, j, verify); Inv(c, t) && Onward(s, t)
  {
    hide Unique, RowsInv, CreatedInv, SentInv, Onward;
    if verify.None? {
      SameOrders(c, s, Confirming(id, j));
    } else {
      var noted := j.(issuerVerify := verify);
      var row := s.orders[id].(refund := Some(noted));
      OneRow(c, s, id);
      SameColumnsKeepUnique(s.orders, id, row);
      RowChange(c, s, id, row, Confirming(id, noted));
    }
  }

  lemma {:induction false} CompleteKeeps(c: Checks, s: Node, id: string, j: Refund)
    requires Inv(c, s) && s.task == Completing(id, j)
    ensures var t := Then(s, WithRefundDone(s.orders, id, j), Idle); Inv(c, t) && Onward(s, t)
  {
    hide Unique, RowsInv, CreatedInv, SentInv, Onward;
    var row := s.orders[id].(stage := Refunded, refund := Some(j));
    OneRow(c, s, id);
    SameColumnsKeepUnique(s.orders, id, row);
    RowChange(c, s, id, row, Idle);
  }

  // ---------- the steps the outside world sees ----------

  /** A step that leaves the orders alone, and no paid order's proof is changed. */
  lemma {:induction false} LogsChange(c: Checks, s: Node, t: Node)
    requires Inv(c, s) && t.orders == s.orders
    requires forall id | id in s.proofs && !(id in s.orders && !IsPaid(s.orders[id].stage)) ::
      id in t.proofs && t.proofs[id] == s.proofs[id]
    requires CreatedInv(t) && SentInv(t) && StoreInv(t) && TaskOk(c, t)
    requires s.created <= t.created && s.rotates <= t.rotates && s.melts <= t.melts && s.activated <= t.activated
    ensures Inv(c, t) && Onward(s, t)
  {
    hide Unique, RowOk, Proven, TaskOk, CreatedInv, SentInv, StoreInv, RowStep;
    forall id | id in s.orders ensures RowStep(s.orders[id], t.orders[id]) {
      RowStays(s.orders[id]);
    }
  }

  lemma {:induction false} IssueKeeps(c: Checks, s: Node, id: string)
    requires Inv(c, s) && s.task == Issuing(id)
    ensures var t := SaleStep(s, Issue); Inv(c, t) && Onward(s, t)
  {
    hide Unique, RowsInv, SentInv, StoreInv, Onward, Proven;
    OneRow(c, s, id);
    var t := SaleStep(s, Issue);
    assert SentInv(t) && StoreInv(t) by { LogsOf(s, t); }
    LogsChange(c, s, t);
  }

  lemma {:induction false} LogsOf(s: Node, t: Node)
    requires SentInv(s) && StoreInv(s) && t == s.(task := t.task, created := t.created, proofs := t.proofs)
    ensures SentInv(t) && StoreInv(t)
  {
  }

  lemma {:induction false} SendRotateKeeps(c: Checks, s: Node, id: string, r: Rotation)
    requires Inv(c, s) && s.task == Rotating(id, r)
    ensures var t := SaleStep(s, SendRotate); Inv(c, t) && Onward(s, t)
  {
    hide Unique, RowsInv, Onward, Proven, RowOk;
    LogsChange(c, s, SaleStep(s, SendRotate));
  }

  lemma {:induction false} SendMeltKeeps(c: Checks, s: Node, id: string, j: Refund)
    requires Inv(c, s) && s.task == Melting(id, j)
    ensures var t := MeltStep(s, SendMelt); Inv(c, t) && Onward(s, t)
  {
    hide Unique, RowsInv, Onward, Proven, RowOk;
    LogsChange(c, s, MeltStep(s, SendMelt));
  }

  lemma {:induction false} SignatureKeeps(c: Checks, s: Node, id: string, r: Rotation, signature: string)
    requires Inv(c, s) && (s.task == Rotated(id, r) || s.task == Recovering(id, r))
    ensures var t := SignatureStep(c, s, id, r, signature); Inv(c, t) && Onward(s, t)
  {
    hide Unique, RowsInv, Onward, Proven, RowOk, SentInv, StoreInv;
    var t := SignatureStep(c, s, id, r, signature);
    LogsOf(s, t);
    LogsChange(c, s, t);
  }

  lemma {:induction false} PreimageKeeps(c: Checks, s: Node, id: string, hash: string, preimage: string)
    requires Inv(c, s) && s.task == Asking(id, hash)
    ensures var t := PreimageStep(c, s, id, hash, preimage); Inv(c, t) && Onward(s, t)
  {
    hide Unique, RowsInv, Onward, Proven, RowOk, SentInv, StoreInv;
    var t := PreimageStep(c, s, id, hash, preimage);
    LogsOf(s, t);
    LogsChange(c, s, t);
  }

  lemma {:induction false} ActivateKeeps(c: Checks, s: Node, id: string, receipt: Receipt)
    requires Inv(c, s) && s.task == Fulfilling(id)
    ensures var t := SettleStep(c, s, Activate(receipt)); Inv(c, t) && Onward(s, t)
  {
    hide Unique, RowsInv, Onward, Proven, RowOk;
    LogsChange(c, s, SettleStep(c, s, Activate(receipt)));
  }

  // ---------- every step, every run ----------

  lemma {:induction false} SaleKeeps(c: Checks, s: Node, a: Action)
    requires Inv(c, s) && Selling(s.task)
    ensures var t := SaleStep(s, a); Inv(c, t) && Onward(s, t)
  {
    hide Unique, RowsInv, CreatedInv, SentInv, StoreInv, Onward, HoldStep, JournalStep, Then, At;
    var k := s.task;
    SameOrders(c, s, k);
    match k
    case Holding(id) => if a.Hold? { HoldKeeps(c, s, id, a.expired); }
    case Offering(id) => if a.Offer? { OfferKeeps(c, s, id); }
    case Issuing(id) => if a.Issue? { IssueKeeps(c, s, id); }
    case Issued(id) => if a.Answer? { SameOrders(c, s, Recording(id, a.invoice, a.hash)); }
    case Recording(id, invoice, hash) => if a.Record? { RecordKeeps(c, s, id, invoice, hash); }
    case Swapping(id) => if a.Journal? { JournalKeeps(c, s, id, a.noteId, a.rotation.(certificate := None)); }
    case Rotating(id, r) => if a.SendRotate? { SendRotateKeeps(c, s, id, r); }
    case _ =>
  }

  lemma {:induction false} SettleKeeps(c: Checks, s: Node, a: Action)
    requires Inv(c, s) && !Selling(s.task) && !Refunding(s.task)
    ensures var t := SettleStep(c, s, a); Inv(c, t) && Onward(s, t)
  {
    hide Unique, RowsInv, CreatedInv, SentInv, StoreInv, Onward, SignatureStep, CertifyStep, PreimageStep, PayStep,
      Then, At;
    var k := s.task;
    SameOrders(c, s, k);
    match k
    case Rotated(id, r) => if a.Signature? { SignatureKeeps(c, s, id, r, a.signature); }
    case Recovering(id, r) =>
      SameOrders(c, s, Rotating(id, r));
      if a.Signature? { SignatureKeeps(c, s, id, r, a.signature); }
    case Certifying(id, r, signature) => if a.Certify? { CertifyKeeps(c, s, id, r, signature); }
    case Asking(id, hash) => if a.Preimage? { PreimageKeeps(c, s, id, hash, a.preimage); }
    case Paying(id, hash) => if a.Pay? { PayKeeps(c, s, id, hash); }
    case Fulfilling(id) =>
      if a.Activate? { ActivateKeeps(c, s, id, a.receipt); }
      if id !in s.activated { SameOrders(c, s, Refusing(id)); }
    case Activating(id, receipt) => if a.Finish? { FinishKeeps(c, s); }
    case Refusing(id) => if a.Finish? { FinishKeeps(c, s); }
  }

  lemma {:induction false} MeltKeeps(c: Checks, s: Node, a: Action)
    requires Inv(c, s) && Refunding(s.task)
    ensures var t := MeltStep(s, a); Inv(c, t) && Onward(s, t)
  {
    hide Unique, RowsInv, CreatedInv, SentInv, StoreInv, Onward, PrepareStep, MeltAnswerStep, Then, At;
    var k := s.task;
    SameOrders(c, s, k);
    match k
    case Preparing(id) => if a.Prepare? { PrepareKeeps(c, s, id, a.refund.(issuerVerify := None, refundedAt := None)); }
    case Verifying(id, j) =>
      SameOrders(c, s, Melting(id, j));
      if a.Paid? { SameOrders(c, s, Completing(id, j.(refundedAt := Some(a.at)))); }
    case Melting(id, j) => if a.SendMelt? { SendMeltKeeps(c, s, id, j); }
    case Melted(id, j) => if a.MeltAnswer? { MeltAnswerKeeps(c, s, id, j, a.verify); }
    case Confirming(id, j) => if a.Paid? { SameOrders(c, s, Completing(id, j.(refundedAt := Some(a.at)))); }
    case Completing(id, j) => if a.Complete? { CompleteKeeps(c, s, id, j); }
  }

  lemma {:induction false} StepKeeps(c: Checks, s: Node, a: Action)
    requires Inv(c, s)
    ensures Inv(c, Next(c, s, a)) && Onward(s, Next(c, s, a))
  {
    hide Unique, RowsInv, CreatedInv, SentInv, StoreInv, Onward, BeginStep, SaleStep, SettleStep, MeltStep;
    if a == Stop {
      SameOrders(c, s, Idle);
    } else if s.task == Idle {
      BeginKeeps(c, s, a);
    } else if Selling(s.task) {
      SaleKeeps(c, s, a);
    } else if Refunding(s.task) {
      MeltKeeps(c, s, a);
    } else {
      SettleKeeps(c, s, a);
    }
  }

  lemma {:induction false} RunKeeps(c: Checks, actions: seq<Action>)
    ensures Inv(c, Run(c, START, actions))
  {
    hide Inv, Next;
    if actions == [] {
      StartHolds(c);
    } else {
      RunKeeps(c, actions[..|actions| - 1]);
      StepKeeps(c, Run(c, START, actions[..|actions| - 1]), actions[|actions| - 1]);
    }
  }

  lemma {:induction false} StartHolds(c: Checks)
    ensures Inv(c, START)
  {
  }

  // ---------- what a buyer and the operator can rely on ----------

  /** The stages an order can still be found at, once it was seen at `stage`. */
  function Ahead(stage: Stage): set<Stage> {
    var paid := {Settled, Active, RefundRequired, Refunded};
    match stage
    case Reserving => {Reserving, Expired, Quoted, LnurlPending, InvoicePending, AwaitingPayment} + paid
    case Quoted => {Quoted, LnurlPending, InvoicePending, AwaitingPayment} + paid
    case Expired => {Expired}
    case InvoicePending => {InvoicePending, AwaitingPayment} + paid
    case AwaitingPayment => {AwaitingPayment} + paid
    case LnurlPending => {LnurlPending} + paid
    case Settled => paid
    case Active => {Active}
    case RefundRequired => {RefundRequired, Refunded}
    case Refunded => {Refunded}
  }

  /** `b` is `a` at a later time: only forward, and nothing once written is rewritten. */
  ghost predicate Later(a: Row, b: Row) {
    && b.quote == a.quote && b.request == a.request
    && b.stage in Ahead(a.stage)
    && (a.paymentHash.Some? ==> b.paymentHash == a.paymentHash && b.invoice == a.invoice)
    && (a.noteId.Some? ==> b.noteId == a.noteId)
    && (a.settlement.Some? ==> b.settlement == a.settlement)
    && (a.receipt.Some? ==> b.receipt == a.receipt)
    && (a.rotation.Some? ==>
          b.rotation.Some? && b.rotation.value == a.rotation.value.(certificate := b.rotation.value.certificate))
    && (a.refund.Some? ==> b.refund.Some? && SameRefund(a.refund.value, b.refund.value))
  }

  lemma {:induction false} AheadIsClosed(a: Stage, b: Stage, d: Stage)
    requires b in Ahead(a) && (d == b || Edge(b, d))
    ensures d in Ahead(a)
  {
  }

  lemma {:induction false} LaterStep(a: Row, b: Row, d: Row)
    requires Later(a, b) && RowStep(b, d)
    ensures Later(a, d)
  {
    AheadIsClosed(a.stage, b.stage, d.stage);
    hide Ahead, Edge;
  }

  /** Between any two moments of any run, an order only moves forward. */
  lemma {:induction false} OnlyForward(c: Checks, s: Node, actions: seq<Action>, id: string)
    requires Inv(c, s) && id in s.orders
    ensures var t := Run(c, s, actions); Inv(c, t) && id in t.orders && Later(s.orders[id], t.orders[id])
  {
    hide Inv, Next, Later, RowStep;
    if actions == [] {
      LaterSame(s.orders[id]);
    } else {
      var before := Run(c, s, actions[..|actions| - 1]);
      OnlyForward(c, s, actions[..|actions| - 1], id);
      StepKeeps(c, before, actions[|actions| - 1]);
      LaterStep(s.orders[id], before.orders[id], Next(c, before, actions[|actions| - 1]).orders[id]);
    }
  }

  lemma {:induction false} LaterSame(row: Row)
    ensures Later(row, row)
  {
  }

  /** `create_invoice` is called at most once for each order, and never for a
      note sale or before the order has left the quoted stage. */
  lemma {:induction false} OneInvoiceEach(c: Checks, actions: seq<Action>, i: nat)
    requires i < |Run(c, START, actions).created|
    ensures var s := Run(c, START, actions);
      && s.created[i] in s.orders && s.orders[s.created[i]].quote.rail == Lightning
      && s.orders[s.created[i]].stage !in {Reserving, Quoted, Expired}
      && forall j | 0 <= j < |s.created| && s.created[j] == s.created[i] :: j == i
  {
    RunKeeps(c, actions);
  }

  /** No two orders share a payment hash, a note or a settlement. */
  lemma {:induction false} NothingShared(c: Checks, actions: seq<Action>, a: string, b: string)
    requires var orders := Run(c, START, actions).orders; a in orders && b in orders && a != b
    ensures var orders := Run(c, START, actions).orders;
      && (orders[a].paymentHash.Some? ==> orders[a].paymentHash != orders[b].paymentHash)
      && (orders[a].noteId.Some? ==> orders[a].noteId != orders[b].noteId)
      && (orders[a].settlement.Some? ==> orders[a].settlement != orders[b].settlement)
  {
    RunKeeps(c, actions);
    var orders := Run(c, START, actions).orders;
    assert Hashes(orders[a]) == orders[a].paymentHash && Notes(orders[a]) == orders[a].noteId;
    assert Settlements(orders[a]) == orders[a].settlement;
  }

  /** An order is settled, active or due a refund only on a proven payment, the one its settlement names. */
  lemma {:induction false} PaidIsProven(c: Checks, actions: seq<Action>, id: string)
    requires var s := Run(c, START, actions); id in s.orders && IsPaid(s.orders[id].stage)
    ensures var s := Run(c, START, actions); id in s.proofs && Proven(c, s.orders[id], s.proofs[id])
  {
    RunKeeps(c, actions);
    OneRow(c, Run(c, START, actions), id);
  }

  /** No order has both a receipt and a refund, and no order due a refund holds
      its paid storage: the store activated it exactly where a receipt is or can still be written. */
  lemma {:induction false} ReceiptOrRefund(c: Checks, actions: seq<Action>, id: string)
    requires id in Run(c, START, actions).orders
    ensures var s := Run(c, START, actions); var row := s.orders[id];
      && !(row.receipt.Some? && row.refund.Some?)
      && (row.receipt.Some? ==> id in s.activated)
      && (id in s.activated ==> row.refund.None? && row.stage != RefundRequired && row.stage != Refunded)
      && (row.stage == Refunded ==> row.refund.Some? && row.refund.value.refundedAt.Some?)
  {
    RunKeeps(c, actions);
    OneRow(c, Run(c, START, actions), id);
  }

  /** Every rotate request sent is the journalled one, so an order never sends two different ones. */
  lemma {:induction false} OneRotateEach(c: Checks, actions: seq<Action>, id: string, u: string, v: string)
    requires var s := Run(c, START, actions); (id, u) in s.rotates && (id, v) in s.rotates
    ensures var s := Run(c, START, actions);
      u == v && id in s.orders && s.orders[id].rotation.Some? && s.orders[id].rotation.value.requestUrl == u
  {
    RunKeeps(c, actions);
    var s := Run(c, START, actions);
    assert forall q | q in s.rotates ::
      q.0 in s.orders && s.orders[q.0].rotation.Some? && s.orders[q.0].rotation.value.requestUrl == q.1;
  }

  /** The same for melt requests. */
  lemma {:induction false} OneMeltEach(c: Checks, actions: seq<Action>, id: string, u: string, v: string)
    requires var s := Run(c, START, actions); (id, u) in s.melts && (id, v) in s.melts
    ensures var s := Run(c, START, actions);
      u == v && id in s.orders && s.orders[id].refund.Some? && s.orders[id].refund.value.requestUrl == u
  {
    RunKeeps(c, actions);
    var s := Run(c, START, actions);
    assert forall q | q in s.melts ::
      q.0 in s.orders && s.orders[q.0].refund.Some? && s.orders[q.0].refund.value.requestUrl == q.1;
  }

  lemma {:induction false} OnlySendsSend(c: Checks, s: Node, a: Action)
    ensures var t := Next(c, s, a);
      && (t.rotates == s.rotates || (s.task.Rotating? && t.orders == s.orders
        && t.rotates == s.rotates + {(s.task.id, s.task.rotation.requestUrl)}))
      && (t.melts == s.melts || (s.task.Melting? && t.orders == s.orders
        && t.melts == s.melts + {(s.task.id, s.task.refund.requestUrl)}))
  {
    hide BeginStep, SettleStep, MeltStep, SaleStep;
  }

  /** A request is in the journal before the step that sends it: a rotation of
      an order still pending, a melt of a certified note whose storage was refused. */
  lemma {:induction false} JournalBeforeSpend(c: Checks, actions: seq<Action>, a: Action, id: string, u: string)
    ensures var s := Run(c, START, actions); var t := Next(c, s, a);
      && ((id, u) in t.rotates - s.rotates ==>
          && At(s.orders, id, LnurlPending) && s.orders[id].rotation.Some?
            && s.orders[id].rotation.value.requestUrl == u
          && t.orders == s.orders)
      && ((id, u) in t.melts - s.melts ==>
          && At(s.orders, id, RefundRequired) && s.orders[id].refund.Some? && s.orders[id].refund.value.requestUrl == u
          && s.orders[id].rotation.Some? && s.orders[id].rotation.value.certificate.Some?
          && t.orders == s.orders)
  {
    hide Unique, RowsInv, CreatedInv, StoreInv, SentInv, Run, Next, Proven;
    RunKeeps(c, actions);
    var s := Run(c, START, actions);
    OnlySendsSend(c, s, a);
    if id in s.orders {
      OneRow(c, s, id);
    }
  }
}
