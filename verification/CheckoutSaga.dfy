/** The checkout service (`wildbloom-checkout/src/service.rs`) as a transition
    system.  One operation at a time holds the `receiving` lock; it may stop
    for good between any two steps, and the backends answer as they like. */
module CheckoutSaga {

  import opened Wrappers
  import opened CheckoutLedger

  /** The two checks that make a payment proven. */
  datatype Checks = Checks(
    digest: string -> string,
    verify: (string, string, nat, string, string) -> bool)
  {
    /** `signature` is the issuer's, on the replacement note of this journal, at this price. */
    predicate Signed(rotation: Rotation, priceMsat: nat, signature: string) {
      verify(rotation.newSecret, rotation.endpoint, priceMsat, signature, rotation.mintPubkey)
    }

    function NoteReference(rotation: Rotation): string {
      "lnurlcash:" + digest(rotation.requestUrl)
    }
  }

  function HashReference(hash: string): string {
    "lightning:" + hash
  }

  /** Where the operation holding the lock has got to. */
  datatype Task =
    | Idle
    | Holding(id: string)
    | Offering(id: string)
    | Issuing(id: string)
    | Issued(id: string)
    | Recording(id: string, invoice: string, hash: string)
    | Swapping(id: string)
    | Rotating(id: string, rotation: Rotation)
    | Rotated(id: string, rotation: Rotation)
    | Recovering(id: string, rotation: Rotation)
    | Certifying(id: string, rotation: Rotation, signature: string)
    | Asking(id: string, hash: string)
    | Paying(id: string, hash: string)
    | Fulfilling(id: string)
    | Activating(id: string, receipt: Receipt)
    | Refusing(id: string)
    | Preparing(id: string)
    | Verifying(id: string, refund: Refund)
    | Melting(id: string, refund: Refund)
    | Melted(id: string, refund: Refund)
    | Confirming(id: string, refund: Refund)
    | Completing(id: string, refund: Refund)

  /** `orders` and `activated` (the store's paid sales) survive a stop; the
      rest of the record is what the outside world has seen: `created` lists
      the orders `create_invoice` was called for, `rotates` and `melts` the
      requests sent, `proofs` the payments proven. */
  datatype Node = Node(
    orders: Orders, activated: set<string>, task: Task, created: seq<string>,
    rotates: set<(string, string)>, melts: set<(string, string)>, proofs: map<string, string>)

  datatype Action =
    | Stop
    | Ask(id: string, request: string, quote: Quote)
    | Hold(expired: bool)
    | BeginLightning(id: string)
    | Offer
    | Issue
    | Answer(invoice: string, hash: string)
    | BeginRecovery(id: string, invoice: string, hash: string)
    | Record
    | BeginSwap(id: string)
    | Journal(noteId: string, rotation: Rotation)
    | SendRotate
    | Signature(signature: string)
    | NoSignature
    | BeginCheck(id: string)
    | Preimage(preimage: string)
    | Pay
    | Certify
    | Activate(receipt: Receipt)
    | Unavailable
    | Finish
    | BeginRefund(id: string)
    | Prepare(refund: Refund)
    | Outstanding
    | Paid(at: nat)
    | SendMelt
    | MeltAnswer(verify: Option<string>)
    | Complete

  // ---------- the steps of each operation ----------

  function Then(s: Node, update: Result<Orders, Error>, next: Task): (t: Node)
    ensures t == s.(orders := t.orders, task := t.task)
  {
    match update
    case Ok(rows) => s.(orders := rows, task := next)
    case Err(_) => s.(task := Idle)
  }

  /** `quote` and `reserve`. */
  function AskStep(s: Node, id: string, request: string, quote: Quote): Node {
    if id in s.orders then
      (if s.orders[id].request == request && s.orders[id].stage == Reserving then s.(task := Holding(id)) else s)
    else if |s.orders| < MAX_ORDERS then s.(orders := s.orders[id := NewRow(request, quote)], task := Holding(id))
    else s
  }

  function HoldStep(s: Node, id: string, expired: bool): (t: Node)
    ensures t == s.(orders := t.orders, task := t.task)
  {
    Then(s, WithStage(s.orders, id, Reserving, if expired then Expired else Quoted), Idle)
  }

  /** `check` picks up wherever the order stands. */
  function CheckStep(s: Node, id: string): Node {
    if id !in s.orders then s else
    var row := s.orders[id];
    match row.stage
    case AwaitingPayment => if row.paymentHash.Some? then s.(task := Asking(id, row.paymentHash.value)) else s
    case LnurlPending => if row.rotation.Some? then s.(task := Recovering(id, row.rotation.value)) else s
    case Settled => s.(task := Fulfilling(id))
    case Reserving => s.(task := Holding(id))
    case _ => s
  }

  /** A signature on the replacement note, from the mutation or from looking the note up. */
  function SignatureStep(c: Checks, s: Node, id: string, rotation: Rotation, signature: string): Node {
    if id in s.orders && c.Signed(rotation, s.orders[id].quote.priceMsat, signature) then
      s.(task := Certifying(id, rotation, signature), proofs := s.proofs[id := signature])
    else s
  }

  function CertifyStep(c: Checks, s: Node, id: string, rotation: Rotation, signature: string): Node {
    Then(s, WithSettlement(s.orders, id, LnurlPending, c.NoteReference(rotation),
      Some(rotation.(certificate := Some(signature)))), Fulfilling(id))
  }

  function PreimageStep(c: Checks, s: Node, id: string, hash: string, preimage: string): Node {
    if c.digest(preimage) == hash then s.(task := Paying(id, hash), proofs := s.proofs[id := preimage])
      else s.(task := Idle)
  }

  function PayStep(s: Node, id: string, hash: string): Node {
    Then(s, WithSettlement(s.orders, id, AwaitingPayment, HashReference(hash), None), Fulfilling(id))
  }

  function RefundStep(s: Node, id: string): Node {
    if !At(s.orders, id, RefundRequired) || s.orders[id].quote.rail != Lnurlcash then s else
    var row := s.orders[id];
    if row.quote.refundTo.None? || row.rotation.None? || row.rotation.value.certificate.None? then s
    else if row.refund.None? then s.(task := Preparing(id))
    else s.(task := Verifying(id, row.refund.value))
  }

  function MeltAnswerStep(s: Node, id: string, refund: Refund, verify: Option<string>): (t: Node)
    ensures t == s.(orders := t.orders, task := t.task)
  {
    if verify.None? then s.(task := Confirming(id, refund)) else
    var noted := refund.(issuerVerify := verify);
    Then(s, WithRefundUpdate(s.orders, id, noted), Confirming(id, noted))
  }

  function BeginStep(s: Node, a: Action): (t: Node)
    ensures t == s.(orders := t.orders, task := t.task)
  {
    match a
    case Ask(id, request, quote) => AskStep(s, id, request, quote)
    case BeginLightning(id) =>
      if At(s.orders, id, Quoted) && s.orders[id].quote.rail == Lightning then s.(task := Offering(id)) else s
    case BeginRecovery(id, invoice, hash) =>
      if At(s.orders, id, InvoicePending) && s.orders[id].quote.rail == Lightning then
        s.(task := Recording(id, invoice, hash)) else s
    case BeginSwap(id) =>
      if At(s.orders, id, Quoted) && s.orders[id].quote.rail == Lnurlcash then s.(task := Swapping(id)) else s
    case BeginCheck(id) => CheckStep(s, id)
    case BeginRefund(id) => RefundStep(s, id)
    case _ => s
  }

  /** The lock's holder goes on when it gets what it waits for. */
  function TaskStep(c: Checks, s: Node, a: Action): Node {
    if Selling(s.task) then SaleStep(s, a) else if Refunding(s.task) then MeltStep(s, a) else SettleStep(c, s, a)
  }

  predicate Selling(task: Task) {
    || task.Idle? || task.Holding? || task.Offering? || task.Issuing? || task.Issued?
    || task.Recording? || task.Swapping?
    || task.Rotating?
  }

  predicate Refunding(task: Task) {
    task.Preparing? || task.Verifying? || task.Melting? || task.Melted? || task.Confirming? || task.Completing?
  }

  /** `reserve`, `lightning`, `recover_invoice` and `lnurlcash` up to the request sent. */
  function SaleStep(s: Node, a: Action): (t: Node)
    requires Selling(s.task)
    ensures t.melts == s.melts
    ensures t.rotates == s.rotates || (s.task.Rotating? && t.orders == s.orders
      && t.rotates == s.rotates + {(s.task.id, s.task.rotation.requestUrl)})
  {
    match s.task
    case Idle => s
    case Holding(id) => if a.Hold? then HoldStep(s, id, a.expired) else s
    case Offering(id) => if a.Offer? then Then(s, WithStage(s.orders, id, Quoted, InvoicePending), Issuing(id)) else s
    case Issuing(id) => if a.Issue? then s.(task := Issued(id), created := s.created + [id]) else s
    case Issued(id) => if a.Answer? then s.(task := Recording(id, a.invoice, a.hash)) else s
    case Recording(id, invoice, hash) => if a.Record? then Then(s, WithInvoice(s.orders, id, invoice, hash), Idle)
      else s
    case Swapping(id) => if a.Journal? then JournalStep(s, id, a.noteId, a.rotation.(certificate := None)) else s
    case Rotating(id, r) => if a.SendRotate? then
      s.(task := Rotated(id, r), rotates := s.rotates + {(id, r.requestUrl)}) else s
  }

  function JournalStep(s: Node, id: string, noteId: string, rotation: Rotation): (t: Node)
    ensures t == s.(orders := t.orders, task := t.task)
  {
    Then(s, WithRotation(s.orders, id, noteId, rotation), Rotating(id, rotation))
  }

  /** From the request sent, or from `check`, through `certify` and `fulfil`. */
  function SettleStep(c: Checks, s: Node, a: Action): (t: Node)
    requires !Selling(s.task) && !Refunding(s.task)
    ensures t.rotates == s.rotates && t.melts == s.melts
  {
    match s.task
    case Rotated(id, r) => if a.Signature? then SignatureStep(c, s, id, r, a.signature) else s
    case Recovering(id, r) =>
      if a.Signature? then SignatureStep(c, s, id, r, a.signature)
      else if a.NoSignature? then s.(task := Rotating(id, r))
      else s
    case Certifying(id, r, signature) => if a.Certify? then CertifyStep(c, s, id, r, signature) else s
    case Asking(id, hash) => if a.Preimage? then PreimageStep(c, s, id, hash, a.preimage) else s
    case Paying(id, hash) => if a.Pay? then PayStep(s, id, hash) else s
    case Fulfilling(id) =>
      if a.Activate? then s.(task := Activating(id, a.receipt), activated := s.activated + {id})
      else if a.Unavailable? && id !in s.activated then s.(task := Refusing(id))
      else s
    case Activating(id, receipt) => if a.Finish? then Then(s, WithReceipt(s.orders, id, receipt), Idle) else s
    case Refusing(id) => if a.Finish? then Then(s, WithStage(s.orders, id, Settled, RefundRequired), Idle) else s
  }

  /** `refund`, from its journal on. */
  function MeltStep(s: Node, a: Action): (t: Node)
    requires Refunding(s.task)
    ensures t.rotates == s.rotates
    ensures t.melts == s.melts || (s.task.Melting? && t.orders == s.orders
      && t.melts == s.melts + {(s.task.id, s.task.refund.requestUrl)})
  {
    match s.task
    case Preparing(id) => if a.Prepare? then PrepareStep(s, id, a.refund.(issuerVerify := None, refundedAt := None))
      else s
    case Verifying(id, j) =>
      if a.Paid? then s.(task := Completing(id, j.(refundedAt := Some(a.at))))
      else if a.Outstanding? then s.(task := Melting(id, j))
      else s
    case Melting(id, j) => if a.SendMelt? then s.(task := Melted(id, j), melts := s.melts + {(id, j.requestUrl)}) else s
    case Melted(id, j) => if a.MeltAnswer? then MeltAnswerStep(s, id, j, a.verify) else s
    case Confirming(id, j) => if a.Paid? then s.(task := Completing(id, j.(refundedAt := Some(a.at)))) else s
    case Completing(id, j) => if a.Complete? then Then(s, WithRefundDone(s.orders, id, j), Idle) else s
  }

  function PrepareStep(s: Node, id: string, refund: Refund): (t: Node)
    ensures t == s.(orders := t.orders, task := t.task)
  {
    Then(s, WithRefund(s.orders, id, refund), Melting(id, refund))
  }

  function Next(c: Checks, s: Node, a: Action): Node {
    if a == Stop then s.(task := Idle)
    else if s.task == Idle then BeginStep(s, a)
    else TaskStep(c, s, a)
  }

  function Run(c: Checks, s: Node, actions: seq<Action>): Node {
    if actions == [] then s else Next(c, Run(c, s, actions[..|actions| - 1]), actions[|actions| - 1])
  }

  const START := Node(map[], {}, Idle, [], {}, {}, map[])
}
