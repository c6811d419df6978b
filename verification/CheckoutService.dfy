/** The checkout operations (`wildbloom-checkout/src/service.rs`) as methods over
    the ledger.  `node` is where the transition system stands: each method takes
    its steps in order, and what the backends answered is passed in. */
module CheckoutService {

  import opened Wrappers
  import opened CheckoutLedger
  import opened CheckoutSaga
  import opened CheckoutTheorems

  datatype Failure = Missing | Clash | Late | Pending | Capacity | Internal

  /** What `activate_paid_sale` answered. */
  datatype Sale = Activated(receipt: Receipt) | NoRoom | Broken

  /** Where a settled order goes on the store's answer. */
  function Fulfilled(sale: Sale): Stage {
    match sale
    case Activated(_) => Active
    case NoRoom => RefundRequired
    case Broken => Settled
  }

  /** `preimage` settles the order: it opens the order's hash, and no other order was settled by it. */
  predicate Pays(c: Checks, orders: Orders, id: string, preimage: Option<string>)
    requires id in orders
  {
    && preimage.Some? && orders[id].paymentHash == Some(c.digest(preimage.value))
    && !SettlementTaken(orders, id, HashReference(c.digest(preimage.value)))
  }

  /** `signature` settles the order of this journal. */
  predicate Signs(c: Checks, orders: Orders, id: string, rotation: Rotation, signature: Option<string>)
    requires id in orders
  {
    && signature.Some? && c.Signed(rotation, orders[id].quote.priceMsat, signature.value)
    && !SettlementTaken(orders, id, c.NoteReference(rotation))
  }

  /** Nothing that was written before was taken back. */
  ghost predicate Since(s: Node, t: Node) {
    && (forall id | id in s.orders :: id in t.orders && Later(s.orders[id], t.orders[id]))
    && s.created <= t.created && s.rotates <= t.rotates && s.melts <= t.melts && s.activated <= t.activated
  }

  lemma {:induction false} SinceStep(s: Node, t: Node, next: Node)
    requires Since(s, t) && Onward(t, next)
    ensures Since(s, next)
  {
    hide Later, RowStep;
    forall id | id in s.orders ensures id in next.orders && Later(s.orders[id], next.orders[id]) {
      LaterStep(s.orders[id], t.orders[id], next.orders[id]);
    }
  }

  lemma {:induction false} SinceItself(s: Node)
    ensures Since(s, s)
  {
    hide Later;
    forall id | id in s.orders ensures Later(s.orders[id], s.orders[id]) {
      LaterSame(s.orders[id]);
    }
  }

  // ---------- what each step does, one at a time ----------

  lemma {:induction false} StopIs(c: Checks, s: Node)
    ensures Next(c, s, Stop) == s.(task := Idle)
  {
  }

  lemma {:induction false} OfferIs(c: Checks, s: Node, id: string)
    requires s.task == Idle && At(s.orders, id, Quoted) && s.orders[id].quote.rail == Lightning
    ensures var t := Next(c, s, BeginLightning(id));
      && t == s.(task := Offering(id))
      && Next(c, t, Action.Offer) == s.(task := Issuing(id),
        orders := s.orders[id := s.orders[id].(stage := InvoicePending)])
  {
  }

  lemma {:induction false} IssueIs(c: Checks, s: Node, id: string, invoice: string, hash: string)
    requires s.task == Issuing(id)
    ensures var t := Next(c, s, Action.Issue);
      && t == s.(task := Issued(id), created := s.created + [id])
      && Next(c, t, Answer(invoice, hash)) == t.(task := Recording(id, invoice, hash))
  {
  }

  lemma {:induction false} RecordIs(c: Checks, s: Node, id: string, invoice: string, hash: string)
    requires s.task == Recording(id, invoice, hash)
    ensures Next(c, s, Record) == Then(s, WithInvoice(s.orders, id, invoice, hash), Idle)
  {
  }

  lemma {:induction false} JournalIs(c: Checks, s: Node, id: string, noteId: string, r: Rotation)
    requires s.task == Idle && At(s.orders, id, Quoted) && s.orders[id].quote.rail == Lnurlcash && r.certificate == None
    ensures var t := Next(c, s, BeginSwap(id));
      && t == s.(task := Swapping(id))
      && Next(c, t, Journal(noteId, r)) == Then(t, WithRotation(s.orders, id, noteId, r), Rotating(id, r))
  {
    hide WithRotation, Then;
    assert r == r.(certificate := None);
  }

  lemma {:induction false} RotateIs(c: Checks, s: Node, id: string, r: Rotation, signature: string)
    requires s.task == Rotating(id, r)
    ensures var t := Next(c, s, SendRotate);
      && t == s.(task := Rotated(id, r), rotates := s.rotates + {(id, r.requestUrl)})
      && Next(c, t, Signature(signature)) == SignatureStep(c, t, id, r, signature)
  {
    hide SignatureStep;
  }

  lemma {:induction false} CertifyIs(c: Checks, s: Node, id: string, r: Rotation, signature: string)
    requires s.task == Certifying(id, r, signature)
    ensures Next(c, s, Action.Certify) == CertifyStep(c, s, id, r, signature)
  {
    hide CertifyStep;
  }

  lemma {:induction false} ActivateIs(c: Checks, s: Node, id: string, receipt: Receipt)
    requires s.task == Fulfilling(id)
    ensures var t := Next(c, s, Activate(receipt));
      && t == s.(task := Activating(id, receipt), activated := s.activated + {id})
      && Next(c, t, Finish) == Then(t, WithReceipt(s.orders, id, receipt), Idle)
  {
    hide Then, WithReceipt, SaleStep, MeltStep, BeginStep;
  }

  lemma {:induction false} RefuseIs(c: Checks, s: Node, id: string)
    requires s.task == Fulfilling(id) && id !in s.activated
    ensures var t := Next(c, s, Unavailable);
      && t == s.(task := Refusing(id))
      && Next(c, t, Finish) == Then(t, WithStage(s.orders, id, Settled, RefundRequired), Idle)
  {
    hide Then, WithStage, SaleStep, MeltStep, BeginStep;
  }

  lemma {:induction false} CheckIs(c: Checks, s: Node, id: string)
    requires s.task == Idle
    ensures Next(c, s, BeginCheck(id)) == CheckStep(s, id)
  {
    hide CheckStep;
  }

  lemma {:induction false} RecoverIs(c: Checks, s: Node, id: string, r: Rotation, signature: string)
    requires s.task == Recovering(id, r)
    ensures Next(c, s, Signature(signature)) == SignatureStep(c, s, id, r, signature)
    ensures Next(c, s, NoSignature) == s.(task := Rotating(id, r))
  {
    hide SignatureStep, SaleStep, MeltStep, BeginStep;
  }

  lemma {:induction false} PayIs(c: Checks, s: Node, id: string, hash: string, preimage: string)
    requires s.task == Asking(id, hash) && c.digest(preimage) == hash
    ensures var t := Next(c, s, Preimage(preimage));
      && t == s.(task := Paying(id, hash), proofs := s.proofs[id := preimage])
      && Next(c, t, Pay) == PayStep(t, id, hash)
  {
    hide PayStep, SaleStep, MeltStep, BeginStep;
  }

  lemma {:induction false} RefundIs(c: Checks, s: Node, id: string)
    requires s.task == Idle
    ensures Next(c, s, BeginRefund(id)) == RefundStep(s, id)
  {
    hide RefundStep;
  }

  lemma {:induction false} PrepareIs(c: Checks, s: Node, id: string, j: Refund)
    requires s.task == Preparing(id) && j.issuerVerify == None && j.refundedAt == None
    ensures Next(c, s, Prepare(j)) == PrepareStep(s, id, j)
  {
    hide PrepareStep, SaleStep, SettleStep, BeginStep;
    assert j == j.(issuerVerify := None, refundedAt := None);
  }

  lemma {:induction false} VerifyIs(c: Checks, s: Node, id: string, j: Refund, at: nat)
    requires s.task == Verifying(id, j) || s.task == Confirming(id, j)
    ensures Next(c, s, Paid(at)) == s.(task := Completing(id, j.(refundedAt := Some(at))))
    ensures s.task.Verifying? ==> Next(c, s, Outstanding) == s.(task := Melting(id, j))
  {
    hide SaleStep, SettleStep, BeginStep;
  }

  lemma {:induction false} MeltIs(c: Checks, s: Node, id: string, j: Refund)
    requires s.task == Melting(id, j)
    ensures Next(c, s, SendMelt) == s.(task := Melted(id, j), melts := s.melts + {(id, j.requestUrl)})
  {
    hide SaleStep, SettleStep, BeginStep;
  }

  lemma {:induction false} MeltAnswerIs(c: Checks, s: Node, id: string, j: Refund, verify: Option<string>)
    requires s.task == Melted(id, j)
    ensures Next(c, s, MeltAnswer(verify)) == MeltAnswerStep(s, id, j, verify)
  {
    hide MeltAnswerStep, SaleStep, SettleStep, BeginStep;
  }

  /** A refund needs a certified note to melt and an address to pay. */
  predicate Refundable(row: Row) {
    && row.stage == RefundRequired && row.quote.rail == Lnurlcash && row.quote.refundTo.Some?
    && row.rotation.Some? && row.rotation.value.certificate.Some?
  }

  lemma {:induction false} CompleteIs(c: Checks, s: Node, id: string, j: Refund)
    requires s.task == Completing(id, j)
    ensures Next(c, s, Action.Complete) == Then(s, WithRefundDone(s.orders, id, j), Idle)
  {
    hide Then, WithRefundDone, SaleStep, SettleStep, BeginStep;
  }

  class Checkout {
    const checks: Checks
    const ledger: Ledger
    ghost var node: Node

    ghost predicate Valid()
      reads this, ledger
    {
      ledger.Valid() && node.orders == ledger.orders && node.task == Idle && Inv(checks, node)
    }

    /** An operation that began at `start` holds the lock and has got to `task`. */
    ghost predicate Doing(task: Task, start: Node)
      reads this, ledger
    {
      ledger.Valid() && node.orders == ledger.orders && node.task == task && Inv(checks, node) && Since(start, node)
    }

    constructor (checks: Checks, ledger: Ledger)
      requires ledger.orders == map[]
      ensures Valid() && this.checks == checks && this.ledger == ledger && node == START
    {
      this.checks, this.ledger, this.node := checks, ledger, START;
      StartHolds(checks);
    }

    /** One step of the transition system. */
    ghost method Step(a: Action, start: Node)
      requires Inv(checks, node) && Since(start, node)
      modifies this`node
      ensures node == Next(checks, old(node), a) && Inv(checks, node) && Since(start, node)
    {
      hide Inv, Since, Onward, Next;
      StepKeeps(checks, node, a);
      SinceStep(start, node, Next(checks, node, a));
      node := Next(checks, node, a);
    }

    /** `reserve`, for an order read at the reserving stage. */
    method Reserve(id: string, expired: bool, held: bool, ghost start: Node) returns (r: Result<Stage, Failure>)
      requires Doing(Holding(id), start)
      requires At(ledger.orders, id, Reserving)
      modifies this`node, ledger
      ensures Valid() && Since(start, node) && node.melts == old(node.melts)
      ensures id in ledger.orders && ledger.orders == old(ledger.orders)[id := ledger.orders[id]]
      ensures ledger.orders[id] ==
        old(ledger.orders)[id].(stage := if expired then Expired else if held then Quoted else Reserving)
      ensures r == if !expired && !held then Err(Capacity) else Ok(ledger.orders[id].stage)
    {
      hide Inv, Since, Unique;
      if !expired && !held {
        Step(Stop, start);
        return Err(Capacity);
      }
      var to := if expired then Expired else Quoted;
      var wrote := ledger.SetStage(id, Reserving, to);
      Step(Hold(expired), start);
      r := Ok(to);
    }

    /** `quote`: a repeated request finds its order; another one for the same id is refused. */
    method Quote(
        id: string, request: string, quote: Quote, expired: bool, held: bool) returns (r: Result<Stage, Failure>)
      requires Valid()
      modifies this`node, ledger
      ensures Valid() && Since(old(node), node)
      ensures r.Ok? ==>
        id in ledger.orders && ledger.orders[id].stage == r.value && ledger.orders[id].request == request
      ensures id in old(ledger.orders) && old(ledger.orders)[id].request != request ==>
        r == Err(Clash) && ledger.orders == old(ledger.orders)
      ensures id in old(ledger.orders) && old(ledger.orders)[id].stage != Reserving ==>
        ledger.orders == old(ledger.orders)
      ensures id !in old(ledger.orders) ==>
        if |old(ledger.orders)| >= MAX_ORDERS then r.Err? && ledger.orders == old(ledger.orders)
        else
          && id in ledger.orders
          && ledger.orders[id] ==
             NewRow(request, quote).(stage := if expired then Expired else if held then Quoted else Reserving)
    {
      hide Inv, Since, Unique;
      ghost var start := node;
      SinceItself(node);
      if id in ledger.orders {
        if ledger.orders[id].request != request {
          return Err(Clash);
        }
        if ledger.orders[id].stage != Reserving {
          return Ok(ledger.orders[id].stage);
        }
      } else {
        var wrote := ledger.Insert(id, quote, request);
        if wrote.Err? {
          return Err(Internal);
        }
      }
      Step(Ask(id, request, quote), start);
      r := Reserve(id, expired, held, start);
    }

    /** `lightning`: `answer` is the invoice and hash the backend made, if it answered with a valid one. */
    method Lightning(id: string, late: bool, answer: Option<(string, string)>) returns (r: Result<Stage, Failure>)
      requires Valid()
      modifies this`node, ledger
      ensures Valid() && Since(old(node), node)
      ensures var asked := At(old(ledger.orders), id, Quoted)
        && old(ledger.orders)[id].quote.rail == CheckoutLedger.Lightning && !late;
        && node.created == old(node.created) + (if asked then [id] else [])
        && (asked && answer.Some? && !HashTaken(old(ledger.orders), id, answer.value.1) ==>
            At(ledger.orders, id, AwaitingPayment) && ledger.orders[id].paymentHash == Some(answer.value.1))
        && (!asked ==> ledger.orders == old(ledger.orders))
    {
      hide Inv, Since, Unique, Next, Then, HashTaken;
      ghost var start := node;
      SinceItself(node);
      if id !in ledger.orders {
        return Err(Missing);
      }
      var row := ledger.orders[id];
      if row.quote.rail != CheckoutLedger.Lightning {
        return Err(Clash);
      }
      match row.stage
      case AwaitingPayment => return Ok(row.stage);
      case Settled => return Ok(row.stage);
      case Active => return Ok(row.stage);
      case RefundRequired => return Ok(row.stage);
      case InvoicePending => return Err(Pending);
      case Expired => return Err(Late);
      case Quoted =>
        if late {
          return Err(Late);
        }
        r := Offer(id, answer, start);
      case _ => return Err(Clash);
    }

    /** Marks the order as waiting for its invoice, so that no later call makes another. */
    method Offer(id: string, answer: Option<(string, string)>, ghost start: Node) returns (r: Result<Stage, Failure>)
      requires Valid() && Since(start, node) && At(ledger.orders, id, Quoted)
      requires ledger.orders[id].quote.rail == CheckoutLedger.Lightning
      modifies this`node, ledger
      ensures Valid() && Since(start, node) && node.created == old(node.created) + [id]
      ensures answer.Some? && !HashTaken(old(ledger.orders), id, answer.value.1) ==>
        At(ledger.orders, id, AwaitingPayment) && ledger.orders[id].paymentHash == Some(answer.value.1)
    {
      hide Inv, Since, Unique, Next, Then;
      OfferIs(checks, node, id);
      Step(BeginLightning(id), start);
      var wrote := ledger.SetStage(id, Quoted, InvoicePending);
      Step(Action.Offer, start);
      r := Issue(id, answer, start);
    }

    /** Calls `create_invoice`, once the order is marked as waiting for it. */
    method Issue(id: string, answer: Option<(string, string)>, ghost start: Node) returns (r: Result<Stage, Failure>)
      requires Doing(Issuing(id), start)
      modifies this`node, ledger
      ensures Valid() && Since(start, node) && node.created == old(node.created) + [id]
      ensures answer.None? ==> r == Err(Pending) && ledger.orders == old(ledger.orders)
      ensures answer.Some? ==>
        Wrote(old(ledger.orders), WithInvoice(old(ledger.orders), id, answer.value.0, answer.value.1), ledger.orders,
          if r.Ok? then Ok(()) else Err(Conflict))
    {
      hide Inv, Since, Unique, HashTaken, Next;
      IssueIs(checks, node, id,
              if answer.Some? then answer.value.0 else "", if answer.Some? then answer.value.1 else "");
      Step(Action.Issue, start);
      StopIs(checks, node);
      if answer.None? {
        Step(Stop, start);
        return Err(Pending);
      }
      Step(Answer(answer.value.0, answer.value.1), start);
      RecordIs(checks, node, id, answer.value.0, answer.value.1);
      var wrote := ledger.SetInvoice(id, answer.value.0, answer.value.1);
      Step(Record, start);
      r := if wrote.Ok? then Ok(AwaitingPayment) else Err(Clash);
    }

    /** `recover_invoice`: the operator found the invoice an interrupted call made. */
    method RecoverInvoice(id: string, invoice: string, hash: string, sound: bool) returns (r: Result<(), Failure>)
      requires Valid()
      modifies this`node, ledger
      ensures Valid() && Since(old(node), node) && node.created == old(node.created)
      ensures r.Ok? <==>
        && At(old(ledger.orders), id, InvoicePending) && old(ledger.orders)[id].quote.rail == CheckoutLedger.Lightning
        && sound && !HashTaken(old(ledger.orders), id, hash)
      ensures r.Ok? ==> WithInvoice(old(ledger.orders), id, invoice, hash) == Ok(ledger.orders)
      ensures r.Err? ==> ledger.orders == old(ledger.orders)
    {
      hide Inv, Since, Unique, HashTaken, SettleStep, MeltStep;
      ghost var start := node;
      SinceItself(node);
      if id !in ledger.orders {
        return Err(Missing);
      }
      var row := ledger.orders[id];
      if row.stage != InvoicePending || row.quote.rail != CheckoutLedger.Lightning {
        return Err(Clash);
      }
      if !sound {
        return Err(Pending);
      }
      Step(BeginRecovery(id, invoice, hash), start);
      hide Next;
      RecordIs(checks, node, id, invoice, hash);
      var wrote := ledger.SetInvoice(id, invoice, hash);
      Step(Record, start);
      r := if wrote.Ok? then Ok(()) else Err(Clash);
    }

    /** `fulfil`: always asks the store first, for it may have activated the sale before. */
    method Fulfil(id: string, sale: Sale, ghost start: Node) returns (r: Result<Stage, Failure>)
      requires Doing(Fulfilling(id), start)
      requires At(ledger.orders, id, Settled) && (sale.NoRoom? ==> id !in node.activated)
      modifies this`node, ledger
      ensures Valid() && Since(start, node) && node.rotates == old(node.rotates) && node.melts == old(node.melts)
      ensures match sale
        case Activated(receipt) =>
          && r == Ok(Active)
          && ledger.orders ==
             old(ledger.orders)[id := old(ledger.orders)[id].(stage := Active, receipt := Some(receipt))]
        case NoRoom =>
          && r == Ok(RefundRequired)
          && ledger.orders == old(ledger.orders)[id := old(ledger.orders)[id].(stage := RefundRequired)]
        case Broken => r == Err(Internal) && ledger.orders == old(ledger.orders)
    {
      hide Inv, Since, Unique, Next;
      match sale
      case Activated(receipt) =>
        ActivateIs(checks, node, id, receipt);
        Step(Activate(receipt), start);
        var wrote := ledger.Activate(id, receipt);
        Step(Finish, start);
        r := Ok(Active);
      case NoRoom =>
        RefuseIs(checks, node, id);
        Step(Unavailable, start);
        var wrote := ledger.SetStage(id, Settled, RefundRequired);
        Step(Finish, start);
        r := Ok(RefundRequired);
      case Broken =>
        StopIs(checks, node);
        Step(Stop, start);
        r := Err(Internal);
    }

    /** `certify` and `fulfil`, once the issuer's signature checked. */
    method Certify(
        id: string, rotation: Rotation, signature: string, sale: Sale, ghost start: Node)
        returns (r: Result<Stage, Failure>)
      requires Doing(Certifying(id, rotation, signature), start)
      requires At(ledger.orders, id, LnurlPending) && (sale.NoRoom? ==> id !in node.activated)
      modifies this`node, ledger
      ensures Valid() && Since(start, node) && node.rotates == old(node.rotates) && node.melts == old(node.melts)
      ensures r.Ok? ==>
        id in ledger.orders && ledger.orders[id].stage == r.value && (r.value == Active || r.value == RefundRequired)
      ensures forall other | other in old(ledger.orders) && other != id ::
        other in ledger.orders && ledger.orders[other] == old(ledger.orders)[other]
      ensures
        if SettlementTaken(old(ledger.orders), id, checks.NoteReference(rotation)) then
          r == Err(Clash) && ledger.orders == old(ledger.orders)
        else
          && At(ledger.orders, id, Fulfilled(sale))
          && ledger.orders[id].rotation == Some(rotation.(certificate := Some(signature)))
    {
      hide Inv, Since, Unique, Next, SettlementTaken;
      CertifyIs(checks, node, id, rotation, signature);
      var wrote := ledger.Settle(id, LnurlPending, checks.NoteReference(rotation),
        Some(rotation.(certificate := Some(signature))));
      Step(Action.Certify, start);
      if wrote.Err? {
        return Err(Clash);
      }
      r := Fulfil(id, sale, start);
    }

    /** `rotate`: sends the journalled request, and settles on a signed answer. */
    method Rotate(id: string, rotation: Rotation, known: bool, answer: Option<string>, sale: Sale, ghost start: Node)
      returns (r: Result<Stage, Failure>)
      requires Doing(Rotating(id, rotation), start)
      requires At(ledger.orders, id, LnurlPending) && (sale.NoRoom? ==> id !in node.activated)
      modifies this`node, ledger
      ensures Valid() && Since(start, node) && node.melts == old(node.melts)
      ensures node.rotates == if known then old(node.rotates) + {(id, rotation.requestUrl)} else old(node.rotates)
      ensures r.Ok? ==>
        id in ledger.orders && ledger.orders[id].stage == r.value && (r.value == Active || r.value == RefundRequired)
      ensures
        !(known && answer.Some? && checks.Signed(rotation, old(ledger.orders)[id].quote.priceMsat, answer.value)) ==>
          r.Err? && ledger.orders == old(ledger.orders)
      ensures known && Signs(checks, old(ledger.orders), id, rotation, answer) ==>
        At(ledger.orders, id, Fulfilled(sale))
    {
      hide Inv, Since, Unique, Next, SettlementTaken;
      StopIs(checks, node);
      if !known {
        Step(Stop, start);
        return Err(Missing);
      }
      RotateIs(checks, node, id, rotation, if answer.Some? then answer.value else "");
      Step(SendRotate, start);
      StopIs(checks, node);
      if answer.None? || !checks.Signed(rotation, ledger.orders[id].quote.priceMsat, answer.value) {
        Step(Stop, start);
        return Err(Pending);
      }
      Step(Signature(answer.value), start);
      r := Certify(id, rotation, answer.value, sale, start);
    }

    /** `lnurlcash`: `sound` is whether the note, its issuer and its amount checked. */
    method Lnurlcash(
        id: string, noteId: string, rotation: Rotation, late: bool, sound: bool, known: bool, answer: Option<string>,
        sale: Sale)
      returns (r: Result<Stage, Failure>)
      requires Valid() && rotation.certificate == None && (sale.NoRoom? ==> id !in node.activated)
      modifies this`node, ledger
      ensures Valid() && Since(old(node), node) && node.melts == old(node.melts)
      ensures var taken := At(old(ledger.orders), id, Quoted)
        && old(ledger.orders)[id].quote.rail == CheckoutLedger.Lnurlcash
                && !late && sound && !NoteTaken(old(ledger.orders), noteId);
        && node.rotates == old(node.rotates) + (if taken && known then {(id, rotation.requestUrl)} else {})
        && (!taken ==> r.Err? && ledger.orders == old(ledger.orders))
      ensures r.Ok? ==>
        id in ledger.orders && ledger.orders[id].stage == r.value && (r.value == Active || r.value == RefundRequired)
    {
      hide Inv, Since, Unique, Next, NoteTaken;
      ghost var start := node;
      SinceItself(node);
      if id !in ledger.orders {
        return Err(Missing);
      }
      var row := ledger.orders[id];
      if row.quote.rail != CheckoutLedger.Lnurlcash {
        return Err(Clash);
      }
      if row.stage == Expired {
        return Err(Late);
      }
      if row.stage != Quoted {
        return Err(Clash);
      }
      if late || !sound {
        return Err(if late then Late else Internal);
      }
      JournalIs(checks, node, id, noteId, rotation);
      Step(BeginSwap(id), start);
      var wrote := ledger.SetRotation(id, noteId, rotation);
      Step(Journal(noteId, rotation), start);
      if wrote.Err? {
        return Err(Clash);
      }
      r := Rotate(id, rotation, known, answer, sale, start);
    }

    /** A paid invoice settles its order on the preimage of its hash. */
    method CheckInvoice(
        id: string, preimage: Option<string>, sale: Sale, ghost start: Node) returns (r: Result<Stage, Failure>)
      requires Valid() && Since(start, node) && At(ledger.orders, id, AwaitingPayment)
      requires (sale.NoRoom? ==> id !in node.activated)
      modifies this`node, ledger
      ensures Valid() && Since(start, node) && node.rotates == old(node.rotates) && node.melts == old(node.melts)
      ensures r.Ok? ==> id in ledger.orders && ledger.orders[id].stage == r.value
      ensures preimage.None? || Some(checks.digest(preimage.value)) != old(ledger.orders)[id].paymentHash ==>
        ledger.orders == old(ledger.orders)
      ensures Pays(checks, old(ledger.orders), id, preimage) ==> At(ledger.orders, id, Fulfilled(sale))
    {
      hide Inv, Since, Unique, Next, SettlementTaken;
      var row := ledger.orders[id];
      if row.paymentHash.None? {
        return Err(Internal);
      }
      var hash := row.paymentHash.value;
      CheckIs(checks, node, id);
      Step(BeginCheck(id), start);
      StopIs(checks, node);
      if preimage.None? {
        Step(Stop, start);
        return Ok(AwaitingPayment);
      }
      if checks.digest(preimage.value) != hash {
        Step(Stop, start);
        return Err(Pending);
      }
      PayIs(checks, node, id, hash, preimage.value);
      Step(Preimage(preimage.value), start);
      var wrote := ledger.Settle(id, AwaitingPayment, HashReference(hash), None);
      Step(Pay, start);
      if wrote.Err? {
        return Err(Clash);
      }
      r := Fulfil(id, sale, start);
    }

    /** A pending rotation settles on the saved replacement note, or is sent again as it was. */
    method CheckRotation(
        id: string, found: Option<string>, known: bool, answer: Option<string>, sale: Sale, ghost start: Node)
      returns (r: Result<Stage, Failure>)
      requires Valid() && Since(start, node) && At(ledger.orders, id, LnurlPending)
      requires (sale.NoRoom? ==> id !in node.activated)
      modifies this`node, ledger
      ensures Valid() && Since(start, node) && node.melts == old(node.melts)
      ensures r.Ok? ==> id in ledger.orders && ledger.orders[id].stage == r.value
      ensures var rotation := old(ledger.orders)[id].rotation;
        node.rotates <= old(node.rotates) + (if rotation.Some? then {(id, rotation.value.requestUrl)} else {})
      ensures var row := old(ledger.orders)[id];
        row.rotation.Some? && Signs(checks, old(ledger.orders), id, row.rotation.value, found) ==>
          node.rotates == old(node.rotates) && At(ledger.orders, id, Fulfilled(sale))
    {
      hide Inv, Since, Unique, Next, SettlementTaken;
      var row := ledger.orders[id];
      if row.rotation.None? {
        return Err(Internal);
      }
      var rotation := row.rotation.value;
      CheckIs(checks, node, id);
      Step(BeginCheck(id), start);
      RecoverIs(checks, node, id, rotation, if found.Some? then found.value else "");
      if found.Some? && checks.Signed(rotation, row.quote.priceMsat, found.value) {
        Step(Signature(found.value), start);
        r := Certify(id, rotation, found.value, sale, start);
      } else {
        Step(NoSignature, start);
        r := Rotate(id, rotation, known, answer, sale, start);
      }
    }

    /** `check`: one bounded attempt to settle or recover, from wherever the order stands. */
    method Check(
      id: string, expired: bool, held: bool, preimage: Option<string>, found: Option<string>, known: bool,
      answer: Option<string>, sale: Sale)
      returns (r: Result<Stage, Failure>)
      requires Valid() && (sale.NoRoom? ==> id !in node.activated)
      modifies this`node, ledger
      ensures Valid() && Since(old(node), node) && node.melts == old(node.melts)
      ensures r.Ok? ==> id in ledger.orders && ledger.orders[id].stage == r.value
      ensures At(old(ledger.orders), id, InvoicePending) ==> r == Err(Pending) && ledger.orders == old(ledger.orders)
      ensures At(old(ledger.orders), id, Settled) ==> At(ledger.orders, id, Fulfilled(sale))
      ensures At(old(ledger.orders), id, AwaitingPayment) && Pays(checks, old(ledger.orders), id, preimage) ==>
        At(ledger.orders, id, Fulfilled(sale))
    {
      hide Inv, Since, Unique, Next, SettlementTaken;
      ghost var start := node;
      SinceItself(node);
      if id !in ledger.orders {
        return Err(Missing);
      }
      var stage := ledger.orders[id].stage;
      if stage == AwaitingPayment {
        r := CheckInvoice(id, preimage, sale, start);
      } else if stage == LnurlPending {
        r := CheckRotation(id, found, known, answer, sale, start);
      } else if stage == Settled {
        CheckIs(checks, node, id);
        Step(BeginCheck(id), start);
        r := Fulfil(id, sale, start);
      } else if stage == InvoicePending {
        r := Err(Pending);
      } else if stage == Reserving {
        CheckIs(checks, node, id);
        Step(BeginCheck(id), start);
        r := Reserve(id, expired, held, start);
      } else {
        r := Ok(stage);
      }
    }

    method Complete(id: string, j: CheckoutLedger.Refund, ghost start: Node) returns (r: Result<Stage, Failure>)
      requires Doing(Completing(id, j), start)
      requires At(ledger.orders, id, RefundRequired) && j.refundedAt.Some?
      modifies this`node, ledger
      ensures Valid() && Since(start, node) && node.rotates == old(node.rotates) && node.melts == old(node.melts)
      ensures r == Ok(Refunded)
      ensures ledger.orders == old(ledger.orders)[id := old(ledger.orders)[id].(stage := Refunded, refund := Some(j))]
    {
      hide Inv, Since, Unique, Next;
      CompleteIs(checks, node, id, j);
      var wrote := ledger.CompleteRefund(id, j);
      Step(Action.Complete, start);
      r := Ok(Refunded);
    }

    /** Keeps the verify link the mint answered with, beside the journal it belongs to. */
    method Note(
        id: string, j: CheckoutLedger.Refund, verify: Option<string>, ghost start: Node)
        returns (noted: CheckoutLedger.Refund)
      requires Doing(Melted(id, j), start)
      requires At(ledger.orders, id, RefundRequired) && ledger.orders[id].refund == Some(j)
      modifies this`node, ledger
      ensures Doing(Confirming(id, noted), start)
      ensures node.melts == old(node.melts) && node.rotates == old(node.rotates) && SameRefund(j, noted)
      ensures At(ledger.orders, id, RefundRequired) && ledger.orders[id].refund == Some(noted)
    {
      hide Inv, Since, Unique, Next;
      noted := j;
      if verify.Some? {
        noted := j.(issuerVerify := verify);
        var wrote := ledger.UpdateRefund(id, noted);
      }
      MeltAnswerIs(checks, node, id, j, verify);
      Step(MeltAnswer(verify), start);
    }

    /** Sends the journalled melt; `answer` is the mint's reply, if valid, with its verify link. */
    method Melt(
        id: string, j: CheckoutLedger.Refund, answer: Option<Option<string>>, settled: bool, at: nat, ghost start: Node)
        returns (r: Result<Stage, Failure>)
      requires Doing(Melting(id, j), start)
      requires At(ledger.orders, id, RefundRequired) && ledger.orders[id].refund == Some(j)
      modifies this`node, ledger
      ensures Valid() && Since(start, node) && node.rotates == old(node.rotates)
      ensures node.melts == old(node.melts) + {(id, j.requestUrl)}
      ensures if answer.Some? && settled then r == Ok(Refunded) && At(ledger.orders, id, Refunded)
        else r.Err? && At(ledger.orders, id, RefundRequired)
      ensures id in ledger.orders && ledger.orders[id].refund.Some?
      ensures ledger.orders[id].refund.value.requestUrl == j.requestUrl
    {
      hide Inv, Since, Unique, Next;
      MeltIs(checks, node, id, j);
      Step(SendMelt, start);
      StopIs(checks, node);
      if answer.None? {
        Step(Stop, start);
        return Err(Pending);
      }
      var noted := Note(id, j, answer.value, start);
      r := Confirm(id, noted, settled, at, start);
    }

    /** The last look at the payment, after the melt was answered. */
    method Confirm(
        id: string, j: CheckoutLedger.Refund, settled: bool, at: nat, ghost start: Node)
        returns (r: Result<Stage, Failure>)
      requires Doing(Confirming(id, j), start)
      requires At(ledger.orders, id, RefundRequired) && ledger.orders[id].refund == Some(j)
      modifies this`node, ledger
      ensures Valid() && Since(start, node) && node.rotates == old(node.rotates) && node.melts == old(node.melts)
      ensures if settled then r == Ok(Refunded) && At(ledger.orders, id, Refunded)
        else r.Err? && At(ledger.orders, id, RefundRequired)
      ensures ledger.orders[id].refund.Some? && SameRefund(j, ledger.orders[id].refund.value)
    {
      hide Inv, Since, Unique, Next;
      StopIs(checks, node);
      VerifyIs(checks, node, id, j, at);
      if !settled {
        Step(Stop, start);
        return Err(Pending);
      }
      Step(Paid(at), start);
      r := Complete(id, j.(refundedAt := Some(at)), start);
    }

    /** `refund`: `prepared` is the journal made from the receiver's answers, when there is none yet;
        `before` and `after` are whether the payment is seen settled before and after the melt. */
    method Refund(
      id: string, prepared: Option<CheckoutLedger.Refund>, before: bool, answer: Option<Option<string>>, after: bool,
      at: nat)
      returns (r: Result<Stage, Failure>)
      requires Valid() && (prepared.Some? ==> prepared.value.issuerVerify == None && prepared.value.refundedAt == None)
      modifies this`node, ledger
      ensures Valid() && Since(old(node), node) && node.rotates == old(node.rotates)
      ensures r.Ok? ==> r.value == Refunded && At(ledger.orders, id, Refunded)
      ensures !At(old(ledger.orders), id, RefundRequired) ==>
        ledger.orders == old(ledger.orders) && node.melts == old(node.melts)
      ensures id in ledger.orders && ledger.orders[id].refund.Some? ==>
        node.melts <= old(node.melts) + {(id, ledger.orders[id].refund.value.requestUrl)}
    {
      hide Inv, Since, Unique, Next;
      ghost var start := node;
      SinceItself(node);
      if id !in ledger.orders {
        return Err(Missing);
      }
      var row := ledger.orders[id];
      if row.stage == Refunded {
        return Ok(Refunded);
      }
      if row.stage != RefundRequired || row.quote.rail != CheckoutLedger.Lnurlcash {
        return Err(Clash);
      }
      if row.quote.refundTo.None? || row.rotation.None? || row.rotation.value.certificate.None? {
        return Err(Pending);
      }
      if row.refund.None? {
        r := FirstMelt(id, prepared, answer, after, at, start);
      } else {
        r := NextMelt(id, row.refund.value, before, answer, after, at, start);
      }
    }

    /** With no journal yet: write it, then melt. */
    method FirstMelt(
        id: string, prepared: Option<CheckoutLedger.Refund>, answer: Option<Option<string>>, after: bool, at: nat,
        ghost start: Node)
      returns (r: Result<Stage, Failure>)
      requires Valid() && Since(start, node)
      requires (prepared.Some? ==> prepared.value.issuerVerify == None && prepared.value.refundedAt == None)
      requires id in ledger.orders && Refundable(ledger.orders[id]) && ledger.orders[id].refund.None?
      modifies this`node, ledger
      ensures Valid() && Since(start, node) && node.rotates == old(node.rotates)
      ensures r.Ok? ==> r.value == Refunded && At(ledger.orders, id, Refunded)
      ensures node.melts == old(node.melts) + (if prepared.Some? then {(id, prepared.value.requestUrl)} else {})
      ensures r.Ok? <==> prepared.Some? && answer.Some? && after
      ensures prepared.Some? ==>
        id in ledger.orders && ledger.orders[id].refund.Some?
          && ledger.orders[id].refund.value.requestUrl == prepared.value.requestUrl
      ensures prepared.None? ==> ledger.orders == old(ledger.orders)
    {
      hide Inv, Since, Unique, Next;
      RefundIs(checks, node, id);
      Step(BeginRefund(id), start);
      StopIs(checks, node);
      if prepared.None? {
        Step(Stop, start);
        return Err(Pending);
      }
      PrepareIs(checks, node, id, prepared.value);
      var wrote := ledger.StartRefund(id, prepared.value);
      Step(Prepare(prepared.value), start);
      r := Melt(id, prepared.value, answer, after, at, start);
    }

    /** With a journal: look whether it was paid, and otherwise send the same melt again. */
    method NextMelt(
        id: string, j: CheckoutLedger.Refund, before: bool, answer: Option<Option<string>>, after: bool, at: nat,
        ghost start: Node)
      returns (r: Result<Stage, Failure>)
      requires Valid() && Since(start, node)
      requires id in ledger.orders && Refundable(ledger.orders[id]) && ledger.orders[id].refund == Some(j)
      modifies this`node, ledger
      ensures Valid() && Since(start, node) && node.rotates == old(node.rotates)
      ensures r.Ok? ==> r.value == Refunded && At(ledger.orders, id, Refunded)
      ensures node.melts == old(node.melts) + (if before then {} else {(id, j.requestUrl)})
      ensures r.Ok? <==> before || (answer.Some? && after)
      ensures id in ledger.orders && ledger.orders[id].refund.Some?
      ensures ledger.orders[id].refund.value.requestUrl == j.requestUrl
    {
      hide Inv, Since, Unique, Next;
      RefundIs(checks, node, id);
      Step(BeginRefund(id), start);
      VerifyIs(checks, node, id, j, at);
      if before {
        Step(Paid(at), start);
        r := Complete(id, j.(refundedAt := Some(at)), start);
      } else {
        Step(Outstanding, start);
        r := Melt(id, j, answer, after, at, start);
      }
    }
  }
}
