/** The checkout ledger (`wildbloom-checkout/src/ledger.rs`): one row per order,
    changed only by compare-and-set updates. */
module CheckoutLedger {

  import opened Wrappers

  const MAX_ORDERS: nat := 10_000

  datatype Stage =
    | Reserving | Quoted | Expired | InvoicePending | AwaitingPayment | LnurlPending
    | Settled | Active | RefundRequired | Refunded

  datatype Rail = Lightning | Lnurlcash

  datatype Issuer = Issuer(id: string, mintPubkey: string, endpoint: string, callback: string)

  datatype Quote = Quote(signer: string, rail: Rail, issuer: Option<Issuer>, priceMsat: nat, refundTo: Option<string>)

  /** The journal of one note rotation: `requestUrl` spends the buyer's note for `newSecret`. */
  datatype Rotation = Rotation(
    requestUrl: string, newSecret: string, outputs: seq<string>, issuer: string, mintPubkey: string, endpoint: string,
    certificate: Option<string>)

  /** The journal of one refund: `requestUrl` melts the note into `invoice`. */
  datatype Refund = Refund(
    destination: string, invoice: string, paymentHash: string, receiverVerify: Option<string>, requestUrl: string,
    issuerVerify: Option<string>, refundedAt: Option<nat>)

  datatype Receipt = Receipt(allowanceId: string, capacityBytes: nat, startsAt: nat, writesUntil: nat,
    retainsUntil: nat)

  datatype Row = Row(
    request: string, quote: Quote, stage: Stage, invoice: Option<string>, paymentHash: Option<string>,
    rotation: Option<Rotation>,
    noteId: Option<string>, settlement: Option<string>, receipt: Option<Receipt>, refund: Option<Refund>)

  type Orders = map<string, Row>

  datatype Error = Busy | Conflict | Invalid

  // ---------- the updates, on the table ----------

  function NewRow(request: string, quote: Quote): Row {
    Row(request, quote, Reserving, None, None, None, None, None, None, None)
  }

  /** `UPDATE … WHERE id = ? AND state = ?`: the row must be at `from`. */
  predicate At(orders: Orders, id: string, from: Stage) {
    id in orders && orders[id].stage == from
  }

  function WithStage(orders: Orders, id: string, from: Stage, to: Stage): Result<Orders, Error> {
    if At(orders, id, from) then Ok(orders[id := orders[id].(stage := to)]) else Err(Conflict)
  }

  predicate HashTaken(orders: Orders, id: string, hash: string) {
    exists other | other in orders && other != id :: orders[other].paymentHash == Some(hash)
  }

  function WithInvoice(orders: Orders, id: string, invoice: string, hash: string): Result<Orders, Error> {
    if HashTaken(orders, id, hash) || !At(orders, id, InvoicePending) then Err(Conflict) else
    Ok(orders[id := orders[id].(stage := AwaitingPayment, invoice := Some(invoice), paymentHash := Some(hash))])
  }

  predicate NoteTaken(orders: Orders, noteId: string) {
    exists other | other in orders :: orders[other].noteId == Some(noteId)
  }

  function WithRotation(orders: Orders, id: string, noteId: string, rotation: Rotation): Result<Orders, Error> {
    if NoteTaken(orders, noteId) || !At(orders, id, Quoted) then Err(Conflict) else
    Ok(orders[id := orders[id].(stage := LnurlPending, noteId := Some(noteId), rotation := Some(rotation))])
  }

  predicate SettlementTaken(orders: Orders, id: string, reference: string) {
    exists other | other in orders && other != id :: orders[other].settlement == Some(reference)
  }

  function WithSettlement(
      orders: Orders, id: string, from: Stage, reference: string, rotation: Option<Rotation>): Result<Orders, Error> {
    if SettlementTaken(orders, id, reference) || !At(orders, id, from) then Err(Conflict) else
    Ok(orders[id := orders[id].(stage := Settled, settlement := Some(reference),
      rotation := if rotation.Some? then rotation else orders[id].rotation)])
  }

  function WithReceipt(orders: Orders, id: string, receipt: Receipt): Result<Orders, Error> {
    if At(orders, id, Settled) then Ok(orders[id := orders[id].(stage := Active, receipt := Some(receipt))])
      else Err(Conflict)
  }

  function WithRefund(orders: Orders, id: string, refund: Refund): Result<Orders, Error> {
    if At(orders, id, RefundRequired) && orders[id].refund.None? then
      Ok(orders[id := orders[id].(refund := Some(refund))])
    else Err(Conflict)
  }

  function WithRefundUpdate(orders: Orders, id: string, refund: Refund): Result<Orders, Error> {
    if id !in orders || orders[id].refund.None? then Err(Conflict) else
    var current := orders[id].refund.value;
    if current.paymentHash != refund.paymentHash || current.requestUrl != refund.requestUrl
       || orders[id].stage != RefundRequired then
      Err(Conflict)
    else Ok(orders[id := orders[id].(refund := Some(refund))])
  }

  function WithRefundDone(orders: Orders, id: string, refund: Refund): Result<Orders, Error> {
    if refund.refundedAt.None? then Err(Invalid)
    else if At(orders, id, RefundRequired) then Ok(orders[id := orders[id].(stage := Refunded, refund := Some(refund))])
    else Err(Conflict)
  }

  // ---------- what the updates keep ----------

  /** No two orders share a value in one column. */
  ghost predicate Distinct(orders: Orders, column: Row -> Option<string>) {
    forall a, b | a in orders && b in orders && a != b && column(orders[a]).Some? ::
      column(orders[a]) != column(orders[b])
  }

  const Hashes: Row -> Option<string> := (row: Row) => row.paymentHash
  const Notes: Row -> Option<string> := (row: Row) => row.noteId
  const Settlements: Row -> Option<string> := (row: Row) => row.settlement

  /** No two orders share a payment hash, a note or a settlement. */
  ghost predicate Unique(orders: Orders) {
    Distinct(orders, Hashes) && Distinct(orders, Notes) && Distinct(orders, Settlements)
  }

  lemma {:induction false} UpdateKeepsDistinct(orders: Orders, id: string, row: Row, column: Row -> Option<string>)
    requires Distinct(orders, column)
    requires column(row).Some? ==>
      || (id in orders && column(row) == column(orders[id]))
      || (forall other | other in orders && other != id :: column(orders[other]) != column(row))
    ensures Distinct(orders[id := row], column)
  {
  }

  lemma {:induction false} SameColumnsKeepUnique(orders: Orders, id: string, row: Row)
    requires Unique(orders) && id in orders
    requires row.paymentHash == orders[id].paymentHash && row.noteId == orders[id].noteId
    requires row.settlement == orders[id].settlement
    ensures Unique(orders[id := row])
  {
    hide Distinct;
    UpdateKeepsDistinct(orders, id, row, Hashes);
    UpdateKeepsDistinct(orders, id, row, Notes);
    UpdateKeepsDistinct(orders, id, row, Settlements);
  }

  /** A row that was at `from` moves to where the graph lets it. */
  predicate Edge(from: Stage, to: Stage) {
    match from
    case Reserving => to == Quoted || to == Expired
    case Quoted => to == InvoicePending || to == LnurlPending
    case InvoicePending => to == AwaitingPayment
    case AwaitingPayment => to == Settled
    case LnurlPending => to == Settled
    case Settled => to == Active || to == RefundRequired
    case RefundRequired => to == Refunded
    case _ => false
  }

  /** The table after an update, or the reason it was left alone. */
  ghost predicate Wrote(before: Orders, update: Result<Orders, Error>, after: Orders, r: Result<(), Error>) {
    match update
    case Ok(rows) => r.Ok? && after == rows
    case Err(e) => r == Err(e) && after == before
  }

  // ---------- the table itself ----------

  class Ledger {
    var orders: Orders

    ghost predicate Valid()
      reads this
    {
      Unique(orders)
    }

    constructor ()
      ensures Valid() && orders == map[]
    {
      orders := map[];
    }

    /** `insert`: a known order is left as it is; a full table takes no more. */
    method Insert(id: string, quote: Quote, request: string) returns (r: Result<(), Error>)
      requires Valid()
      modifies this
      ensures Valid()
      ensures r.Ok? <==> id in orders
      ensures orders == if id in old(orders) || |old(orders)| >= MAX_ORDERS then old(orders)
        else old(orders)[id := NewRow(request, quote)]
    {
      if |orders| < MAX_ORDERS && id !in orders {
        orders := orders[id := NewRow(request, quote)];
      }
      r := if id in orders then Ok(()) else Err(Busy);
    }

    method SetStage(id: string, from: Stage, to: Stage) returns (r: Result<(), Error>)
      requires Valid()
      modifies this
      ensures Valid() && Wrote(old(orders), WithStage(old(orders), id, from, to), orders, r)
    {
      if !At(orders, id, from) {
        return Err(Conflict);
      }
      orders := orders[id := orders[id].(stage := to)];
      r := Ok(());
    }

    /** Which order, if any, a query on one column finds. */
    method Owner(column: Row -> Option<string>, value: string) returns (owner: Option<string>)
      ensures owner.Some? ==> owner.value in orders && column(orders[owner.value]) == Some(value)
      ensures owner.None? ==> forall id | id in orders :: column(orders[id]) != Some(value)
    {
      var left := orders.Keys;
      while left != {}
        invariant left <= orders.Keys
        invariant forall id | id in orders && id !in left :: column(orders[id]) != Some(value)
        decreases |left|
      {
        var id :| id in left;
        if column(orders[id]) == Some(value) {
          return Some(id);
        }
        left := left - {id};
      }
      owner := None;
    }

    method SetInvoice(id: string, invoice: string, hash: string) returns (r: Result<(), Error>)
      requires Valid()
      modifies this
      ensures Valid() && Wrote(old(orders), WithInvoice(old(orders), id, invoice, hash), orders, r)
    {
      var owner := Owner(Hashes, hash);
      if (owner.Some? && owner.value != id) || !At(orders, id, InvoicePending) {
        return Err(Conflict);
      }
      var row := orders[id].(stage := AwaitingPayment, invoice := Some(invoice), paymentHash := Some(hash));
      InvoiceKeepsUnique(orders, id, invoice, hash);
      orders := orders[id := row];
      r := Ok(());
    }

    method SetRotation(id: string, noteId: string, rotation: Rotation) returns (r: Result<(), Error>)
      requires Valid()
      modifies this
      ensures Valid() && Wrote(old(orders), WithRotation(old(orders), id, noteId, rotation), orders, r)
    {
      var owner := Owner(Notes, noteId);
      if owner.Some? || !At(orders, id, Quoted) {
        return Err(Conflict);
      }
      RotationKeepsUnique(orders, id, noteId, rotation);
      orders := orders[id := orders[id].(stage := LnurlPending, noteId := Some(noteId), rotation := Some(rotation))];
      r := Ok(());
    }

    method Settle(id: string, from: Stage, reference: string, rotation: Option<Rotation>) returns (r: Result<(), Error>)
      requires Valid()
      modifies this
      ensures Valid() && Wrote(old(orders), WithSettlement(old(orders), id, from, reference, rotation), orders, r)
    {
      var owner := Owner(Settlements, reference);
      if (owner.Some? && owner.value != id) || !At(orders, id, from) {
        return Err(Conflict);
      }
      SettlementKeepsUnique(orders, id, from, reference, rotation);
      var kept := if rotation.Some? then rotation else orders[id].rotation;
      orders := orders[id := orders[id].(stage := Settled, settlement := Some(reference), rotation := kept)];
      r := Ok(());
    }

    method Activate(id: string, receipt: Receipt) returns (r: Result<(), Error>)
      requires Valid()
      modifies this
      ensures Valid() && Wrote(old(orders), WithReceipt(old(orders), id, receipt), orders, r)
    {
      if !At(orders, id, Settled) {
        return Err(Conflict);
      }
      orders := orders[id := orders[id].(stage := Active, receipt := Some(receipt))];
      r := Ok(());
    }

    method StartRefund(id: string, refund: Refund) returns (r: Result<(), Error>)
      requires Valid()
      modifies this
      ensures Valid() && Wrote(old(orders), WithRefund(old(orders), id, refund), orders, r)
    {
      if !At(orders, id, RefundRequired) || orders[id].refund.Some? {
        return Err(Conflict);
      }
      orders := orders[id := orders[id].(refund := Some(refund))];
      r := Ok(());
    }

    method UpdateRefund(id: string, refund: Refund) returns (r: Result<(), Error>)
      requires Valid()
      modifies this
      ensures Valid() && Wrote(old(orders), WithRefundUpdate(old(orders), id, refund), orders, r)
    {
      if id !in orders || orders[id].refund.None? {
        return Err(Conflict);
      }
      var current := orders[id].refund.value;
      if current.paymentHash != refund.paymentHash || current.requestUrl != refund.requestUrl {
        return Err(Conflict);
      }
      if !At(orders, id, RefundRequired) {
        return Err(Conflict);
      }
      orders := orders[id := orders[id].(refund := Some(refund))];
      r := Ok(());
    }

    method CompleteRefund(id: string, refund: Refund) returns (r: Result<(), Error>)
      requires Valid()
      modifies this
      ensures Valid() && Wrote(old(orders), WithRefundDone(old(orders), id, refund), orders, r)
    {
      if refund.refundedAt.None? {
        return Err(Invalid);
      }
      if !At(orders, id, RefundRequired) {
        return Err(Conflict);
      }
      orders := orders[id := orders[id].(stage := Refunded, refund := Some(refund))];
      r := Ok(());
    }
  }

  lemma {:induction false} InvoiceKeepsUnique(orders: Orders, id: string, invoice: string, hash: string)
    requires Unique(orders) && WithInvoice(orders, id, invoice, hash).Ok?
    ensures Unique(WithInvoice(orders, id, invoice, hash).value)
  {
    hide Distinct;
    var row := WithInvoice(orders, id, invoice, hash).value[id];
    UpdateKeepsDistinct(orders, id, row, Hashes);
    UpdateKeepsDistinct(orders, id, row, Notes);
    UpdateKeepsDistinct(orders, id, row, Settlements);
  }

  lemma {:induction false} RotationKeepsUnique(orders: Orders, id: string, noteId: string, rotation: Rotation)
    requires Unique(orders) && WithRotation(orders, id, noteId, rotation).Ok?
    ensures Unique(WithRotation(orders, id, noteId, rotation).value)
  {
    hide Distinct;
    var row := WithRotation(orders, id, noteId, rotation).value[id];
    UpdateKeepsDistinct(orders, id, row, Hashes);
    UpdateKeepsDistinct(orders, id, row, Notes);
    UpdateKeepsDistinct(orders, id, row, Settlements);
  }

  lemma {:induction false} SettlementKeepsUnique(
      orders: Orders, id: string, from: Stage, reference: string, rotation: Option<Rotation>)
    requires Unique(orders) && WithSettlement(orders, id, from, reference, rotation).Ok?
    ensures Unique(WithSettlement(orders, id, from, reference, rotation).value)
  {
    hide Distinct;
    var row := WithSettlement(orders, id, from, reference, rotation).value[id];
    UpdateKeepsDistinct(orders, id, row, Hashes);
    UpdateKeepsDistinct(orders, id, row, Notes);
    UpdateKeepsDistinct(orders, id, row, Settlements);
  }
}
