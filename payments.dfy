/** The payment routes: the mock charge of an existing order with a saved or a
    new card, and the listing of the caller's saved payment methods. */
module Payments {
  import opened Js
  import opened Text
  import opened Schemas
  import opened Api
  import opened Store
  import opened OrderRules
  import opened Orders

  /** The body of `POST /payments/charge`. */
  datatype ChargeRequest = ChargeRequest(
    orderNo: Option<string>,
    paymentMethodId: Option<string>,
    card: Option<CardInput>,
    saveCard: bool)

  datatype ChargeBody = ChargeBody(order: Order, txnId: string, savedMethodId: Option<string>)

  /** The charge route's own brand rule: VISA for a leading 4, CARD otherwise. */
  function ChargeBrand(digits: string): (b: string)
    ensures b == "VISA" <==> "4" <= digits
    ensures b == "VISA" || b == "CARD"
  {
    if "4" <= digits then "VISA" else "CARD"
  }

  /** The two brand rules agree on VISA; every brand `brandOf` tells apart beyond
      that is reported as plain CARD by the charge route. */
  lemma ChargeBrandAgreesOnVisa(digits: string)
    requires AllDigits(digits)
    ensures ChargeBrand(digits) == "VISA" <==> BrandOf(digits) == VISA
    ensures BrandOf(digits) != VISA ==> ChargeBrand(digits) == "CARD"
  {
  }

  /** The card the charge route saves for a full card in the request. */
  function ChargeCard(req: ChargeRequest, actor: Actor): PaymentMethod
    requires FullCard(req.card)
  {
    var digits := Digits(req.card.value.number.value);
    SavedCard(ChargeBrand(digits), digits, req.card.value.exp.value, actor)
  }

  /** The outcome of choosing what to charge: a refusal, or the id of the saved
      method used or created (if any) and the payment-method collection afterwards. */
  datatype Source = SourceFail(code: nat, error: string) | SourceOk(savedMethodId: Option<string>, methods: map<string, PaymentMethod>)

  /** A saved method must exist, belong to the caller and be a CARD; a new card
      needs number, expiry and CVV with at least 12 digits, and is saved on request
      under the id the store assigns. */
  function ChargeSource(methods: map<string, PaymentMethod>, req: ChargeRequest, actor: Actor, newMethodId: ObjectIdText)
    : (r: Source)
    ensures Truthy(req.paymentMethodId) ==>
      var id := req.paymentMethodId.value;
      var k := IdKey(id);
      && (!IsObjectId(id) ==> r == SourceFail(500, "Charge failed"))
      && (IsObjectId(id) && (k !in methods || methods[k].createdBy != Some(actor.id)) ==>
            r == SourceFail(400, "Saved card not found"))
      && (IsObjectId(id) && k in methods && methods[k].createdBy == Some(actor.id) && methods[k].mtype != CardType ==>
            r == SourceFail(400, "Only CARD is supported here"))
      && (r.SourceOk? <==> IsObjectId(id) && k in methods && methods[k].createdBy == Some(actor.id)
                           && methods[k].mtype == CardType)
    ensures r.SourceOk? && Truthy(req.paymentMethodId) ==>
      var k := IdKey(req.paymentMethodId.value);
      && r.methods == methods && r.savedMethodId == Some(k)
      && k in methods && methods[k].createdBy == Some(actor.id) && methods[k].mtype == CardType
    ensures !Truthy(req.paymentMethodId) && FullCard(req.card) ==>
      var digits := Digits(req.card.value.number.value);
      && (|digits| < MinCardDigits ==> r == SourceFail(400, "Invalid card number"))
      && (r.SourceOk? <==> |digits| >= MinCardDigits && (!req.saveCard || newMethodId !in methods))
    ensures !Truthy(req.paymentMethodId) && !FullCard(req.card) ==>
      r == SourceFail(400, "Provide paymentMethodId or card details")
    ensures r.SourceOk? && !Truthy(req.paymentMethodId) ==>
      && FullCard(req.card) && |Digits(req.card.value.number.value)| >= MinCardDigits
      && (r.savedMethodId.Some? <==> req.saveCard)
      && (req.saveCard ==> r.savedMethodId == Some(newMethodId) && newMethodId !in methods
                           && r.methods == methods[newMethodId := ChargeCard(req, actor)])
      && (!req.saveCard ==> r.methods == methods)
  {
    if Truthy(req.paymentMethodId) then
      match FindById(methods, req.paymentMethodId.value)
      case CastError => SourceFail(500, "Charge failed")
      case Missing => SourceFail(400, "Saved card not found")
      case Found(m) =>
        if m.createdBy != Some(actor.id) then SourceFail(400, "Saved card not found")
        else if m.mtype != CardType then SourceFail(400, "Only CARD is supported here")
        else SourceOk(Some(IdKey(req.paymentMethodId.value)), methods)
    else if FullCard(req.card) then
      var digits := Digits(req.card.value.number.value);
      if |digits| < MinCardDigits then SourceFail(400, "Invalid card number")
      else if !req.saveCard then SourceOk(None, methods)
      else if newMethodId in methods then SourceFail(500, "Charge failed")
      else SourceOk(Some(newMethodId), methods[newMethodId := ChargeCard(req, actor)])
    else SourceFail(400, "Provide paymentMethodId or card details")
  }

  /** The order after a successful mock charge: a CARD payment, paid now; its
      status and everything else stay as they were. */
  function Charged(o: Order, now: nat): (c: Order)
    ensures c.paymentMethod == CARD && c.paymentStatus == PaidStatus
    ensures c.txnId == TxnId(CARD, now) && c.paidAt == Some(now)
    ensures c.(paymentMethod := o.paymentMethod, paymentStatus := o.paymentStatus, txnId := o.txnId, paidAt := o.paidAt) == o
  {
    var p := Captured(CARD, now);
    o.(paymentMethod := CARD, paymentStatus := p.status, txnId := p.txnId, paidAt := p.paidAt)
  }

  /** `POST /payments/charge`: only the owner of an order that is neither
      cancelled nor already paid can charge it. The clock reading and the id the
      store gives a newly saved card are parameters. */
  function ChargeSpec(s: DbState, req: ChargeRequest, actor: Actor, now: nat, newMethodId: ObjectIdText)
    : (r: (Reply<ChargeBody>, DbState))
    ensures r.0.Err? ==> r.1 == s
    ensures r.1.restaurants == s.restaurants && r.1.cancelled == s.cancelled && r.1.counters == s.counters
    ensures !Truthy(req.orderNo) ==> r.0 == Err(400, "orderNo required")
    ensures Truthy(req.orderNo) ==>
      var no := req.orderNo.value;
      && (no !in s.orders || s.orders[no].userId != actor.id ==> r.0 == Err(404, "Order not found"))
      && (no in s.orders && s.orders[no].userId == actor.id ==>
            var o := s.orders[no];
            && (o.status == Cancelled ==> r.0 == Err(400, "Order is cancelled"))
            && (o.status != Cancelled && o.paymentStatus == PaidStatus ==> r.0 == Err(400, "Order already paid"))
            && (o.status != Cancelled && o.paymentStatus != PaidStatus ==>
                  var src := ChargeSource(s.methods, req, actor, newMethodId);
                  && (src.SourceFail? ==> r.0 == Err(src.code, src.error))
                  && (src.SourceOk? ==> r.0.Ok? && r.0.body.savedMethodId == src.savedMethodId)))
    ensures r.0.Ok? ==> Truthy(req.orderNo) && ChargeSource(s.methods, req, actor, newMethodId).SourceOk?
    ensures r.0.Ok? && Truthy(req.paymentMethodId) ==>
      r.0.body.savedMethodId == Some(IdKey(req.paymentMethodId.value))
    ensures r.0.Ok? && !Truthy(req.paymentMethodId) ==>
      r.0.body.savedMethodId == if req.saveCard then Some(newMethodId) else None
    ensures r.0.Ok? ==>
      var no := req.orderNo.value;
      && no in s.orders
      && s.orders[no].userId == actor.id
      && s.orders[no].status != Cancelled && s.orders[no].paymentStatus != PaidStatus
      && r.0.body.order == Charged(s.orders[no], now) && r.0.body.txnId == TxnId(CARD, now)
      && r.1.orders == s.orders[no := r.0.body.order]
    ensures r.1.methods == s.methods
         || (FullCard(req.card) && req.saveCard && r.0.Ok? && r.0.body.savedMethodId == Some(newMethodId)
             && r.1.methods == s.methods[newMethodId := ChargeCard(req, actor)])
  {
    if !Truthy(req.orderNo) then (Err(400, "orderNo required"), s)
    else
      var no := req.orderNo.value;
      if no !in s.orders || s.orders[no].userId != actor.id then (Err(404, "Order not found"), s)
      else
        var o := s.orders[no];
        if o.status == Cancelled then (Err(400, "Order is cancelled"), s)
        else if o.paymentStatus == PaidStatus then (Err(400, "Order already paid"), s)
        else match ChargeSource(s.methods, req, actor, newMethodId)
        case SourceFail(code, msg) => (Err(code, msg), s)
        case SourceOk(saved, methods) =>
          var o' := Charged(o, now);
          (Ok(ChargeBody(o', o'.txnId, saved)), s.(orders := s.orders[no := o'], methods := methods))
  }

  /** An order is charged at most once: charging it again is refused and changes
      nothing. */
  lemma ChargeTwiceRefused(s: DbState, req1: ChargeRequest, req2: ChargeRequest, actor1: Actor, actor2: Actor,
                           t1: nat, t2: nat, id1: ObjectIdText, id2: ObjectIdText)
    requires ChargeSpec(s, req1, actor1, t1, id1).0.Ok?
    requires req2.orderNo == req1.orderNo && actor2.id == actor1.id
    ensures var s1 := ChargeSpec(s, req1, actor1, t1, id1).1;
      ChargeSpec(s1, req2, actor2, t2, id2) == (Err(400, "Order already paid"), s1)
  {
  }

  /** Nobody but the order's owner can charge it, whatever their role. */
  lemma ChargeOnlyByOwner(s: DbState, req: ChargeRequest, actor: Actor, now: nat, id: ObjectIdText)
    requires Truthy(req.orderNo) && req.orderNo.value in s.orders
    requires s.orders[req.orderNo.value].userId != actor.id
    ensures ChargeSpec(s, req, actor, now, id) == (Err(404, "Order not found"), s)
  {
  }

  /** A charge leaves every order's status alone, so it keeps the store consistent. */
  lemma ChargePreservesConsistent(s: DbState, req: ChargeRequest, actor: Actor, now: nat, id: ObjectIdText)
    requires Consistent(s)
    ensures Consistent(ChargeSpec(s, req, actor, now, id).1)
  {
    var (r, s') := ChargeSpec(s, req, actor, now, id);
    if r.Ok? {
      ReplaceOrderPreservesConsistent(s, s', req.orderNo.value, r.body.order);
    }
  }

  /** `GET /payments/methods`: the caller's saved methods; the `type` query
      (upper-cased) filters only when it names a known type, so an unknown type
      lists every method the caller owns. */
  function ListSavedMethods(s: DbState, actor: Actor, typeQuery: Option<string>): (r: map<string, PaymentMethod>)
    ensures forall id :: id in r <==>
      id in s.methods && s.methods[id].createdBy == Some(actor.id)
      && (ParseMethodType(Upper(OrElse(typeQuery, ""))).None?
          || MethodTypeName(s.methods[id].mtype) == Upper(OrElse(typeQuery, "")))
    ensures forall id :: id in r ==> r[id] == s.methods[id]
  {
    var t := Upper(OrElse(typeQuery, ""));
    if t != "" && ParseMethodType(t).Some? then
      map id | id in s.methods && s.methods[id].createdBy == Some(actor.id) && MethodTypeName(s.methods[id].mtype) == t
        :: s.methods[id]
    else
      map id | id in s.methods && s.methods[id].createdBy == Some(actor.id) :: s.methods[id]
  }

  /** The two listings of saved methods select the same methods for a known type
      or no type, but for an unknown type the order routes list nothing while the
      payment routes list everything. */
  lemma MethodListingsCompared(s: DbState, actor: Actor, typeQuery: Option<string>)
    ensures ParseMethodType(Upper(OrElse(typeQuery, ""))).Some? || Upper(OrElse(typeQuery, "")) == "" ==>
      ListMethods(s, actor, typeQuery).Keys == ListSavedMethods(s, actor, typeQuery).Keys
    ensures ParseMethodType(Upper(OrElse(typeQuery, ""))).None? && Upper(OrElse(typeQuery, "")) != "" ==>
      ListMethods(s, actor, typeQuery) == map[]
      && ListSavedMethods(s, actor, typeQuery).Keys == ListSavedMethods(s, actor, None).Keys
  {
    var t := Upper(OrElse(typeQuery, ""));
    assert Upper(OrElse(None, "")) == "";
    assert ParseMethodType("").None?;
    if ParseMethodType(t).None? && t != "" {
      assert forall x :: MethodTypeName(x) != t;
    }
  }

  // ---------------------------------------------------------------------------

  method Charge(db: Db, req: ChargeRequest, actor: Actor, now: nat, newMethodId: ObjectIdText)
    returns (reply: Reply<ChargeBody>)
    modifies db
    ensures (reply, db.State()) == ChargeSpec(old(db.State()), req, actor, now, newMethodId)
    ensures old(db.Valid()) ==> db.Valid()
  {
    if db.Valid() {
      ChargePreservesConsistent(db.State(), req, actor, now, newMethodId);
    }
    if !Truthy(req.orderNo) {
      return Err(400, "orderNo required");
    }
    var no := req.orderNo.value;
    if no !in db.orders || db.orders[no].userId != actor.id {
      return Err(404, "Order not found");
    }
    var o := db.orders[no];
    if o.status == Cancelled {
      return Err(400, "Order is cancelled");
    }
    if o.paymentStatus == PaidStatus {
      return Err(400, "Order already paid");
    }
    var source := ChargeSource(db.methods, req, actor, newMethodId);
    if source.SourceFail? {
      return Err(source.code, source.error);
    }
    db.methods := source.methods;
    o := Charged(o, now);
    db.orders := db.orders[no := o];
    return Ok(ChargeBody(o, o.txnId, source.savedMethodId));
  }
}
