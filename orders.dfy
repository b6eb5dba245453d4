/** The order routes: checkout, the caller's own orders, cancellation with its
    archive record, the list of cancelled orders, the administrative payment update
    and the caller's saved payment methods. Each state-changing route is a
    specification function from the store state to the reply and the next state,
    and a method on the shared `Db` that performs the same steps in place. */
module Orders {
  import opened Js
  import opened Text
  import opened Schemas
  import opened Api
  import opened Prices
  import opened Store
  import opened OrderRules
  import opened Roles

  // ---------------------------------------------------------------------------
  // Checkout

  /** The body of `POST /orders/checkout`. `items` is `None` when the field is not
      an array; `upiVpa` is `upi.vpa`. */
  datatype CheckoutRequest = CheckoutRequest(
    items: Option<seq<LineInput>>,
    paymentMethod: Option<string>,
    card: Option<CardInput>,
    upiVpa: Option<string>,
    savedCardId: Option<string>,
    saveCard: bool)

  datatype CheckoutBody = CheckoutBody(orderNo: string, order: Order)

  const MultiRestaurantError: string :=
    "Your cart contains items from multiple restaurants. Please clear the cart and add items from one restaurant only."

  /** `rDoc.country || "India"`. */
  function CountryOr(c: Option<Country>): (r: Country)
    ensures c.Some? ==> r == c.value
    ensures c.None? ==> r == India
  {
    if c.Some? then c.value else India
  }

  /** The card a caller saves: a CARD method in the caller's country, not the
      default, owned by the caller, whose details hold brand, last four and expiry. */
  function SavedCard(brand: string, digits: string, exp: string, actor: Actor): (m: PaymentMethod)
    ensures m.mtype == CardType && m.country == actor.country && !m.isDefault
    ensures m.createdBy == Some(actor.id) && m.details == CardDetails(brand, digits, exp)
    ensures m.nickname == Nickname(brand, digits)
  {
    MethodDefaults(Nickname(brand, digits), actor.country).(
      details := CardDetails(brand, digits, exp), createdBy := Some(actor.id))
  }

  /** The outcome of the mock payment step: a refusal, or the payment to record and
      the payment-method collection afterwards (a card may have been saved). */
  datatype PayStep = PayFail(code: nat, error: string) | PayDone(payment: Payment, methods: map<string, PaymentMethod>)

  /** The card `SavedCard` stores for a full card in a checkout request. */
  function CheckoutCard(req: CheckoutRequest, actor: Actor): PaymentMethod
    requires FullCard(req.card)
  {
    var digits := Digits(req.card.value.number.value);
    SavedCard(BrandName(BrandOf(digits)), digits, req.card.value.exp.value, actor)
  }

  /** The payment branch of checkout: COD records nothing; UPI needs a well-formed
      address; CARD takes a saved card owned by the caller, or a full card of at
      least 12 digits that is saved on request under the id the store assigns. */
  function CheckoutPayment(methods: map<string, PaymentMethod>, pm: PayMethod, req: CheckoutRequest,
                           actor: Actor, now: nat, newMethodId: ObjectIdText): (r: PayStep)
    ensures r.PayDone? ==> (r.payment.status == PaidStatus <==> pm != COD)
    ensures r.PayDone? && pm == CARD ==> r.payment == Captured(CARD, now)
    ensures pm == COD ==> r == PayDone(CodPayment(), methods)
    ensures pm == UPI ==> (r.PayDone? <==> ValidVpa(OrElse(req.upiVpa, "")))
    ensures pm == UPI && r.PayDone? ==> r.payment == Captured(UPI, now) && r.methods == methods
    ensures pm == UPI && r.PayFail? ==> r == PayFail(400, "Invalid UPI ID")
    ensures pm == CARD && Truthy(req.savedCardId) ==>
      var id := req.savedCardId.value;
      && (!IsObjectId(id) ==> r == PayFail(500, "Checkout failed"))
      && (IsObjectId(id) ==>
            (r.PayDone? <==> IdKey(id) in methods && methods[IdKey(id)].createdBy == Some(actor.id)))
      && (IsObjectId(id) && r.PayFail? ==> r == PayFail(400, "Saved card not found"))
    ensures pm == CARD && !Truthy(req.savedCardId) && FullCard(req.card) ==>
      var digits := Digits(req.card.value.number.value);
      && (|digits| < MinCardDigits ==> r == PayFail(400, "Invalid card"))
      && (r.PayDone? <==> |digits| >= MinCardDigits && (!req.saveCard || newMethodId !in methods))
    ensures pm == CARD && !Truthy(req.savedCardId) && !FullCard(req.card) ==>
      r == PayFail(400, "Provide a savedCardId or full card details")
    ensures r.PayDone? && r.methods != methods ==>
      && pm == CARD && req.saveCard && !Truthy(req.savedCardId) && FullCard(req.card)
      && newMethodId !in methods && r.methods == methods[newMethodId := CheckoutCard(req, actor)]
    ensures r.PayFail? ==> r.code == 400 || r.code == 500
  {
    match pm
    case COD => PayDone(CodPayment(), methods)
    case UPI =>
      if ValidVpa(OrElse(req.upiVpa, "")) then PayDone(Captured(UPI, now), methods)
      else PayFail(400, "Invalid UPI ID")
    case CARD =>
      if Truthy(req.savedCardId) then
        match FindById(methods, req.savedCardId.value)
        case CastError => PayFail(500, "Checkout failed")
        case Missing => PayFail(400, "Saved card not found")
        case Found(m) =>
          if m.createdBy == Some(actor.id) then PayDone(Captured(CARD, now), methods)
          else PayFail(400, "Saved card not found")
      else if FullCard(req.card) then
        var digits := Digits(req.card.value.number.value);
        if |digits| < MinCardDigits then PayFail(400, "Invalid card")
        else if !req.saveCard then PayDone(Captured(CARD, now), methods)
        else if newMethodId in methods then PayFail(500, "Checkout failed")
        else PayDone(Captured(CARD, now), methods[newMethodId := CheckoutCard(req, actor)])
      else PayFail(400, "Provide a savedCardId or full card details")
  }

  /** Some normalised line has an empty `restaurantId`. */
  predicate LineWithoutRestaurant(lines: seq<OrderItem>) {
    exists i :: 0 <= i < |lines| && lines[i].restaurantId == ""
  }

  /** Some normalised line has an empty `itemId`, which the Order schema refuses. */
  predicate LineWithoutItem(lines: seq<OrderItem>) {
    exists i :: 0 <= i < |lines| && lines[i].itemId == ""
  }

  /** What the request checks establish before any payment is attempted: the
      payment method, the normalised lines, and the one restaurant they name. */
  datatype Plan = Plan(pm: PayMethod, lines: seq<OrderItem>, rid: string, rest: Restaurant)

  /** The request checks of checkout, in the handler's order; none writes. */
  function CheckoutPlan(s: DbState, req: CheckoutRequest): (r: Reply<Plan>)
    ensures r.Err? ==> r.code == 400 || r == Err(500, "Checkout failed")
    ensures req.items.None? || req.items.value == [] ==> r == Err(400, "No items provided")
    ensures req.items.Some? && req.items.value != [] ==>
      var pm := ParsePayMethod(Upper(OrElse(req.paymentMethod, "")));
      var lines := NormalizeAll(req.items.value);
      && (pm.None? ==> r == Err(400, "Select a valid payment method"))
      && (pm.Some? && LineWithoutRestaurant(lines) ==> r == Err(400, "Each item must include restaurantId"))
      && (pm.Some? && !LineWithoutRestaurant(lines) && |RestaurantIds(lines)| != 1 ==>
            r == Err(400, MultiRestaurantError))
      && (pm.Some? && !LineWithoutRestaurant(lines) && |RestaurantIds(lines)| == 1 ==>
            var rid := lines[0].restaurantId;
            && (!IsObjectId(rid) ==> r == Err(500, "Checkout failed"))
            && (IsObjectId(rid) && IdKey(rid) !in s.restaurants ==> r == Err(400, "Restaurant not found"))
            && (IsObjectId(rid) && IdKey(rid) in s.restaurants ==> r.Ok?))
    ensures r.Ok? ==>
      && req.items.Some? && r.body.lines == NormalizeAll(req.items.value)
      && PayMethodName(r.body.pm) == Upper(OrElse(req.paymentMethod, ""))
      && OneRestaurant(r.body.lines) && r.body.rid == r.body.lines[0].restaurantId != ""
      && IsObjectId(r.body.rid) && IdKey(r.body.rid) in s.restaurants
      && r.body.rest == s.restaurants[IdKey(r.body.rid)]
  {
    if req.items.None? || req.items.value == [] then Err(400, "No items provided")
    else match ParsePayMethod(Upper(OrElse(req.paymentMethod, "")))
    case None => Err(400, "Select a valid payment method")
    case Some(pm) =>
      var lines := NormalizeAll(req.items.value);
      if LineWithoutRestaurant(lines) then Err(400, "Each item must include restaurantId")
      else if |RestaurantIds(lines)| != 1 then Err(400, MultiRestaurantError)
      else
        OneIdIffOneRestaurant(lines);
        var rid := lines[0].restaurantId;
        match FindById(s.restaurants, rid)
        case CastError => Err(500, "Checkout failed")
        case Missing => Err(400, "Restaurant not found")
        case Found(rest) => Ok(Plan(pm, lines, rid, rest))
  }

  /** The writes of checkout once the request checks have passed: the payment
      step (which may save a card), one allocation of the order counter, and the
      new order under the minted number. */
  function PlaceOrder(s: DbState, plan: Plan, req: CheckoutRequest, actor: Actor, now: nat, newMethodId: ObjectIdText)
    : (r: (Reply<CheckoutBody>, DbState))
    ensures r.1.restaurants == s.restaurants && r.1.cancelled == s.cancelled
    ensures r.0.Err? && r.0.code == 400 ==> r.1 == s
    ensures r.0.Err? ==> r.1.orders == s.orders
    ensures r.1.counters == s.counters
         || CounterValue(r.1.counters, OrderKey) == CounterValue(s.counters, OrderKey) + 1
    ensures r.1.methods == s.methods
         || (FullCard(req.card) && r.1.methods == s.methods[newMethodId := CheckoutCard(req, actor)])
    ensures r.0.Ok? ==>
      var no := r.0.body.orderNo;
      var o := r.0.body.order;
      && no !in s.orders && o.orderNo == no && r.1.orders == s.orders[no := o]
      && CounterValue(r.1.counters, OrderKey) == CounterValue(s.counters, OrderKey) + 1
      && no == OrderNo(CounterValue(r.1.counters, OrderKey))
      && o.status == Placed && o.userId == actor.id && o.items == plan.lines && o.restaurantId == plan.rid
      && o.restaurantName == plan.rest.name && o.country == CountryOr(plan.rest.country)
      && o.paymentMethod == plan.pm && o.total == LinesTotal(o.items)
      && (o.paymentStatus == PaidStatus <==> o.paymentMethod != COD)
    ensures r.0.Ok? ==>
      var o := r.0.body.order;
      Payment(o.paymentStatus, o.txnId, o.paidAt) == if plan.pm == COD then CodPayment() else Captured(plan.pm, now)
    ensures var step := CheckoutPayment(s.methods, plan.pm, req, actor, now, newMethodId);
      && (step.PayFail? ==> r == (Err(step.code, step.error), s))
      && (step.PayDone? ==>
            && r.1.methods == step.methods
            && (r.0.Ok? <==> OrderNo(CounterValue(s.counters, OrderKey) + 1) !in s.orders && !LineWithoutItem(plan.lines))
            && (r.0.Err? ==> r.0 == Err(500, "Checkout failed")))
  {
    var step := CheckoutPayment(s.methods, plan.pm, req, actor, now, newMethodId);
    if step.PayFail? then (Err(step.code, step.error), s)
    else
      var pay := step.payment;
      var (n, counters) := Bump(s.counters, OrderKey);
      var no := OrderNo(n);
      var s1 := s.(methods := step.methods, counters := counters);
      if no in s.orders || LineWithoutItem(plan.lines) then (Err(500, "Checkout failed"), s1)
      else
        var order := Order(no, actor.id, plan.rid, plan.rest.name, CountryOr(plan.rest.country), plan.lines,
                           LinesTotal(plan.lines), Placed, plan.pm, pay.status, pay.txnId, pay.paidAt);
        (Ok(CheckoutBody(no, order)), s1.(orders := s.orders[no := order]))
  }

  /** `POST /orders/checkout`. The clock reading `now` and the id the store gives
      a newly saved card are parameters. Every refusal with status 400 comes before
      any write; once the payment step has passed, the card (if saved) and the
      order counter are persisted even when creating the order then fails, which
      happens when the minted number is taken or a line has no `itemId` (the Order
      schema requires one). */
  function CheckoutSpec(s: DbState, req: CheckoutRequest, actor: Actor, now: nat, newMethodId: ObjectIdText)
    : (r: (Reply<CheckoutBody>, DbState))
    ensures r.0.Err? && r.0.code == 400 ==> r.1 == s
    ensures r.1.restaurants == s.restaurants && r.1.cancelled == s.cancelled
    ensures r.1.methods == s.methods
         || (FullCard(req.card) && r.1.methods == s.methods[newMethodId := CheckoutCard(req, actor)])
    ensures r.0.Ok? ==>
      var no := r.0.body.orderNo;
      var o := r.0.body.order;
      && no !in s.orders && o.orderNo == no
      && r.1.orders == s.orders[no := o]
      && CounterValue(r.1.counters, OrderKey) == CounterValue(s.counters, OrderKey) + 1
      && no == OrderNo(CounterValue(r.1.counters, OrderKey))
      && o.status == Placed && o.userId == actor.id
      && OneRestaurant(o.items) && o.restaurantId == o.items[0].restaurantId
      && IsObjectId(o.restaurantId) && IdKey(o.restaurantId) in s.restaurants
      && o.restaurantName == s.restaurants[IdKey(o.restaurantId)].name
      && o.total == LinesTotal(o.items)
      && (o.paymentStatus == PaidStatus <==> o.paymentMethod != COD)
    ensures CheckoutPlan(s, req).Err? ==>
      r == (Err(CheckoutPlan(s, req).code, CheckoutPlan(s, req).error), s)
    ensures r.0.Ok? ==>
      var o := r.0.body.order;
      && PayMethodName(o.paymentMethod) == Upper(OrElse(req.paymentMethod, ""))
      && Payment(o.paymentStatus, o.txnId, o.paidAt)
         == (if o.paymentMethod == COD then CodPayment() else Captured(o.paymentMethod, now))
    ensures r.0.Ok? && r.0.body.order.paymentMethod == UPI ==> ValidVpa(OrElse(req.upiVpa, ""))
    ensures r.0.Ok? && r.0.body.order.paymentMethod == CARD ==>
      if Truthy(req.savedCardId) then
        && IsObjectId(req.savedCardId.value) && IdKey(req.savedCardId.value) in s.methods
        && s.methods[IdKey(req.savedCardId.value)].createdBy == Some(actor.id)
      else FullCard(req.card) && |Digits(req.card.value.number.value)| >= MinCardDigits
  {
    match CheckoutPlan(s, req)
    case Err(code, msg) => (Err(code, msg), s)
    case Ok(plan) => PlaceOrder(s, plan, req, actor, now, newMethodId)
  }

  /** Checkout keeps the store consistent: the new order carries the number just
      minted, which no order or archive record held, and is not cancelled. */
  lemma CheckoutPreservesConsistent(s: DbState, req: CheckoutRequest, actor: Actor, now: nat, newMethodId: ObjectIdText)
    requires Consistent(s)
    ensures Consistent(CheckoutSpec(s, req, actor, now, newMethodId).1)
  {
    var plan := CheckoutPlan(s, req);
    if plan.Ok? {
      PlacePreservesConsistent(s, plan.body, req, actor, now, newMethodId);
    }
  }

  /** The writes of checkout keep the store consistent, whatever the plan. */
  lemma PlacePreservesConsistent(s: DbState, plan: Plan, req: CheckoutRequest, actor: Actor, now: nat,
                                 newMethodId: ObjectIdText)
    requires Consistent(s)
    ensures Consistent(PlaceOrder(s, plan, req, actor, now, newMethodId).1)
  {
    var (reply, s') := PlaceOrder(s, plan, req, actor, now, newMethodId);
    if reply.Ok? {
      InsertOrderPreservesConsistent(s, s', reply.body.order);
    } else {
      CountersOnlyPreservesConsistent(s, s');
    }
  }

  /** Two successful checkouts in a row mint two different order numbers. */
  lemma CheckoutNumbersDistinct(s: DbState, req1: CheckoutRequest, req2: CheckoutRequest, actor1: Actor, actor2: Actor,
                                now1: nat, now2: nat, id1: ObjectIdText, id2: ObjectIdText)
    requires CheckoutSpec(s, req1, actor1, now1, id1).0.Ok?
    requires CheckoutSpec(CheckoutSpec(s, req1, actor1, now1, id1).1, req2, actor2, now2, id2).0.Ok?
    ensures CheckoutSpec(s, req1, actor1, now1, id1).0.body.orderNo
         != CheckoutSpec(CheckoutSpec(s, req1, actor1, now1, id1).1, req2, actor2, now2, id2).0.body.orderNo
  {
    var (r1, s1) := CheckoutSpec(s, req1, actor1, now1, id1);
    assert r1.body.orderNo in s1.orders;
  }

  /** A line without an `itemId` passes the handler's own checks, so the order
      counter still advances although no order is created. */
  lemma CheckoutWithoutItemIdBurnsNumber(s: DbState, line: LineInput, rest: LineInput, now: nat, actor: Actor, id: ObjectIdText)
    requires Truthy(line.restaurantId) && !Truthy(line.itemId)
    requires rest.restaurantId == line.restaurantId
    requires IsObjectId(line.restaurantId.value) && IdKey(line.restaurantId.value) in s.restaurants
    ensures var r := CheckoutSpec(s, CheckoutRequest(Some([line, rest]), Some("cod"), None, None, None, false), actor, now, id);
      r.0 == Err(500, "Checkout failed")
      && CounterValue(r.1.counters, OrderKey) == CounterValue(s.counters, OrderKey) + 1
      && r.1.orders == s.orders
  {
    var req := CheckoutRequest(Some([line, rest]), Some("cod"), None, None, None, false);
    var lines := NormalizeAll([line, rest]);
    var rid := line.restaurantId.value;
    assert Upper("cod") == "COD";
    assert lines[0].itemId == "";
    assert LineWithoutItem(lines);
    assert !LineWithoutRestaurant(lines) by {
      assert lines[0].restaurantId == rid == lines[1].restaurantId;
    }
    assert OneRestaurant(lines);
    OneIdIffOneRestaurant(lines);
    var plan := Plan(COD, lines, rid, s.restaurants[IdKey(rid)]);
    assert CheckoutPlan(s, req) == Ok(plan);
    assert CheckoutPayment(s.methods, COD, req, actor, now, id) == PayDone(CodPayment(), s.methods);
  }

  // ---------------------------------------------------------------------------
  // My orders

  /** `GET /orders`: exactly the orders placed by the caller. */
  function MyOrders(s: DbState, actor: Actor): (r: map<string, Order>)
    ensures forall no :: no in r <==> no in s.orders && s.orders[no].userId == actor.id
    ensures forall no :: no in r ==> r[no] == s.orders[no]
  {
    map no | no in s.orders && s.orders[no].userId == actor.id :: s.orders[no]
  }

  /** The order a checkout creates is among the caller's orders afterwards. */
  lemma CheckoutShowsInMyOrders(s: DbState, req: CheckoutRequest, actor: Actor, now: nat, id: ObjectIdText)
    requires CheckoutSpec(s, req, actor, now, id).0.Ok?
    ensures var r := CheckoutSpec(s, req, actor, now, id);
      MyOrders(r.1, actor)[r.0.body.orderNo] == r.0.body.order
      && MyOrders(r.1, actor) == MyOrders(s, actor)[r.0.body.orderNo := r.0.body.order]
  {
    var (reply, s') := CheckoutSpec(s, req, actor, now, id);
    MyOrdersAfterWrite(s, s', reply.body.order, actor);
  }

  /** Storing one of the caller's orders adds it to what the caller sees. */
  lemma MyOrdersAfterWrite(s: DbState, s': DbState, o: Order, actor: Actor)
    requires s'.orders == s.orders[o.orderNo := o] && o.userId == actor.id
    ensures MyOrders(s', actor) == MyOrders(s, actor)[o.orderNo := o]
  {
    var m, m' := MyOrders(s, actor), MyOrders(s', actor);
    assert m'.Keys == m.Keys + {o.orderNo};
  }

  // ---------------------------------------------------------------------------
  // Cancel

  datatype CancelBody = CancelBody(order: Order, cancelled: CancelledOrder)

  /** The archive upsert keyed by order number: a new record starts from the
      schema defaults and a snapshot of the order's items, total, payment fields
      and country; an existing record keeps its snapshot. Either way the
      cancellation metadata is overwritten. */
  function ArchiveUpsert(existing: Option<CancelledOrder>, o: Order, actor: Actor, reason: string, now: int)
    : (a: CancelledOrder)
    ensures a.statusAtCancel == Some(o.status) && a.cancelledAt == now
    ensures a.cancelledBy == actor.id && a.cancelReason == reason
    ensures existing.Some? ==>
      a == existing.value.(statusAtCancel := Some(o.status), cancelledAt := now,
                           cancelledBy := actor.id, cancelReason := reason)
    ensures existing.None? ==>
      && a.orderNo == o.orderNo && a.userId == o.userId && a.items == o.items && a.total == o.total
      && a.paymentMethod == Some(o.paymentMethod) && a.paymentStatus == Some(o.paymentStatus)
      && a.txnId == Some(o.txnId) && a.paidAt == o.paidAt && a.country == Some(o.country)
  {
    var base :=
      if existing.Some? then existing.value
      else ArchiveDefaults(o.orderNo, o.userId, actor.id, now).(
        items := o.items, total := o.total, paymentMethod := Some(o.paymentMethod),
        paymentStatus := Some(o.paymentStatus), txnId := Some(o.txnId), paidAt := o.paidAt,
        country := Some(o.country));
    base.(statusAtCancel := Some(o.status), cancelledAt := now, cancelledBy := actor.id, cancelReason := reason)
  }

  /** `POST /orders/:id/cancel`, where `:id` is the order number. Only ADMIN and
      MANAGER may cancel, a MANAGER only in the order's country; a cancelled order
      is a conflict. Otherwise the archive record is upserted and the order's
      status becomes Cancelled. */
  function CancelSpec(s: DbState, orderNo: string, reason: Option<string>, actor: Actor, now: int)
    : (r: (Reply<CancelBody>, DbState))
    ensures r.0.Err? ==> r.1 == s
    ensures actor.role == MEMBER ==> r.0 == Err(403, "Only Admin/Manager can cancel")
    ensures (actor.role == ADMIN || actor.role == MANAGER) && orderNo !in s.orders ==> r.0 == Err(404, "Order not found")
    ensures actor.role == MANAGER && orderNo in s.orders && s.orders[orderNo].country != actor.country ==>
              r.0 == Err(403, "Forbidden (cross-country)")
    ensures && (actor.role == ADMIN || actor.role == MANAGER) && orderNo in s.orders
            && (actor.role == MANAGER ==> s.orders[orderNo].country == actor.country)
            && s.orders[orderNo].status == Cancelled ==>
              r.0 == Err(409, "Order already cancelled")
    ensures r.0.Ok? ==>
      && r.0.body.order == s.orders[orderNo].(status := Cancelled)
      && r.0.body.cancelled == ArchiveUpsert(if orderNo in s.cancelled then Some(s.cancelled[orderNo]) else None,
                                             s.orders[orderNo], actor, OrElse(reason, ""), now)
    ensures r.0.Ok? <==>
      && (actor.role == ADMIN || actor.role == MANAGER)
      && orderNo in s.orders
      && (actor.role == MANAGER ==> s.orders[orderNo].country == actor.country)
      && s.orders[orderNo].status != Cancelled
    ensures r.0.Ok? ==>
      && r.1.orders == s.orders[orderNo := s.orders[orderNo].(status := Cancelled)]
      && r.1.cancelled == s.cancelled[orderNo := r.0.body.cancelled]
      && r.0.body.cancelled.statusAtCancel == Some(s.orders[orderNo].status)
      && r.0.body.cancelled.cancelledBy == actor.id && r.0.body.cancelled.cancelReason == OrElse(reason, "")
      && r.1.restaurants == s.restaurants && r.1.methods == s.methods && r.1.counters == s.counters
  {
    if actor.role != ADMIN && actor.role != MANAGER then (Err(403, "Only Admin/Manager can cancel"), s)
    else if orderNo !in s.orders then (Err(404, "Order not found"), s)
    else
      var o := s.orders[orderNo];
      if actor.role == MANAGER && o.country != actor.country then (Err(403, "Forbidden (cross-country)"), s)
      else if o.status == Cancelled then (Err(409, "Order already cancelled"), s)
      else
        var existing := if orderNo in s.cancelled then Some(s.cancelled[orderNo]) else None;
        var rec := ArchiveUpsert(existing, o, actor, OrElse(reason, ""), now);
        var o' := o.(status := Cancelled);
        (Ok(CancelBody(o', rec)), s.(orders := s.orders[orderNo := o'], cancelled := s.cancelled[orderNo := rec]))
  }

  /** Cancelling keeps the store consistent. */
  lemma CancelPreservesConsistent(s: DbState, orderNo: string, reason: Option<string>, actor: Actor, now: int)
    requires Consistent(s)
    ensures Consistent(CancelSpec(s, orderNo, reason, actor, now).1)
  {
    var r := CancelSpec(s, orderNo, reason, actor, now);
    if r.0.Ok? {
      CancelOrderPreservesConsistent(s, r.1, orderNo, r.0.body.cancelled);
    }
  }

  /** On a consistent store a successful cancel creates the order's one archive
      record, a snapshot of the order as it was. */
  lemma CancelArchivesSnapshot(s: DbState, orderNo: string, reason: Option<string>, actor: Actor, now: int)
    requires Consistent(s)
    requires CancelSpec(s, orderNo, reason, actor, now).0.Ok?
    ensures var r := CancelSpec(s, orderNo, reason, actor, now);
      var o := s.orders[orderNo];
      var a := r.0.body.cancelled;
      && orderNo !in s.cancelled && r.1.cancelled.Keys == s.cancelled.Keys + {orderNo}
      && a.orderNo == orderNo && a.userId == o.userId && a.items == o.items && a.total == o.total
      && a.paymentMethod == Some(o.paymentMethod) && a.paymentStatus == Some(o.paymentStatus)
      && a.txnId == Some(o.txnId) && a.paidAt == o.paidAt && a.country == Some(o.country)
      && a.statusAtCancel == Some(o.status) && a.cancelledAt == now
  {
    assert orderNo !in s.cancelled;
  }

  /** A second cancel of the same order is a conflict and changes nothing, so an
      order is archived at most once. */
  lemma CancelTwiceConflicts(s: DbState, orderNo: string, r1: Option<string>, r2: Option<string>,
                             actor1: Actor, actor2: Actor, t1: int, t2: int)
    requires CancelSpec(s, orderNo, r1, actor1, t1).0.Ok?
    requires actor2.role == ADMIN || (actor2.role == MANAGER && actor2.country == s.orders[orderNo].country)
    ensures var s1 := CancelSpec(s, orderNo, r1, actor1, t1).1;
      CancelSpec(s1, orderNo, r2, actor2, t2) == (Err(409, "Order already cancelled"), s1)
  {
  }

  /** A MEMBER can never cancel, not even an order of their own. */
  lemma MemberCannotCancel(s: DbState, orderNo: string, reason: Option<string>, actor: Actor, now: int)
    requires actor.role == MEMBER
    ensures CancelSpec(s, orderNo, reason, actor, now) == (Err(403, "Only Admin/Manager can cancel"), s)
  {
  }

  // ---------------------------------------------------------------------------
  // Cancelled orders

  /** `GET /orders/cancelled`: ADMIN sees every archive record, MANAGER the records
      of their own country, anyone else is refused. */
  function ListCancelled(s: DbState, actor: Actor): (r: Reply<map<string, CancelledOrder>>)
    ensures r.Err? <==> actor.role.MEMBER?
    ensures r.Err? ==> r.code == 403
    ensures r.Ok? ==> forall no :: no in r.body ==> no in s.cancelled && r.body[no] == s.cancelled[no]
    ensures r.Ok? && actor.role == ADMIN ==> r.body.Keys == s.cancelled.Keys
    ensures r.Ok? && actor.role == MANAGER ==>
      forall no :: no in r.body <==> no in s.cancelled && s.cancelled[no].country == Some(actor.country)
  {
    if actor.role != ADMIN && actor.role != MANAGER then Err(403, "Forbidden")
    else if actor.role == ADMIN then Ok(s.cancelled)
    else Ok(map no | no in s.cancelled && s.cancelled[no].country == Some(actor.country) :: s.cancelled[no])
  }

  /** The record a cancel writes is listed for every ADMIN, whoever cancelled and
      whatever the record held before. */
  lemma CancelledVisibleToAdmin(s: DbState, orderNo: string, reason: Option<string>, actor: Actor, now: int, admin: Actor)
    requires CancelSpec(s, orderNo, reason, actor, now).0.Ok?
    requires admin.role == ADMIN
    ensures var r := CancelSpec(s, orderNo, reason, actor, now);
      ListCancelled(r.1, admin) == Ok(r.1.cancelled) && ListCancelled(r.1, admin).body[orderNo] == r.0.body.cancelled
  {
  }

  // ---------------------------------------------------------------------------
  // The archive's country under the default strict schema

  /** The archive as the default strict CancelledOrder schema stores it. The schema
      declares no `country` path, so the upsert's `country` is stripped from every
      record, and nothing else about the record changes. */
  function StrictArchive(cancelled: map<string, CancelledOrder>): (r: map<string, CancelledOrder>)
    ensures r.Keys == cancelled.Keys
    ensures forall no :: no in r ==>
      r[no].country == None && r[no].(country := cancelled[no].country) == cancelled[no]
  {
    map no | no in cancelled :: cancelled[no].(country := None)
  }

  /** As written, a MANAGER's list filters on a `country` that no stored record
      holds, so it is empty whatever the archive contains. */
  lemma ManagerListEmptyAsWritten(s: DbState, actor: Actor)
    requires actor.role == MANAGER
    ensures ListCancelled(s.(cancelled := StrictArchive(s.cancelled)), actor) == Ok(map[])
  {
    var r := ListCancelled(s.(cancelled := StrictArchive(s.cancelled)), actor);
    assert r.body.Keys == {};
  }

  /** A MANAGER finds the order they just cancelled in their own list, because
      the archive record carries the order's country. */
  lemma ManagerSeesOwnCancel(s: DbState, orderNo: string, reason: Option<string>, actor: Actor, now: int)
    requires Consistent(s)
    requires CancelSpec(s, orderNo, reason, actor, now).0.Ok?
    requires actor.role == MANAGER
    ensures var s' := CancelSpec(s, orderNo, reason, actor, now).1;
      ListCancelled(s', actor).Ok? && orderNo in ListCancelled(s', actor).body
  {
    CancelArchivesSnapshot(s, orderNo, reason, actor, now);
  }

  /** With the country stripped, the same cancel is missing from the MANAGER's
      list. */
  lemma ManagerMissesOwnCancelAsWritten(s: DbState, orderNo: string, reason: Option<string>, actor: Actor, now: int)
    requires CancelSpec(s, orderNo, reason, actor, now).0.Ok?
    requires actor.role == MANAGER
    ensures var s' := CancelSpec(s, orderNo, reason, actor, now).1;
      && orderNo in s'.cancelled
      && orderNo !in ListCancelled(s'.(cancelled := StrictArchive(s'.cancelled)), actor).body
  {
    ManagerListEmptyAsWritten(CancelSpec(s, orderNo, reason, actor, now).1, actor);
  }

  // ---------------------------------------------------------------------------
  // Payment update

  /** `PUT /orders/:orderNo/payment`, ADMIN only: sets the payment method; a
      captured CARD or UPI payment becomes paid now, a switch to COD clears the
      payment, and an uncaptured CARD or UPI keeps the previous payment fields. */
  function UpdatePaymentSpec(s: DbState, actor: Actor, orderNo: string, paymentType: Option<string>, capture: bool, now: nat)
    : (r: (Reply<Order>, DbState))
    ensures r.0.Err? ==> r.1 == s
    ensures actor.role != ADMIN ==> r.0 == Err(403, "Forbidden")
    ensures actor.role == ADMIN && ParsePayMethod(Upper(OrElse(paymentType, ""))).None? ==>
              r.0 == Err(400, "Invalid payment method")
    ensures actor.role == ADMIN && ParsePayMethod(Upper(OrElse(paymentType, ""))).Some? ==>
              && (orderNo !in s.orders ==> r.0 == Err(404, "Order not found"))
              && (orderNo in s.orders && s.orders[orderNo].status == Cancelled ==> r.0 == Err(400, "Order is cancelled"))
    ensures r.0.Ok? <==> && actor.role == ADMIN && ParsePayMethod(Upper(OrElse(paymentType, ""))).Some?
                         && orderNo in s.orders && s.orders[orderNo].status != Cancelled
    ensures r.0.Ok? ==>
      var o := s.orders[orderNo];
      r.0.body.(paymentMethod := o.paymentMethod, paymentStatus := o.paymentStatus,
                txnId := o.txnId, paidAt := o.paidAt) == o
    ensures r.0.Ok? ==>
      && actor.role == ADMIN && orderNo in s.orders && s.orders[orderNo].status != Cancelled
      && r.1 == s.(orders := s.orders[orderNo := r.0.body])
      && r.0.body.orderNo == s.orders[orderNo].orderNo && r.0.body.items == s.orders[orderNo].items
      && r.0.body.total == s.orders[orderNo].total && r.0.body.status == s.orders[orderNo].status
      && PayMethodName(r.0.body.paymentMethod) == Upper(OrElse(paymentType, ""))
  {
    RequireAdminOnlyAdmin(actor.role);
    if RequireRole(Some(RoleName(actor.role)), ["ADMIN"]).Err? then (Err(403, "Forbidden"), s)
    else match ParsePayMethod(Upper(OrElse(paymentType, "")))
    case None => (Err(400, "Invalid payment method"), s)
    case Some(m) =>
      if orderNo !in s.orders then (Err(404, "Order not found"), s)
      else
        var o := s.orders[orderNo];
        if o.status == Cancelled then (Err(400, "Order is cancelled"), s)
        else
          var o1 := o.(paymentMethod := m);
          var o2 :=
            if capture && (m == CARD || m == UPI) then
              var p := Captured(m, now); o1.(paymentStatus := p.status, txnId := p.txnId, paidAt := p.paidAt)
            else if m == COD then
              var p := CodPayment(); o1.(paymentStatus := p.status, txnId := p.txnId, paidAt := p.paidAt)
            else o1;
          (Ok(o2), s.(orders := s.orders[orderNo := o2]))
  }

  /** After a successful update the order's payment fields are those of the new
      method: paid now for a capture, cleared for COD, unchanged otherwise. */
  lemma UpdatePaymentOutcome(s: DbState, actor: Actor, orderNo: string, paymentType: Option<string>, capture: bool, now: nat)
    requires UpdatePaymentSpec(s, actor, orderNo, paymentType, capture, now).0.Ok?
    ensures var o := UpdatePaymentSpec(s, actor, orderNo, paymentType, capture, now).0.body;
      var old_ := s.orders[orderNo];
      && (o.paymentMethod == COD ==> o.paymentStatus == CodStatus && o.txnId == "" && o.paidAt == None)
      && (o.paymentMethod != COD && capture ==>
            o.paymentStatus == PaidStatus && o.paidAt == Some(now) && o.txnId == TxnId(o.paymentMethod, now))
      && (o.paymentMethod != COD && !capture ==>
            o.paymentStatus == old_.paymentStatus && o.txnId == old_.txnId && o.paidAt == old_.paidAt)
  {
  }

  /** Only an ADMIN may update a payment. */
  lemma UpdatePaymentAdminOnly(s: DbState, actor: Actor, orderNo: string, paymentType: Option<string>, capture: bool, now: nat)
    requires actor.role != ADMIN
    ensures UpdatePaymentSpec(s, actor, orderNo, paymentType, capture, now) == (Err(403, "Forbidden"), s)
  {
    RequireAdminOnlyAdmin(actor.role);
  }

  /** The payment update never touches an order's status, so it keeps the store
      consistent. */
  lemma UpdatePaymentPreservesConsistent(s: DbState, actor: Actor, orderNo: string, paymentType: Option<string>, capture: bool, now: nat)
    requires Consistent(s)
    ensures Consistent(UpdatePaymentSpec(s, actor, orderNo, paymentType, capture, now).1)
  {
    var (r, s') := UpdatePaymentSpec(s, actor, orderNo, paymentType, capture, now);
    if r.Ok? {
      ReplaceOrderPreservesConsistent(s, s', orderNo, r.body);
    }
  }

  // ---------------------------------------------------------------------------
  // Saved payment methods (`GET /payment-methods`)

  /** What the listing shows of one saved method; `last4` is absent when the
      details hold none. */
  datatype MethodSummary = MethodSummary(nickname: string, last4: Option<string>, brand: string)

  function Summary(m: PaymentMethod): (v: MethodSummary)
    ensures v.nickname == m.nickname
    ensures "last4" in m.details ==> v.last4 == Some(m.details["last4"])
    ensures "last4" !in m.details ==> v.last4 == None
    ensures v.brand == if "brand" in m.details && m.details["brand"] != "" then m.details["brand"] else "CARD"
  {
    MethodSummary(
      m.nickname,
      if "last4" in m.details then Some(m.details["last4"]) else None,
      OrElse(if "brand" in m.details then Some(m.details["brand"]) else None, "CARD"))
  }

  /** The caller's saved methods; a non-empty `type` query (upper-cased) keeps
      those whose type has exactly that name, so an unknown type lists nothing. */
  function ListMethods(s: DbState, actor: Actor, typeQuery: Option<string>): (r: map<string, MethodSummary>)
    ensures forall id :: id in r <==>
      id in s.methods && s.methods[id].createdBy == Some(actor.id)
      && (Upper(OrElse(typeQuery, "")) == "" || MethodTypeName(s.methods[id].mtype) == Upper(OrElse(typeQuery, "")))
    ensures forall id :: id in r ==> r[id] == Summary(s.methods[id])
  {
    var t := Upper(OrElse(typeQuery, ""));
    map id | id in s.methods && s.methods[id].createdBy == Some(actor.id)
               && (t == "" || MethodTypeName(s.methods[id].mtype) == t) :: Summary(s.methods[id])
  }

  /** The type query is compared upper-cased, so its case does not matter. */
  lemma ListMethodsIgnoresCase(s: DbState, actor: Actor, t: string)
    ensures ListMethods(s, actor, Some(Upper(t))) == ListMethods(s, actor, Some(t))
  {
    UpperIdempotent(t);
  }

  /** A card saved during checkout is listed for its owner, under CARD, with its
      brand and last four digits. */
  lemma CheckoutSavedCardListed(s: DbState, req: CheckoutRequest, actor: Actor, now: nat, id: ObjectIdText)
    requires CheckoutSpec(s, req, actor, now, id).1.methods != s.methods
    ensures FullCard(req.card)
    ensures var s' := CheckoutSpec(s, req, actor, now, id).1;
      var digits := Digits(req.card.value.number.value);
      && id in ListMethods(s', actor, Some("card"))
      && ListMethods(s', actor, Some("card"))[id].brand == BrandName(BrandOf(digits))
      && ListMethods(s', actor, Some("card"))[id].last4 == Some(Last4(digits))
  {
    var s' := CheckoutSpec(s, req, actor, now, id).1;
    assert FullCard(req.card) && s'.methods == s.methods[id := CheckoutCard(req, actor)];
    SavedCardSummary(s', req, actor, id);
  }

  lemma SavedCardSummary(s: DbState, req: CheckoutRequest, actor: Actor, id: string)
    requires FullCard(req.card) && id in s.methods && s.methods[id] == CheckoutCard(req, actor)
    ensures var digits := Digits(req.card.value.number.value);
      && id in ListMethods(s, actor, Some("card"))
      && ListMethods(s, actor, Some("card"))[id].brand == BrandName(BrandOf(digits))
      && ListMethods(s, actor, Some("card"))[id].last4 == Some(Last4(digits))
  {
    var digits := Digits(req.card.value.number.value);
    var brand := BrandName(BrandOf(digits));
    assert brand != "";
    SummaryOfSavedCard(brand, digits, req.card.value.exp.value, actor);
    CardQuery();
  }

  /** A saved card with a brand is summarised with that brand and its last four. */
  lemma SummaryOfSavedCard(brand: string, digits: string, exp: string, actor: Actor)
    requires brand != ""
    ensures Summary(SavedCard(brand, digits, exp, actor)) == MethodSummary(Nickname(brand, digits), Some(Last4(digits)), brand)
  {
  }

  /** The `type=card` query selects the CARD type. */
  lemma CardQuery()
    ensures Upper(OrElse(Some("card"), "")) == "CARD"
  {
    assert Upper("card") == "CARD";
  }

  // ---------------------------------------------------------------------------
  // The handlers on the shared store

  method Checkout(db: Db, req: CheckoutRequest, actor: Actor, now: nat, newMethodId: ObjectIdText)
    returns (reply: Reply<CheckoutBody>)
    modifies db
    ensures (reply, db.State()) == CheckoutSpec(old(db.State()), req, actor, now, newMethodId)
    ensures old(db.Valid()) ==> db.Valid()
  {
    if req.items.None? || req.items.value == [] {
      return Err(400, "No items provided");
    }
    var pmo := ParsePayMethod(Upper(OrElse(req.paymentMethod, "")));
    if pmo.None? {
      return Err(400, "Select a valid payment method");
    }
    var pm := pmo.value;
    var lines := NormalizeAll(req.items.value);
    if LineWithoutRestaurant(lines) {
      return Err(400, "Each item must include restaurantId");
    }
    if |RestaurantIds(lines)| != 1 {
      return Err(400, MultiRestaurantError);
    }
    OneIdIffOneRestaurant(lines);
    var rid := lines[0].restaurantId;
    var found := FindById(db.restaurants, rid);
    if found.CastError? {
      return Err(500, "Checkout failed");
    } else if found.Missing? {
      return Err(400, "Restaurant not found");
    }
    var plan := Plan(pm, lines, rid, found.doc);
    assert CheckoutPlan(db.State(), req) == Ok(plan);
    reply := Place(db, plan, req, actor, now, newMethodId);
  }

  /** The writes of checkout once its request checks have passed. */
  method Place(db: Db, plan: Plan, req: CheckoutRequest, actor: Actor, now: nat, newMethodId: ObjectIdText)
    returns (reply: Reply<CheckoutBody>)
    modifies db
    ensures (reply, db.State()) == PlaceOrder(old(db.State()), plan, req, actor, now, newMethodId)
    ensures old(db.Valid()) ==> db.Valid()
  {
    if db.Valid() {
      PlacePreservesConsistent(db.State(), plan, req, actor, now, newMethodId);
    }
    var step := CheckoutPayment(db.methods, plan.pm, req, actor, now, newMethodId);
    if step.PayFail? {
      return Err(step.code, step.error);
    }
    db.methods := step.methods;
    var n := db.NextSeq(OrderKey);
    var no := OrderNo(n);
    if no in db.orders || LineWithoutItem(plan.lines) {
      return Err(500, "Checkout failed");
    }
    var pay := step.payment;
    var order := Order(no, actor.id, plan.rid, plan.rest.name, CountryOr(plan.rest.country), plan.lines,
                       LinesTotal(plan.lines), Placed, plan.pm, pay.status, pay.txnId, pay.paidAt);
    db.orders := db.orders[no := order];
    return Ok(CheckoutBody(no, order));
  }

  method Cancel(db: Db, orderNo: string, reason: Option<string>, actor: Actor, now: int)
    returns (reply: Reply<CancelBody>)
    modifies db
    ensures (reply, db.State()) == CancelSpec(old(db.State()), orderNo, reason, actor, now)
    ensures old(db.Valid()) ==> db.Valid()
  {
    if !(actor.role == ADMIN || actor.role == MANAGER) {
      return Err(403, "Only Admin/Manager can cancel");
    }
    if orderNo !in db.orders {
      return Err(404, "Order not found");
    }
    var o := db.orders[orderNo];
    if actor.role == MANAGER && o.country != actor.country {
      return Err(403, "Forbidden (cross-country)");
    }
    if o.status == Cancelled {
      return Err(409, "Order already cancelled");
    }
    var existing := if orderNo in db.cancelled then Some(db.cancelled[orderNo]) else None;
    var rec := ArchiveUpsert(existing, o, actor, OrElse(reason, ""), now);
    db.cancelled := db.cancelled[orderNo := rec];
    o := o.(status := Cancelled);
    db.orders := db.orders[orderNo := o];
    if old(db.Valid()) {
      CancelPreservesConsistent(old(db.State()), orderNo, reason, actor, now);
    }
    return Ok(CancelBody(o, rec));
  }

  method UpdatePayment(db: Db, actor: Actor, orderNo: string, paymentType: Option<string>, capture: bool, now: nat)
    returns (reply: Reply<Order>)
    modifies db
    ensures (reply, db.State()) == UpdatePaymentSpec(old(db.State()), actor, orderNo, paymentType, capture, now)
    ensures old(db.Valid()) ==> db.Valid()
  {
    if RequireRole(Some(RoleName(actor.role)), ["ADMIN"]).Err? {
      return Err(403, "Forbidden");
    }
    var mo := ParsePayMethod(Upper(OrElse(paymentType, "")));
    if mo.None? {
      return Err(400, "Invalid payment method");
    }
    var m := mo.value;
    if orderNo !in db.orders {
      return Err(404, "Order not found");
    }
    var o := db.orders[orderNo];
    if o.status == Cancelled {
      return Err(400, "Order is cancelled");
    }
    o := o.(paymentMethod := m);
    if capture && (m == CARD || m == UPI) {
      var p := Captured(m, now);
      o := o.(paymentStatus := p.status, txnId := p.txnId, paidAt := p.paidAt);
    } else if m == COD {
      var p := CodPayment();
      o := o.(paymentStatus := p.status, txnId := p.txnId, paidAt := p.paidAt);
    }
    db.orders := db.orders[orderNo := o];
    if old(db.Valid()) {
      UpdatePaymentPreservesConsistent(old(db.State()), actor, orderNo, paymentType, capture, now);
    }
    return Ok(o);
  }
}
