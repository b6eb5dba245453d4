/** The document store: the collections the handlers read and write, kept as maps
    from a document's key to the document, the per-key sequence counters, and the
    consistency the order workflow keeps between orders, archive and counter. */
module Store {
  import opened Js
  import opened Text
  import opened Schemas
  import opened Api

  /** Restaurants and payment methods are keyed by `_id`; orders and archive
      records by `orderNo`, which both schemas declare unique. */
  datatype DbState = DbState(
    restaurants: map<string, Restaurant>,
    orders: map<string, Order>,
    cancelled: map<string, CancelledOrder>,
    methods: map<string, PaymentMethod>,
    counters: map<string, nat>)

  /** The outcome of `Model.findById(id)`: a string that is not an ObjectId makes
      Mongoose throw a CastError before the collection is consulted; a castable
      one finds the document stored under its canonical key. */
  datatype Lookup<T> = CastError | Missing | Found(doc: T)

  function FindById<T>(m: map<string, T>, id: string): (r: Lookup<T>)
    ensures r.CastError? <==> !IsObjectId(id)
    ensures r.Found? <==> IsObjectId(id) && IdKey(id) in m
    ensures r.Found? ==> r.doc == m[IdKey(id)]
  {
    if !IsObjectId(id) then CastError
    else if IdKey(id) in m then Found(m[IdKey(id)]) else Missing
  }

  // ---------------------------------------------------------------------------
  // Sequence counters (`nextSeq`)

  function CounterValue(counters: map<string, nat>, key: string): nat {
    if key in counters then counters[key] else 0
  }

  /** One `findOneAndUpdate({key}, {$inc: {seq: 1}}, {upsert: true, new: true})`:
      the first use of a key yields 1, every later one the previous value plus 1. */
  function Bump(counters: map<string, nat>, key: string): (r: (nat, map<string, nat>))
    ensures key !in counters ==> r.0 == 1
    ensures key in counters ==> r.0 == counters[key] + 1
    ensures r.1 == counters[key := r.0]
  {
    var n := CounterValue(counters, key) + 1;
    (n, counters[key := n])
  }

  /** The values `n` successive allocations on one key return. */
  function Allocate(counters: map<string, nat>, key: string, n: nat): (seq<nat>, map<string, nat>)
    decreases n
  {
    if n == 0 then ([], counters)
    else
      var (v, next) := Bump(counters, key);
      var (vs, last) := Allocate(next, key, n - 1);
      ([v] + vs, last)
  }

  /** `n` allocations return exactly the next `n` integers, in order: no value is
      repeated and none is skipped. */
  lemma {:induction false} AllocateConsecutive(counters: map<string, nat>, key: string, n: nat)
    ensures |Allocate(counters, key, n).0| == n
    ensures forall i :: 0 <= i < n ==> Allocate(counters, key, n).0[i] == CounterValue(counters, key) + i + 1
    ensures CounterValue(Allocate(counters, key, n).1, key) == CounterValue(counters, key) + n
    decreases n
  {
    if n > 0 {
      var (v, next) := Bump(counters, key);
      AllocateConsecutive(next, key, n - 1);
      var vs := Allocate(counters, key, n).0;
      assert vs == [v] + Allocate(next, key, n - 1).0;
      forall i | 0 <= i < n ensures vs[i] == CounterValue(counters, key) + i + 1 {
        if i > 0 { assert vs[i] == Allocate(next, key, n - 1).0[i - 1]; }
      }
    }
  }

  const OrderKey: string := "order"
  const OrderPrefix: string := "FOODAPP-"

  /** The order number minted from a sequence value: the prefix "FOODAPP-"
      followed by the decimal digits that read back as that value. */
  function OrderNo(n: nat): (r: string)
    ensures |r| > |OrderPrefix| && r[..|OrderPrefix|] == OrderPrefix
    ensures AllDigits(r[|OrderPrefix|..]) && DigitsValue(r[|OrderPrefix|..]) == n
    ensures r[|OrderPrefix|] == '0' ==> n == 0
  {
    DecimalStringValue(n);
    var r := OrderPrefix + DecimalString(n);
    assert r[|OrderPrefix|..] == DecimalString(n);
    r
  }

  /** Distinct sequence values give distinct order numbers. */
  lemma OrderNoInjective(a: nat, b: nat)
    requires OrderNo(a) == OrderNo(b)
    ensures a == b
  {
    assert OrderNo(a)[|OrderPrefix|..] == OrderNo(b)[|OrderPrefix|..];
  }

  // ---------------------------------------------------------------------------
  // Consistency of the order workflow

  /** `no` is the number of one of the first `upTo` allocations of the order counter. */
  ghost predicate Issued(no: string, upTo: nat) {
    exists k: nat :: 1 <= k <= upTo && OrderNo(k) == no
  }

  /** Every order sits under its own number. */
  ghost predicate OrdersKeyed(orders: map<string, Order>) {
    forall no :: no in orders ==> orders[no].orderNo == no
  }

  /** Every order number was minted by one of the first `upTo` allocations. */
  ghost predicate AllIssued(orders: map<string, Order>, upTo: nat) {
    forall no :: no in orders ==> Issued(no, upTo)
  }

  /** Every archive record sits under its own order number. */
  ghost predicate ArchiveKeyed(cancelled: map<string, CancelledOrder>) {
    forall no :: no in cancelled ==> cancelled[no].orderNo == no
  }

  /** An archive record exists exactly for the cancelled orders. */
  ghost predicate ArchiveMatches(orders: map<string, Order>, cancelled: map<string, CancelledOrder>) {
    forall no :: no in cancelled <==> no in orders && orders[no].status == Cancelled
  }

  /** Every document sits under its own key; every order number was minted by the
      order counter; an archive record exists exactly for the cancelled orders. */
  ghost predicate Consistent(s: DbState) {
    && OrdersKeyed(s.orders)
    && AllIssued(s.orders, CounterValue(s.counters, OrderKey))
    && ArchiveKeyed(s.cancelled)
    && ArchiveMatches(s.orders, s.cancelled)
  }

  /** In a consistent store the next order number is taken by no order and no
      archive record. */
  lemma NextOrderNoIsFresh(s: DbState)
    requires Consistent(s)
    ensures OrderNo(CounterValue(s.counters, OrderKey) + 1) !in s.orders
    ensures OrderNo(CounterValue(s.counters, OrderKey) + 1) !in s.cancelled
  {
  }

  /** Advancing the order counter keeps every issued number issued. */
  lemma IssuedGrows(no: string, a: nat, b: nat)
    requires Issued(no, a) && a <= b
    ensures Issued(no, b)
  {
  }

  /** Orders under the same keys, issued from a counter no lower, stay issued. */
  lemma AllIssuedGrows(orders: map<string, Order>, orders': map<string, Order>, a: nat, b: nat)
    requires AllIssued(orders, a) && orders'.Keys <= orders.Keys && a <= b
    ensures AllIssued(orders', b)
  {
    forall no | no in orders' ensures Issued(no, b) {
      assert no in orders.Keys;
      IssuedGrows(no, a, b);
    }
  }

  /** Storing a document under its own number keeps the orders keyed. */
  lemma OrdersKeyedAfterWrite(orders: map<string, Order>, no: string, o: Order)
    requires OrdersKeyed(orders) && o.orderNo == no
    ensures OrdersKeyed(orders[no := o])
  {
  }

  /** Storing a record under its own number keeps the archive keyed. */
  lemma ArchiveKeyedAfterWrite(cancelled: map<string, CancelledOrder>, no: string, rec: CancelledOrder)
    requires ArchiveKeyed(cancelled) && rec.orderNo == no
    ensures ArchiveKeyed(cancelled[no := rec])
  {
  }

  /** The order just minted joins the issued numbers. */
  lemma AllIssuedAfterInsert(orders: map<string, Order>, o: Order, c: nat)
    requires AllIssued(orders, c) && o.orderNo == OrderNo(c + 1)
    ensures AllIssued(orders[o.orderNo := o], c + 1)
  {
    var orders' := orders[o.orderNo := o];
    forall n | n in orders' ensures Issued(n, c + 1) {
      if n != o.orderNo {
        IssuedGrows(n, c, c + 1);
      }
    }
  }

  /** A live order under a number with no archive record keeps the archive matched. */
  lemma MatchesAfterInsert(orders: map<string, Order>, cancelled: map<string, CancelledOrder>, o: Order)
    requires ArchiveMatches(orders, cancelled) && o.status != Cancelled && o.orderNo !in cancelled
    ensures ArchiveMatches(orders[o.orderNo := o], cancelled)
  {
  }

  /** Cancelling an order together with archiving it keeps the archive matched. */
  lemma MatchesAfterCancel(orders: map<string, Order>, cancelled: map<string, CancelledOrder>, no: string, rec: CancelledOrder)
    requires ArchiveMatches(orders, cancelled) && no in orders
    ensures ArchiveMatches(orders[no := orders[no].(status := Cancelled)], cancelled[no := rec])
  {
  }

  /** Rewriting an order without changing its status keeps the archive matched. */
  lemma MatchesAfterReplace(orders: map<string, Order>, cancelled: map<string, CancelledOrder>, no: string, o: Order)
    requires ArchiveMatches(orders, cancelled) && no in orders && o.status == orders[no].status
    ensures ArchiveMatches(orders[no := o], cancelled)
  {
  }

  /** Writes that leave orders and archive alone and only advance counters keep
      the store consistent. */
  lemma CountersOnlyPreservesConsistent(s: DbState, s': DbState)
    requires Consistent(s)
    requires s'.orders == s.orders && s'.cancelled == s.cancelled
    requires CounterValue(s.counters, OrderKey) <= CounterValue(s'.counters, OrderKey)
    ensures Consistent(s')
  {
    AllIssuedGrows(s.orders, s'.orders, CounterValue(s.counters, OrderKey), CounterValue(s'.counters, OrderKey));
  }

  /** Inserting a live order under the number minted by one more allocation of
      the order counter keeps the store consistent. */
  lemma InsertOrderPreservesConsistent(s: DbState, s': DbState, o: Order)
    requires Consistent(s)
    requires CounterValue(s'.counters, OrderKey) == CounterValue(s.counters, OrderKey) + 1
    requires o.orderNo == OrderNo(CounterValue(s'.counters, OrderKey)) && o.status != Cancelled
    requires s'.orders == s.orders[o.orderNo := o] && s'.cancelled == s.cancelled
    ensures Consistent(s')
  {
    NextOrderNoIsFresh(s);
    OrdersKeyedAfterWrite(s.orders, o.orderNo, o);
    AllIssuedAfterInsert(s.orders, o, CounterValue(s.counters, OrderKey));
    MatchesAfterInsert(s.orders, s.cancelled, o);
  }

  /** Marking an order cancelled while recording its archive entry keeps the
      store consistent. */
  lemma CancelOrderPreservesConsistent(s: DbState, s': DbState, no: string, rec: CancelledOrder)
    requires Consistent(s) && no in s.orders && rec.orderNo == no
    requires s'.orders == s.orders[no := s.orders[no].(status := Cancelled)]
    requires s'.cancelled == s.cancelled[no := rec] && s'.counters == s.counters
    ensures Consistent(s')
  {
    var c := CounterValue(s.counters, OrderKey);
    OrdersKeyedAfterWrite(s.orders, no, s.orders[no].(status := Cancelled));
    ArchiveKeyedAfterWrite(s.cancelled, no, rec);
    AllIssuedGrows(s.orders, s'.orders, c, c);
    MatchesAfterCancel(s.orders, s.cancelled, no, rec);
  }

  /** Rewriting an order without touching its number or status keeps the store
      consistent. */
  lemma ReplaceOrderPreservesConsistent(s: DbState, s': DbState, no: string, o: Order)
    requires Consistent(s) && no in s.orders
    requires o.orderNo == no && o.status == s.orders[no].status
    requires s'.orders == s.orders[no := o] && s'.cancelled == s.cancelled && s'.counters == s.counters
    ensures Consistent(s')
  {
    var c := CounterValue(s.counters, OrderKey);
    OrdersKeyedAfterWrite(s.orders, no, o);
    AllIssuedGrows(s.orders, s'.orders, c, c);
    MatchesAfterReplace(s.orders, s.cancelled, no, o);
  }

  function EmptyState(): DbState {
    DbState(map[], map[], map[], map[], map[])
  }

  // ---------------------------------------------------------------------------

  /** The database the handlers share. */
  class Db {
    var restaurants: map<string, Restaurant>
    var orders: map<string, Order>
    var cancelled: map<string, CancelledOrder>
    var methods: map<string, PaymentMethod>
    var counters: map<string, nat>

    function State(): DbState
      reads this
    {
      DbState(restaurants, orders, cancelled, methods, counters)
    }

    ghost predicate Valid()
      reads this
    {
      Consistent(State())
    }

    constructor ()
      ensures State() == EmptyState() && Valid()
    {
      restaurants, orders, cancelled, methods, counters := map[], map[], map[], map[], map[];
    }

    /** `nextSeq(key)`: one atomic increment-and-read of the named counter. */
    method NextSeq(key: string) returns (n: nat)
      modifies this`counters
      ensures (n, counters) == Bump(old(counters), key)
    {
      n := if key in counters then counters[key] + 1 else 1;
      counters := counters[key := n];
    }
  }
}
