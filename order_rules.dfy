/** The pure rules of the order routes: the card-brand classifier, how request
    lines are normalised and totalled, the single-restaurant rule, the UPI address
    pattern, the card-detail checks and the mock payment outcomes. */
module OrderRules {
  import opened Js
  import opened Text
  import opened Schemas
  import opened Prices

  // ---------------------------------------------------------------------------
  // Card brands (`brandOf`)

  datatype Brand = VISA | MASTERCARD | AMEX | DISCOVER | JCB | RUPAY | GenericCard

  function BrandName(b: Brand): string {
    match b
    case VISA => "VISA"
    case MASTERCARD => "MASTERCARD"
    case AMEX => "AMEX"
    case DISCOVER => "DISCOVER"
    case JCB => "JCB"
    case RUPAY => "RUPAY"
    case GenericCard => "CARD"
  }

  /** `brandOf`: the brand of a card number, decided by the leading digits once
      every non-digit is removed. The tests run in the order VISA, MASTERCARD,
      AMEX, DISCOVER, JCB, RUPAY; since DISCOVER already takes "60", RUPAY is left
      with "81" alone. */
  function BrandOf(num: string): (b: Brand)
    ensures var s := Digits(num);
      && (b == VISA <==> "4" <= s)
      && (b == MASTERCARD <==> |s| >= 2 && s[0] == '5' && '1' <= s[1] <= '5')
      && (b == AMEX <==> "34" <= s || "37" <= s)
      && (b == DISCOVER <==> "60" <= s || "65" <= s)
      && (b == JCB <==> "35" <= s)
      && (b == RUPAY <==> "81" <= s)
  {
    var s := Digits(num);
    if "4" <= s then VISA
    else if |s| >= 2 && s[0] == '5' && '1' <= s[1] <= '5' then MASTERCARD
    else if "34" <= s || "37" <= s then AMEX
    else if "60" <= s || "65" <= s then DISCOVER
    else if "35" <= s then JCB
    else if "81" <= s || "60" <= s then RUPAY
    else GenericCard
  }

  /** Whatever follows "60", the classifier answers DISCOVER, never RUPAY. */
  lemma SixtyIsNeverRupay(rest: string)
    ensures BrandOf("60" + rest) == DISCOVER
  {
    DigitsAppend("60", rest);
    assert Digits("60") == "60";
  }

  /** `digits.slice(-4)`: the last four digits, or all of them when fewer. */
  function Last4(digits: string): (r: string)
    ensures |r| == if |digits| < 4 then |digits| else 4
    ensures r == digits[|digits| - |r|..]
  {
    if |digits| <= 4 then digits else digits[|digits| - 4..]
  }

  /** The nickname a saved card gets: "BRAND •••• last4". */
  function Nickname(brand: string, digits: string): string {
    brand + " \U{2022}\U{2022}\U{2022}\U{2022} " + Last4(digits)
  }

  /** The `details` stored with a saved card: brand, last four digits and expiry,
      and nothing else (never the number or the CVV). */
  function CardDetails(brand: string, digits: string, exp: string): (d: map<string, string>)
    ensures d.Keys == {"brand", "last4", "exp"}
    ensures d["brand"] == brand && d["last4"] == Last4(digits) && d["exp"] == exp
  {
    map["brand" := brand, "last4" := Last4(digits), "exp" := exp]
  }

  /** A card in a request body; the handlers read its fields for truthiness. */
  datatype CardInput = CardInput(number: Option<string>, exp: Option<string>, cvv: Option<string>)

  /** `card?.number && card?.exp && card?.cvv`. */
  predicate FullCard(card: Option<CardInput>) {
    card.Some? && Truthy(card.value.number) && Truthy(card.value.exp) && Truthy(card.value.cvv)
  }

  const MinCardDigits: nat := 12

  // ---------------------------------------------------------------------------
  // Normalising the request lines

  /** A cart line as the checkout request carries it. `qty` is an integer or missing. */
  datatype LineInput = LineInput(
    restaurantId: Option<string>,
    itemId: Option<string>,
    name: Option<string>,
    price: PriceInput,
    qty: Option<int>)

  /** `Math.max(1, parseInt(it.qty || 1, 10))`: at least 1, and the requested
      quantity whenever that is at least 1. */
  function Qty(q: Option<int>): (n: int)
    ensures n >= 1
    ensures q.Some? && q.value >= 1 ==> n == q.value
    ensures q.None? || q.value < 1 ==> n == 1
  {
    var raw := if q.None? || q.value == 0 then 1 else q.value;
    if raw < 1 then 1 else raw
  }

  function Normalize(it: LineInput): (o: OrderItem)
    ensures o.qty >= 1 && o.qty == Qty(it.qty)
    ensures o.name == OrElse(it.name, "")
    ensures o.restaurantId == OrElse(it.restaurantId, "") && o.itemId == OrElse(it.itemId, "")
    ensures o.price == ToPrice(it.price)
  {
    OrderItem(OrElse(it.restaurantId, ""), OrElse(it.itemId, ""), OrElse(it.name, ""), ToPrice(it.price), Qty(it.qty))
  }

  function NormalizeAll(items: seq<LineInput>): (r: seq<OrderItem>)
    ensures |r| == |items| && forall i :: 0 <= i < |items| ==> r[i] == Normalize(items[i])
  {
    seq(|items|, i requires 0 <= i < |items| => Normalize(items[i]))
  }

  /** `items.reduce((s, it) => s + it.price * it.qty, 0)`, folded from the left. */
  function LinesTotal(items: seq<OrderItem>): real {
    if items == [] then 0.0
    else LinesTotal(items[..|items| - 1]) + items[|items| - 1].price * items[|items| - 1].qty as real
  }

  /** The total of a concatenation is the sum of the totals. */
  lemma {:induction false} LinesTotalAppend(a: seq<OrderItem>, b: seq<OrderItem>)
    ensures LinesTotal(a + b) == LinesTotal(a) + LinesTotal(b)
    decreases |b|
  {
    if b != [] {
      var b' := b[..|b| - 1];
      assert (a + b)[..|a + b| - 1] == a + b';
      LinesTotalAppend(a, b');
    } else {
      assert a + b == a;
    }
  }

  /** Lines with non-negative prices and positive quantities never total below 0. */
  lemma {:induction false} LinesTotalNonNegative(items: seq<OrderItem>)
    requires forall i :: 0 <= i < |items| ==> items[i].price >= 0.0 && items[i].qty >= 1
    ensures LinesTotal(items) >= 0.0
    decreases |items|
  {
    if items != [] {
      LinesTotalNonNegative(items[..|items| - 1]);
    }
  }

  /** A single line totals its price times its quantity, and the total can be
      accumulated from the front as `reduce` does. */
  lemma LinesTotalCons(x: OrderItem, rest: seq<OrderItem>)
    ensures LinesTotal([x]) == x.price * x.qty as real
    ensures LinesTotal([x] + rest) == x.price * x.qty as real + LinesTotal(rest)
  {
    assert [x][..0] == [];
    LinesTotalAppend([x], rest);
  }

  // ---------------------------------------------------------------------------
  // The single-restaurant rule

  /** `new Set(items.map(it => it.restaurantId))`. */
  function RestaurantIds(items: seq<OrderItem>): set<string> {
    set i | 0 <= i < |items| :: items[i].restaurantId
  }

  predicate OneRestaurant(items: seq<OrderItem>) {
    items != [] && forall i :: 0 <= i < |items| ==> items[i].restaurantId == items[0].restaurantId
  }

  /** The set of restaurant ids has exactly one element iff there are lines and
      they all name the restaurant of the first line. */
  lemma OneIdIffOneRestaurant(items: seq<OrderItem>)
    ensures |RestaurantIds(items)| == 1 <==> OneRestaurant(items)
  {
    var ids := RestaurantIds(items);
    if OneRestaurant(items) {
      assert ids == {items[0].restaurantId};
    } else if items == [] {
      assert ids == {};
    } else {
      var i :| 0 <= i < |items| && items[i].restaurantId != items[0].restaurantId;
      var x, y := items[0].restaurantId, items[i].restaurantId;
      assert x in ids && y in ids;
      assert y in ids - {x};
      assert |ids - {x}| == |ids| - 1;
    }
  }

  // ---------------------------------------------------------------------------
  // UPI addresses: `^[\w.\-]+@[\w\-]+$`

  predicate IsWordChar(c: char) {
    ('a' <= c <= 'z') || ('A' <= c <= 'Z') || ('0' <= c <= '9') || c == '_'
  }

  predicate IsVpaLocalChar(c: char) {
    IsWordChar(c) || c == '.' || c == '-'
  }

  predicate IsVpaHandleChar(c: char) {
    IsWordChar(c) || c == '-'
  }

  /** The whole string is one or more `[\w.-]`, an "@", then one or more `[\w-]`. */
  predicate ValidVpa(s: string) {
    exists i :: 0 < i < |s| - 1 && s[i] == '@'
      && (forall j :: 0 <= j < i ==> IsVpaLocalChar(s[j]))
      && (forall j :: i < j < |s| ==> IsVpaHandleChar(s[j]))
  }

  /** An address is valid exactly when it is a non-empty name of `[\w.-]`, "@",
      and a non-empty handle of `[\w-]`. */
  lemma ValidVpaParts(name: string, handle: string)
    ensures ValidVpa(name + "@" + handle) <==>
      && name != [] && handle != []
      && (forall j :: 0 <= j < |name| ==> IsVpaLocalChar(name[j]))
      && (forall j :: 0 <= j < |handle| ==> IsVpaHandleChar(handle[j]))
  {
    var s := name + "@" + handle;
    var n := |name|;
    assert s[n] == '@';
    assert forall j :: 0 <= j < n ==> s[j] == name[j];
    assert forall j :: n < j < |s| ==> s[j] == handle[j - n - 1];
    if ValidVpa(s) {
      var i :| 0 < i < |s| - 1 && s[i] == '@'
        && (forall j :: 0 <= j < i ==> IsVpaLocalChar(s[j]))
        && (forall j :: i < j < |s| ==> IsVpaHandleChar(s[j]));
      assert !IsVpaHandleChar('@') && !IsVpaLocalChar('@');
      assert i == n;
      forall j | 0 <= j < |handle| ensures IsVpaHandleChar(handle[j]) {
        assert s[n + 1 + j] == handle[j];
      }
    }
  }

  // ---------------------------------------------------------------------------
  // Mock payment outcomes

  /** What an order records about its payment. */
  datatype Payment = Payment(status: PayStatus, txnId: string, paidAt: Option<int>)

  /** The mock transaction id "<METHOD>-<milliseconds>". */
  function TxnId(pm: PayMethod, now: nat): string {
    PayMethodName(pm) + "-" + DecimalString(now)
  }

  /** Cash on delivery: status "cod", no transaction id, never paid. */
  function CodPayment(): (p: Payment)
    ensures p.status == CodStatus && p.txnId == "" && p.paidAt == None
  {
    Payment(CodStatus, "", None)
  }

  /** A captured CARD or UPI payment: status "paid", a "<METHOD>-<now>" id, paid now. */
  function Captured(pm: PayMethod, now: nat): (p: Payment)
    ensures p.status == PaidStatus && p.paidAt == Some(now)
    ensures PayMethodName(pm) + "-" <= p.txnId && p.txnId == TxnId(pm, now)
  {
    Payment(PaidStatus, TxnId(pm, now), Some(now))
  }
}
