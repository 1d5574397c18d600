/**
 * The derivations the dashboard page makes from a normalised export: the
 * rows of the contact table, the login list and the shopping totals.
 */
module Dashboard {
  import opened JsValues
  import opened JsStrings
  import opened Records
  import opened DataProcessing

  // -----------------------------------------------------------------------
  // The contact table
  // -----------------------------------------------------------------------

  datatype Row = Row(id: int, contact: string, sentMessages: int, receivedMessages: int, totalMessages: int)

  /** The row for the `index`-th key of `dmSummary`. */
  function RowFor(dmSummary: Record<int>, sentMessages: seq<SentMessage>, index: nat): Row
    requires index < |dmSummary|
  {
    var contact := dmSummary[index].0;
    var sentCount := CountContact(sentMessages, contact);
    var receivedCount := LookupOr(dmSummary, contact, 0) - sentCount;
    Row(index, contact, sentCount, receivedCount, sentCount + receivedCount)
  }

  /** `rows`: one row per key of the summary, or none without a summary. */
  function Rows(dmSummary: Option<Record<int>>, sentMessages: seq<SentMessage>): seq<Row> {
    if dmSummary.None? then []
    else
      var dm := dmSummary.value;
      seq(|dm|, i requires 0 <= i < |dm| => RowFor(dm, sentMessages, i))
  }

  /** One row per key, numbered by position; the sent and received counts
      split the summary's count for that contact. */
  lemma RowsSpec(dmSummary: Option<Record<int>>, sentMessages: seq<SentMessage>)
    ensures dmSummary.None? ==> Rows(dmSummary, sentMessages) == []
    ensures dmSummary.Some? ==> var dm, rows := dmSummary.value, Rows(dmSummary, sentMessages);
      && |rows| == |dm|
      && forall i :: 0 <= i < |rows| ==>
           && rows[i].id == i
           && rows[i].contact == dm[i].0
           && rows[i].sentMessages == CountContact(sentMessages, dm[i].0)
           && rows[i].receivedMessages + rows[i].sentMessages == rows[i].totalMessages
           && rows[i].totalMessages == LookupOr(dm, dm[i].0, 0)
  {
  }

  /** On the output of the normaliser, every contact appears in one row
      only, its total is the sum of the lengths of its threads, its sent
      count is the number of the owner's messages to it, and the received
      count is never negative. */
  lemma RowsOfProcessedData(cs: seq<(string, Json)>, myUsername: string)
    ensures var rows := Rows(Some(SummaryOf(cs)), SentOf(cs, myUsername));
      && (forall i, j :: 0 <= i < j < |rows| ==> rows[i].contact != rows[j].contact)
      && forall i :: 0 <= i < |rows| ==>
           && rows[i].totalMessages == CountFor(cs, rows[i].contact)
           && rows[i].sentMessages == CountContact(OwnMessages(cs, myUsername), rows[i].contact)
           && rows[i].receivedMessages >= 0
  {
    var dm := SummaryOf(cs);
    var rows := Rows(Some(dm), SentOf(cs, myUsername));
    SummaryKeysDistinct(cs);
    SentIsOwnMessages(cs, myUsername);
    forall i | 0 <= i < |rows|
      ensures rows[i].totalMessages == CountFor(cs, rows[i].contact)
      ensures rows[i].sentMessages == CountContact(OwnMessages(cs, myUsername), rows[i].contact)
      ensures rows[i].receivedMessages >= 0
    {
      SummaryCountIsSum(cs, dm[i].0);
      SentBoundedBySummary(cs, myUsername, dm[i].0);
    }
  }

  // -----------------------------------------------------------------------
  // The login list
  // -----------------------------------------------------------------------

  datatype LoginHistory = LoginHistory(Date: Json)

  /** `{Date: login.Date || "Unknown"}`; reading a property of null or
      undefined throws. */
  function LoginEntry(login: Json): (r: Result<LoginHistory>)
    ensures r.Err? <==> Nullish(login)
    ensures r.Ok? ==> Truthy(r.value.Date)
    ensures r.Ok? && Truthy(Get(login, "Date")) ==> r.value.Date == Get(login, "Date")
    ensures r.Ok? && !Truthy(Get(login, "Date")) ==> r.value.Date == Str("Unknown")
  {
    if Nullish(login) then Err(TypeError("Cannot read properties of null (reading 'Date')"))
    else Ok(LoginHistory(Or(Get(login, "Date"), Str("Unknown"))))
  }

  /** `items.map(LoginEntry)`, stopping at the first throw. */
  function MapEntries(items: seq<Json>): Result<seq<LoginHistory>>
    decreases |items|
  {
    if |items| == 0 then Ok([])
    else
      match LoginEntry(items[0])
      case Err(e) => Err(e)
      case Ok(h) =>
        match MapEntries(items[1..])
        case Err(e) => Err(e)
        case Ok(hs) => Ok([h] + hs)
  }

  /** `loginData.map(login => ({Date: login.Date || "Unknown"}))`; only an
      array has a `map` method. */
  function MapLogins(loginData: Json): Result<seq<LoginHistory>> {
    if loginData.Arr? then MapEntries(loginData.items)
    else Err(TypeError("loginData.map is not a function"))
  }

  /** The mapping succeeds exactly on an array without null entries; it
      keeps the length and each entry's date, putting "Unknown" for a
      missing or falsy one. */
  lemma {:induction false} MapEntriesSpec(items: seq<Json>)
    ensures MapEntries(items).Ok? <==> forall i :: 0 <= i < |items| ==> !Nullish(items[i])
    ensures MapEntries(items).Ok? ==> var hs := MapEntries(items).value;
      && |hs| == |items|
      && forall i :: 0 <= i < |items| ==> Ok(hs[i]) == LoginEntry(items[i])
    decreases |items|
  {
    if |items| > 0 {
      MapEntriesSpec(items[1..]);
      assert forall i :: 1 <= i < |items| ==> items[i] == items[1..][i - 1];
      if MapEntries(items).Ok? {
        var hs := MapEntries(items).value;
        forall i | 0 <= i < |items| ensures Ok(hs[i]) == LoginEntry(items[i]) {
          if i > 0 {
            assert hs[i] == MapEntries(items[1..]).value[i - 1];
          }
        }
      }
    }
  }

  lemma MapLoginsSpec(loginData: Json)
    ensures MapLogins(loginData).Ok? <==> loginData.Arr? && forall i :: 0 <= i < |loginData.items| ==> !Nullish(loginData.items[i])
    ensures MapLogins(loginData).Ok? ==> var hs := MapLogins(loginData).value;
      && |hs| == |loginData.items|
      && forall i :: 0 <= i < |hs| ==>
           && Truthy(hs[i].Date)
           && (Truthy(Get(loginData.items[i], "Date")) ==> hs[i].Date == Get(loginData.items[i], "Date"))
           && (!Truthy(Get(loginData.items[i], "Date")) ==> hs[i].Date == Str("Unknown"))
  {
    if loginData.Arr? {
      MapEntriesSpec(loginData.items);
    }
  }

  /** With no login section the list is empty. */
  lemma NoLoginHistoryGivesNoLogins(data: Json)
    requires !Truthy(Path(data, ["Activity", "Login History", "LoginHistoryList"]))
    ensures MapLogins(LoginDataOf(data)) == Ok([])
  {
  }

  // -----------------------------------------------------------------------
  // The shopping totals
  // -----------------------------------------------------------------------

  /** Spending is a real number here, not a binary float. */
  datatype ShoppingSummary = ShoppingSummary(totalSpending: real, totalOrders: int)

  /** `shoppingData["Order History"]?.["OrderHistories"] || {}` */
  function OrderHistoriesOf(shoppingData: Json): Json {
    Or(Path(shoppingData, ["Order History", "OrderHistories"]), Obj([]))
  }

  /** The amount one order adds to the spending:
      `parseFloat((order.total_price || "0 USD").split(" ")[0]) || 0`.
      Reading a property of null or undefined, or calling `split` on a
      truthy non-string, throws. */
  function OrderPrice(order: Json): Result<real> {
    if Nullish(order) then Err(TypeError("Cannot read properties of null (reading 'total_price')"))
    else
      var totalPriceStr := Or(Get(order, "total_price"), Str("0 USD"));
      if !totalPriceStr.Str? then Err(TypeError("totalPriceStr.split is not a function"))
      else
        match ParseFloat(FirstWord(totalPriceStr.s))
        case Some(v) => Ok(v)
        case None => Ok(0.0)
  }

  /** One step of the loop: a throw ends it, otherwise the order's amount
      is added and the order counted. */
  function AddOrder(sum: Result<ShoppingSummary>, price: Result<real>): Result<ShoppingSummary> {
    match sum
    case Err(e) => Err(e)
    case Ok(s) =>
      match price
      case Err(e) => Err(e)
      case Ok(p) => Ok(ShoppingSummary(s.totalSpending + p, s.totalOrders + 1))
  }

  /** The amount each order contributes, or the exception it raises. */
  function PricesOf(orders: seq<(string, Json)>): (r: seq<Result<real>>)
    ensures |r| == |orders|
  {
    seq(|orders|, i requires 0 <= i < |orders| => OrderPrice(orders[i].1))
  }

  /** The totals after a run of priced orders. */
  function Totals(prices: seq<Result<real>>): Result<ShoppingSummary>
    decreases |prices|
  {
    if |prices| == 0 then Ok(ShoppingSummary(0.0, 0))
    else AddOrder(Totals(prices[..|prices| - 1]), prices[|prices| - 1])
  }

  /** The totals after the given orders, in key order. */
  function OrderTotals(orders: seq<(string, Json)>): Result<ShoppingSummary> {
    Totals(PricesOf(orders))
  }

  lemma TotalsStep(prices: seq<Result<real>>, i: nat)
    requires i < |prices|
    ensures Totals(prices[..i + 1]) == AddOrder(Totals(prices[..i]), prices[i])
  {
    assert prices[..i + 1][..i] == prices[..i];
  }

  /** The summary the page stores, or None when `shoppingData` is falsy and
      the summary is left as it was. */
  method ShoppingTotals(shoppingData: Json) returns (r: Result<Option<ShoppingSummary>>)
    ensures !Truthy(shoppingData) ==> r == Ok(None)
    ensures Truthy(shoppingData) ==>
      r == match OrderTotals(Entries(OrderHistoriesOf(shoppingData)))
           case Err(e) => Err(e)
           case Ok(sum) => Ok(Some(sum))
  {
    if !Truthy(shoppingData) {
      return Ok(None);
    }
    var orderHistories := OrderHistoriesOf(shoppingData);
    var totals := SumOrders(Entries(orderHistories));
    return match totals
      case Err(e) => Err(e)
      case Ok(sum) => Ok(Some(sum));
  }

  /** The `forEach` over the order histories, with its two accumulators. */
  method SumOrders(orders: seq<(string, Json)>) returns (r: Result<ShoppingSummary>)
    ensures r == OrderTotals(orders)
  {
    ghost var prices := PricesOf(orders);
    var totalSpending := 0.0;
    var totalOrders := 0;
    var i := 0;
    while i < |orders|
      invariant 0 <= i <= |orders|
      invariant Totals(prices[..i]) == Ok(ShoppingSummary(totalSpending, totalOrders))
    {
      var order := orders[i].1;
      var totalPrice := OrderPrice(order);
      assert totalPrice == prices[i];
      TotalsStep(prices, i);
      if totalPrice.Err? {
        TotalsErrorPersists(prices, i + 1);
        assert prices == PricesOf(orders);
        return Err(totalPrice.error);
      }
      AddOrderOk(totalSpending, totalOrders, totalPrice.value);
      totalSpending := totalSpending + totalPrice.value;
      totalOrders := totalOrders + 1;
      i := i + 1;
    }
    assert prices[..i] == prices;
    return Ok(ShoppingSummary(totalSpending, totalOrders));
  }

  lemma AddOrderOk(totalSpending: real, totalOrders: int, p: real)
    ensures AddOrder(Ok(ShoppingSummary(totalSpending, totalOrders)), Ok(p)) == Ok(ShoppingSummary(totalSpending + p, totalOrders + 1))
  {
  }

  /** A throw among the first `n` orders is the result for the whole list. */
  lemma {:induction false} TotalsErrorPersists(prices: seq<Result<real>>, n: nat)
    requires n <= |prices|
    requires Totals(prices[..n]).Err?
    ensures Totals(prices) == Totals(prices[..n])
    decreases |prices| - n
  {
    if n < |prices| {
      TotalsStep(prices, n);
      TotalsErrorPersists(prices, n + 1);
    } else {
      assert prices[..n] == prices;
    }
  }

  /** What a priced order adds to the spending. */
  function Amount(price: Result<real>): real {
    if price.Ok? then price.value else 0.0
  }

  /** Reference definition: the sum of the amounts, taken from the front. */
  function Spending(prices: seq<Result<real>>): real
    decreases |prices|
  {
    if |prices| == 0 then 0.0 else Amount(prices[0]) + Spending(prices[1..])
  }

  lemma {:induction false} SpendingSnoc(prices: seq<Result<real>>, price: Result<real>)
    ensures Spending(prices + [price]) == Spending(prices) + Amount(price)
    decreases |prices|
  {
    if |prices| == 0 {
      assert prices + [price] == [price];
      assert [price][1..] == [];
    } else {
      assert (prices + [price])[0] == prices[0];
      assert (prices + [price])[1..] == prices[1..] + [price];
      SpendingSnoc(prices[1..], price);
    }
  }

  /** The run completes exactly when every price is known, and then every
      order is counted and the amounts are summed. */
  lemma {:induction false} TotalsSpec(prices: seq<Result<real>>)
    ensures Totals(prices).Ok? <==> forall i :: 0 <= i < |prices| ==> prices[i].Ok?
    ensures Totals(prices).Ok? ==> Totals(prices).value.totalOrders == |prices|
    ensures Totals(prices).Ok? ==> Totals(prices).value.totalSpending == Spending(prices)
    decreases |prices|
  {
    if |prices| > 0 {
      var init := prices[..|prices| - 1];
      var last := prices[|prices| - 1];
      TotalsSpec(init);
      assert forall i :: 0 <= i < |init| ==> init[i] == prices[i];
      assert init + [last] == prices;
      SpendingSnoc(init, last);
    }
  }

  /** Every order is counted, whether or not its price parses, and the loop
      completes exactly when every order can be priced. */
  lemma OrderTotalsSpec(orders: seq<(string, Json)>)
    ensures OrderTotals(orders).Ok? <==> forall i :: 0 <= i < |orders| ==> OrderPrice(orders[i].1).Ok?
    ensures OrderTotals(orders).Ok? ==> OrderTotals(orders).value.totalOrders == |orders|
    ensures OrderTotals(orders).Ok? ==> OrderTotals(orders).value.totalSpending == Spending(PricesOf(orders))
  {
    var prices := PricesOf(orders);
    TotalsSpec(prices);
    assert forall i :: 0 <= i < |orders| ==> prices[i] == OrderPrice(orders[i].1);
  }

  /** The amount of the default price "0 USD". */
  lemma DefaultPriceIsZero()
    ensures ParseFloat(FirstWord("0 USD")) == Some(0.0)
  {
    FirstWordAt("0 USD", 1);
    assert "0 USD"[..1] == "0";
    ParseFloatDigits("0");
  }

  /** An order without a (truthy) `total_price` adds nothing. */
  lemma MissingPriceAddsZero(order: Json)
    requires !Nullish(order) && !Truthy(Get(order, "total_price"))
    ensures OrderPrice(order) == Ok(0.0)
  {
    DefaultPriceIsZero();
  }

  /** A price whose first word holds no digit adds nothing. */
  lemma UnparseablePriceAddsZero(order: Json)
    requires !Nullish(order) && Get(order, "total_price").Str?
    requires NoDigit(FirstWord(Get(order, "total_price").s))
    ensures OrderPrice(order) == Ok(0.0)
  {
    var w := FirstWord(Get(order, "total_price").s);
    if Truthy(Get(order, "total_price")) {
      ParseFloatNeedsDigit(w);
    } else {
      DefaultPriceIsZero();
    }
  }

  /** A price written as whole digits, a space and a currency adds the
      value of the digits. */
  lemma WholePriceAddsItsValue(order: Json, digits: string, currency: string)
    requires !Nullish(order) && Get(order, "total_price") == Str(digits + " " + currency)
    requires |digits| > 0 && forall i :: 0 <= i < |digits| ==> IsDigit(digits[i])
    ensures OrderPrice(order) == Ok(DigitsValue(digits) as real)
  {
    var s := digits + " " + currency;
    assert forall i :: 0 <= i < |digits| ==> s[i] != ' ';
    assert s[|digits|] == ' ';
    FirstWordAt(s, |digits|);
    assert s[..|digits|] == digits;
    ParseFloatDigits(digits);
  }

  /** A price written as "WHOLE.FRACTION CURRENCY", such as "12.50 USD",
      adds the value of the decimal literal. */
  lemma DecimalPriceAddsItsValue(order: Json, whole: string, fraction: string, currency: string)
    requires !Nullish(order) && Get(order, "total_price") == Str(whole + "." + fraction + " " + currency)
    requires forall i :: 0 <= i < |whole| ==> IsDigit(whole[i])
    requires forall i :: 0 <= i < |fraction| ==> IsDigit(fraction[i])
    requires |whole| + |fraction| > 0
    ensures OrderPrice(order) == Ok(DigitsValue(whole + fraction) as real / Pow10(|fraction|) as real)
  {
    var lit := whole + "." + fraction;
    var s := lit + " " + currency;
    assert forall i :: 0 <= i < |lit| ==> s[i] == lit[i] && lit[i] != ' ';
    assert s[|lit|] == ' ';
    FirstWordAt(s, |lit|);
    assert s[..|lit|] == lit;
    ParseFloatDecimal(whole, fraction);
  }

  /** Without an order history the totals are zero. */
  lemma NoOrderHistoryGivesZero(shoppingData: Json)
    requires !Truthy(Path(shoppingData, ["Order History", "OrderHistories"]))
    ensures OrderTotals(Entries(OrderHistoriesOf(shoppingData))) == Ok(ShoppingSummary(0.0, 0))
  {
  }
}
