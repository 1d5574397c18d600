/**
 * The helpers behind the "Wrapped" summary cards: the three top-5 rankings
 * (most purchased products, most messaged friends, most expensive products)
 * and the index arithmetic of the slide carousel.
 */
module SummaryCards {
  import opened JsValues
  import opened JsStrings
  import opened Records

  // -----------------------------------------------------------------------
  // `arr.sort((a, b) => score(b) - score(a))` followed by `arr.slice(0, 5)`
  // -----------------------------------------------------------------------

  predicate NonIncreasing<T>(s: seq<T>, score: T -> int) {
    forall i, j :: 0 <= i < j < |s| ==> score(s[i]) >= score(s[j])
  }

  /** Places `x` after every element scoring at least as much as `x`. */
  function Insert<T>(x: T, s: seq<T>, score: T -> int): seq<T>
    decreases |s|
  {
    if |s| == 0 then [x]
    else if score(s[0]) >= score(x) then [s[0]] + Insert(x, s[1..], score)
    else [x] + s
  }

  /** A stable sort into descending order of `score`, as `Array.prototype.sort`
      does with the comparator `(a, b) => score(b) - score(a)`. */
  function SortDesc<T>(s: seq<T>, score: T -> int): seq<T>
    decreases |s|
  {
    if |s| == 0 then [] else Insert(s[|s| - 1], SortDesc(s[..|s| - 1], score), score)
  }

  /** Every element of `s` scores at most `b`. */
  predicate ScoresAtMost<T>(s: seq<T>, score: T -> int, b: int) {
    forall i :: 0 <= i < |s| ==> score(s[i]) <= b
  }

  /** Inserting adds exactly `x`. */
  lemma {:induction false} InsertPerm<T>(x: T, s: seq<T>, score: T -> int)
    ensures multiset(Insert(x, s, score)) == multiset(s) + multiset{x}
    decreases |s|
  {
    if |s| > 0 && score(s[0]) >= score(x) {
      assert s == [s[0]] + s[1..];
      InsertPerm(x, s[1..], score);
    }
  }

  /** Inserting keeps a common upper bound of the scores. */
  lemma {:induction false} InsertBound<T>(x: T, s: seq<T>, score: T -> int, b: int)
    requires ScoresAtMost(s, score, b) && score(x) <= b
    ensures ScoresAtMost(Insert(x, s, score), score, b)
    decreases |s|
  {
    if |s| > 0 {
      var r := Insert(x, s, score);
      if score(s[0]) >= score(x) {
        var t := Insert(x, s[1..], score);
        InsertBound(x, s[1..], score, b);
        forall i | 0 < i < |r| ensures score(r[i]) <= b {
          assert r[i] == t[i - 1];
        }
      } else {
        forall i | 0 < i < |r| ensures score(r[i]) <= b {
          assert r[i] == s[i - 1];
        }
      }
    }
  }

  /** Inserting into a descending list keeps it descending. */
  lemma {:induction false} InsertSorted<T>(x: T, s: seq<T>, score: T -> int)
    requires NonIncreasing(s, score)
    ensures NonIncreasing(Insert(x, s, score), score)
    decreases |s|
  {
    if |s| > 0 {
      var r := Insert(x, s, score);
      if score(s[0]) >= score(x) {
        var t := Insert(x, s[1..], score);
        InsertSorted(x, s[1..], score);
        InsertBound(x, s[1..], score, score(s[0]));
        forall i, j | 0 <= i < j < |r| ensures score(r[i]) >= score(r[j]) {
          assert r[j] == t[j - 1];
          if i > 0 {
            assert r[i] == t[i - 1];
          }
        }
      } else {
        forall i, j | 0 <= i < j < |r| ensures score(r[i]) >= score(r[j]) {
          assert r[j] == s[j - 1];
          if i > 0 {
            assert r[i] == s[i - 1];
          }
        }
      }
    }
  }

  /** The sort orders by descending score and is a permutation. */
  lemma {:induction false} SortDescSpec<T>(s: seq<T>, score: T -> int)
    ensures NonIncreasing(SortDesc(s, score), score)
    ensures multiset(SortDesc(s, score)) == multiset(s)
    ensures |SortDesc(s, score)| == |s|
    decreases |s|
  {
    if |s| > 0 {
      var init := s[..|s| - 1];
      assert init + [s[|s| - 1]] == s;
      SortDescSpec(init, score);
      InsertPerm(s[|s| - 1], SortDesc(init, score), score);
      InsertSorted(s[|s| - 1], SortDesc(init, score), score);
    }
    assert |multiset(SortDesc(s, score))| == |multiset(s)|;
  }

  /** `arr.slice(0, 5)` */
  function Take5<T>(s: seq<T>): seq<T> {
    if |s| <= 5 then s else s[..5]
  }

  /** The top-5 list is the best `min(5, |s|)` elements of `s` in descending
      order: nothing left out scores more than anything kept. */
  lemma TopFive<T>(s: seq<T>, score: T -> int)
    ensures var r := Take5(SortDesc(s, score));
      && |r| == (if |s| <= 5 then |s| else 5)
      && NonIncreasing(r, score)
      && (forall y :: y in r ==> y in s)
      && (forall x, y :: x in s && x !in r && y in r ==> score(y) >= score(x))
  {
    var q := SortDesc(s, score);
    SortDescSpec(s, score);
    var r := Take5(q);
    assert r == q[..|r|];
    forall y | y in r ensures y in s {
      assert y in multiset(q);
    }
    forall x, y | x in s && x !in r && y in r ensures score(y) >= score(x) {
      assert x in multiset(q);
      var k :| 0 <= k < |q| && q[k] == x;
      var m :| 0 <= m < |r| && r[m] == y;
      assert q[m] == y;
    }
  }

  // -----------------------------------------------------------------------
  // getTop5Purchased
  // -----------------------------------------------------------------------

  /** One element of `shopping.purchasedItems`; prices are whole numbers of
      the smallest currency unit. */
  datatype ShoppingItem = ShoppingItem(productName: string, quantity: int, totalPrice: int)

  datatype Purchased = Purchased(name: string, qty: int)

  function Qty(p: Purchased): int { p.qty }

  /** Each item's quantity under its lower-cased product name. */
  function QtyPairs(items: seq<ShoppingItem>): (ps: seq<(string, int)>)
    ensures |ps| == |items|
  {
    seq(|items|, i requires 0 <= i < |items| => (Lower(items[i].productName), items[i].quantity))
  }

  lemma QtyPairsSnoc(items: seq<ShoppingItem>, n: nat)
    requires n < |items|
    ensures QtyPairs(items[..n + 1]) == QtyPairs(items[..n]) + [(Lower(items[n].productName), items[n].quantity)]
  {
  }

  /** `Object.entries(productCount).map(([name, qty]) => ({name, qty}))` */
  function PurchasedRows(d: Record<int>): (rows: seq<Purchased>)
    ensures |rows| == |d|
  {
    seq(|d|, j requires 0 <= j < |d| => Purchased(d[j].0, d[j].1))
  }

  /** `getTop5Purchased(shopping)`: no ranking without a shopping summary;
      otherwise the five largest quantity totals per lower-cased name. */
  method Top5Purchased(shopping: Option<seq<ShoppingItem>>) returns (r: seq<Purchased>)
    ensures shopping.None? ==> r == []
    ensures shopping.Some? ==> r == Take5(SortDesc(PurchasedRows(SumByKey(QtyPairs(shopping.value))), Qty))
  {
    if shopping.None? {
      return [];
    }
    var items := shopping.value;
    var productCount: Record<int> := [];
    var i := 0;
    while i < |items|
      invariant 0 <= i <= |items|
      invariant productCount == SumByKey(QtyPairs(items[..i]))
    {
      var lowerName := Lower(items[i].productName);
      productCount := Accumulate(productCount, lowerName, items[i].quantity);
      QtyPairsSnoc(items, i);
      SumByKeySnoc(QtyPairs(items[..i]), (lowerName, items[i].quantity));
      i := i + 1;
    }
    assert items[..i] == items;
    var arr := PurchasedRows(productCount);
    arr := SortDesc(arr, Qty);
    r := Take5(arr);
  }

  /** `if (!d[k]) d[k] = 0; d[k] += n;`, which is `d[k] = (d[k] || 0) + n`:
      resetting a zero entry to zero changes nothing. */
  method Accumulate(d: Record<int>, k: string, n: int) returns (d': Record<int>)
    ensures d' == AddTo(d, k, n)
  {
    d' := d;
    if LookupOr(d', k, 0) == 0 {
      d' := Put(d', k, 0);
      LookupPut(d, k, 0, k, 0);
      PutTwice(d, k, 0, n);
    }
    d' := Put(d', k, LookupOr(d', k, 0) + n);
  }

  /** The purchased ranking: at most five entries, in descending order, each
      the total quantity of one lower-cased product name. */
  lemma Top5PurchasedSpec(items: seq<ShoppingItem>)
    ensures var g := SumByKey(QtyPairs(items));
      var r := Take5(SortDesc(PurchasedRows(g), Qty));
      && |r| == (if |g| <= 5 then |g| else 5)
      && NonIncreasing(r, Qty)
      && (forall p :: p in r ==> Mentions(QtyPairs(items), p.name) && p.qty == SumFor(QtyPairs(items), p.name))
  {
    var ps := QtyPairs(items);
    var g := SumByKey(ps);
    var rows := PurchasedRows(g);
    TopFive(rows, Qty);
    SumByKeyDistinct(ps);
    forall p | p in Take5(SortDesc(rows, Qty)) ensures Mentions(ps, p.name) && p.qty == SumFor(ps, p.name) {
      var j :| 0 <= j < |rows| && rows[j] == p;
      LookupDistinct(g, p.name, 0, j);
      SumByKeySpec(ps, p.name);
    }
  }

  /** No product group left out of the purchased ranking was bought more
      often than one kept in it. */
  lemma Top5PurchasedIsTop(items: seq<ShoppingItem>)
    ensures var g := SumByKey(QtyPairs(items));
      var r := Take5(SortDesc(PurchasedRows(g), Qty));
      forall j, p :: 0 <= j < |g| && Purchased(g[j].0, g[j].1) !in r && p in r ==> p.qty >= g[j].1
  {
    PurchasedRowsTop(SumByKey(QtyPairs(items)));
  }

  lemma PurchasedRowsTop(g: Record<int>)
    ensures var r := Take5(SortDesc(PurchasedRows(g), Qty));
      forall j, p :: 0 <= j < |g| && Purchased(g[j].0, g[j].1) !in r && p in r ==> p.qty >= g[j].1
  {
    var rows := PurchasedRows(g);
    var r := Take5(SortDesc(rows, Qty));
    TopFive(rows, Qty);
    forall j, p | 0 <= j < |g| && Purchased(g[j].0, g[j].1) !in r && p in r ensures p.qty >= g[j].1 {
      assert rows[j] == Purchased(g[j].0, g[j].1) && rows[j] in rows;
    }
  }

  // -----------------------------------------------------------------------
  // getTop5Friends
  // -----------------------------------------------------------------------

  datatype Friend = Friend(contact: string, total: int)

  function Total(f: Friend): int { f.total }

  /** `Object.entries(dmSummary).map(([contact, total]) => ({contact, total}))` */
  function FriendRows(dm: Record<int>): (rows: seq<Friend>)
    ensures |rows| == |dm|
  {
    seq(|dm|, j requires 0 <= j < |dm| => Friend(dm[j].0, dm[j].1))
  }

  /** `getTop5Friends(dmSummary)` */
  function Top5Friends(dmSummary: Option<Record<int>>): seq<Friend> {
    if dmSummary.None? then [] else Take5(SortDesc(FriendRows(dmSummary.value), Total))
  }

  /** The friends ranking: nothing without a summary; otherwise at most five
      entries in descending order, each a contact of the summary with its own
      count, and no contact left out has a larger count than one kept. */
  lemma Top5FriendsSpec(dmSummary: Option<Record<int>>)
    requires dmSummary.Some? ==> DistinctKeys(dmSummary.value)
    ensures dmSummary.None? ==> Top5Friends(dmSummary) == []
    ensures dmSummary.Some? ==> var dm, r := dmSummary.value, Top5Friends(dmSummary);
      && |r| == (if |dm| <= 5 then |dm| else 5)
      && NonIncreasing(r, Total)
      && (forall f :: f in r ==> HasKey(dm, f.contact) && LookupOr(dm, f.contact, 0) == f.total)
      && (forall j, f :: 0 <= j < |dm| && Friend(dm[j].0, dm[j].1) !in r && f in r ==> f.total >= dm[j].1)
  {
    if dmSummary.Some? {
      var dm := dmSummary.value;
      var rows := FriendRows(dm);
      var r := Take5(SortDesc(rows, Total));
      TopFive(rows, Total);
      forall f | f in r ensures HasKey(dm, f.contact) && LookupOr(dm, f.contact, 0) == f.total {
        var j :| 0 <= j < |rows| && rows[j] == f;
        LookupDistinct(dm, f.contact, 0, j);
      }
      forall j, f | 0 <= j < |dm| && Friend(dm[j].0, dm[j].1) !in r && f in r ensures f.total >= dm[j].1 {
        assert rows[j] == Friend(dm[j].0, dm[j].1);
      }
    }
  }

  // -----------------------------------------------------------------------
  // getTop5Expensive
  // -----------------------------------------------------------------------

  datatype Expensive = Expensive(name: string, cost: int)

  function Cost(e: Expensive): int { e.cost }

  /** Each item's total price under its lower-cased product name. */
  function CostPairs(items: seq<ShoppingItem>): (ps: seq<(string, int)>)
    ensures |ps| == |items|
  {
    seq(|items|, i requires 0 <= i < |items| => (Lower(items[i].productName), items[i].totalPrice))
  }

  /** Each item's original product name under its lower-cased form. */
  function NamePairs(items: seq<ShoppingItem>): (ps: seq<(string, string)>)
    ensures |ps| == |items|
  {
    seq(|items|, i requires 0 <= i < |items| => (Lower(items[i].productName), items[i].productName))
  }

  lemma PairsSnoc(items: seq<ShoppingItem>, n: nat)
    requires n < |items|
    ensures CostPairs(items[..n + 1]) == CostPairs(items[..n]) + [(Lower(items[n].productName), items[n].totalPrice)]
    ensures NamePairs(items[..n + 1]) == NamePairs(items[..n]) + [(Lower(items[n].productName), items[n].productName)]
  {
  }

  /** `Object.entries(productCost).map(([name, cost]) => ({name: productNames[name], cost}))` */
  function ExpensiveRows(productCost: Record<int>, productNames: Record<string>): (rows: seq<Expensive>)
    ensures |rows| == |productCost|
  {
    seq(|productCost|, j requires 0 <= j < |productCost| => Expensive(LookupOr(productNames, productCost[j].0, ""), productCost[j].1))
  }

  /** `getTop5Expensive(shopping)` */
  method Top5Expensive(shopping: Option<seq<ShoppingItem>>) returns (r: seq<Expensive>)
    ensures shopping.None? ==> r == []
    ensures shopping.Some? ==>
      r == Take5(SortDesc(ExpensiveRows(SumByKey(CostPairs(shopping.value)), LastByKey(NamePairs(shopping.value))), Cost))
  {
    if shopping.None? {
      return [];
    }
    var items := shopping.value;
    var productCost: Record<int> := [];
    var productNames: Record<string> := [];
    var i := 0;
    while i < |items|
      invariant 0 <= i <= |items|
      invariant productCost == SumByKey(CostPairs(items[..i]))
      invariant productNames == LastByKey(NamePairs(items[..i]))
    {
      var lowerName := Lower(items[i].productName);
      var cost := items[i].totalPrice;
      productCost := Accumulate(productCost, lowerName, cost);
      productNames := Put(productNames, lowerName, items[i].productName);
      PairsSnoc(items, i);
      SumByKeySnoc(CostPairs(items[..i]), (lowerName, cost));
      LastByKeySnoc(NamePairs(items[..i]), (lowerName, items[i].productName));
      i := i + 1;
    }
    assert items[..i] == items;
    var arr := ExpensiveRows(productCost, productNames);
    arr := SortDesc(arr, Cost);
    r := Take5(arr);
  }

  /** Both records are keyed by the same lower-cased names. */
  lemma SameLabels(items: seq<ShoppingItem>, k: string)
    ensures Mentions(CostPairs(items), k) <==> Mentions(NamePairs(items), k)
  {
    if Mentions(CostPairs(items), k) {
      var i :| 0 <= i < |items| && CostPairs(items)[i].0 == k;
      assert NamePairs(items)[i].0 == k;
    }
    if Mentions(NamePairs(items), k) {
      var i :| 0 <= i < |items| && NamePairs(items)[i].0 == k;
      assert CostPairs(items)[i].0 == k;
    }
  }

  /** The expensive ranking: at most five entries in descending order of
      cost. Each cost is the total price of one lower-cased product name,
      and each display name is the original spelling of the last item with
      that lower-cased name. */
  lemma Top5ExpensiveSpec(items: seq<ShoppingItem>)
    ensures var g := SumByKey(CostPairs(items));
      var r := Take5(SortDesc(ExpensiveRows(g, LastByKey(NamePairs(items))), Cost));
      && |r| == (if |g| <= 5 then |g| else 5)
      && NonIncreasing(r, Cost)
      && (forall e :: e in r ==> e.cost == SumFor(CostPairs(items), Lower(e.name)))
      && (forall e :: e in r ==> exists i :: IsLastOf(NamePairs(items), i, Lower(e.name)) && items[i].productName == e.name)
  {
    var cs, ns := CostPairs(items), NamePairs(items);
    var g, names := SumByKey(cs), LastByKey(ns);
    var rows := ExpensiveRows(g, names);
    var r := Take5(SortDesc(rows, Cost));
    TopFive(rows, Cost);
    SumByKeyDistinct(cs);
    forall e | e in r
      ensures e.cost == SumFor(cs, Lower(e.name))
      ensures exists i :: IsLastOf(ns, i, Lower(e.name)) && items[i].productName == e.name
    {
      var j :| 0 <= j < |rows| && rows[j] == e;
      var k := g[j].0;
      SumByKeySpec(cs, k);
      SameLabels(items, k);
      LastByKeySpec(ns, k, "");
      var i :| IsLastOf(ns, i, k) && ns[i].1 == LookupOr(names, k, "");
      assert ns[i] == (Lower(items[i].productName), items[i].productName);
      LookupDistinct(g, k, 0, j);
    }
  }

  /** No product group left out of the expensive ranking cost more than
      one kept in it. */
  lemma Top5ExpensiveIsTop(items: seq<ShoppingItem>)
    ensures var g := SumByKey(CostPairs(items));
      var rows := ExpensiveRows(g, LastByKey(NamePairs(items)));
      var r := Take5(SortDesc(rows, Cost));
      forall j, e :: 0 <= j < |g| && rows[j] !in r && e in r ==> e.cost >= g[j].1
  {
    ExpensiveRowsTop(SumByKey(CostPairs(items)), LastByKey(NamePairs(items)));
  }

  lemma ExpensiveRowsTop(g: Record<int>, names: Record<string>)
    ensures var rows := ExpensiveRows(g, names);
      var r := Take5(SortDesc(rows, Cost));
      forall j, e :: 0 <= j < |g| && rows[j] !in r && e in r ==> e.cost >= g[j].1
  {
    var rows := ExpensiveRows(g, names);
    var r := Take5(SortDesc(rows, Cost));
    TopFive(rows, Cost);
    forall j, e | 0 <= j < |g| && rows[j] !in r && e in r ensures e.cost >= g[j].1 {
      assert rows[j].cost == g[j].1 && rows[j] in rows;
    }
  }

  // -----------------------------------------------------------------------
  // The slide carousel
  // -----------------------------------------------------------------------

  /** The seven slides: shopping, top-5 expensive, DMs, top-5 friends,
      logins, profile, thanks. */
  const SlideCount: int := 7

  /** JavaScript's `%`, which truncates toward zero. */
  function JsRem(a: int, n: int): int
    requires n > 0
  {
    if a >= 0 then a % n else -((-a) % n)
  }

  /** `(prev + 1) % slidesData.length` */
  function NextSlide(i: int): int {
    JsRem(i + 1, SlideCount)
  }

  /** `(prev - 1 + slidesData.length) % slidesData.length` */
  function PrevSlide(i: int): int {
    JsRem(i - 1 + SlideCount, SlideCount)
  }

  /** On a valid index, the buttons step to the neighbouring slide and wrap
      around at either end, so they are inverse to each other. */
  lemma SlideSteps(i: int)
    requires 0 <= i < SlideCount
    ensures NextSlide(i) == if i == SlideCount - 1 then 0 else i + 1
    ensures PrevSlide(i) == if i == 0 then SlideCount - 1 else i - 1
    ensures NextSlide(PrevSlide(i)) == i && PrevSlide(NextSlide(i)) == i
  {
  }

  datatype Move = Prev | Next

  /** The carousel index after pressing the buttons in order. */
  function Navigate(i: int, moves: seq<Move>): int
    decreases |moves|
  {
    if |moves| == 0 then i
    else Navigate(if moves[0].Next? then NextSlide(i) else PrevSlide(i), moves[1..])
  }

  /** Forward presses minus backward presses. */
  function NetMoves(moves: seq<Move>): int
    decreases |moves|
  {
    if |moves| == 0 then 0 else (if moves[0].Next? then 1 else -1) + NetMoves(moves[1..])
  }

  /** Starting on a valid slide, any sequence of presses lands on a valid
      slide: the net number of forward presses, modulo the slide count. */
  lemma {:induction false} NavigateSpec(i: int, moves: seq<Move>)
    requires 0 <= i < SlideCount
    ensures Navigate(i, moves) == (i + NetMoves(moves)) % SlideCount
    ensures 0 <= Navigate(i, moves) < SlideCount
    decreases |moves|
  {
    if |moves| > 0 {
      var j := if moves[0].Next? then NextSlide(i) else PrevSlide(i);
      SlideSteps(i);
      NavigateSpec(j, moves[1..]);
      var d := if moves[0].Next? then 1 else -1;
      assert j == (i + d) % SlideCount;
      ModShift(i + d, NetMoves(moves[1..]));
    }
  }

  lemma ModShift(a: int, b: int)
    ensures (a % SlideCount + b) % SlideCount == (a + b) % SlideCount
  {
    var q := a / SlideCount;
    assert a == q * SlideCount + a % SlideCount;
    assert a % SlideCount + b == (a + b) + (-q) * SlideCount;
    ModMultiple(a + b, -q);
  }

  lemma ModMultiple(x: int, q: int)
    ensures (x + q * SlideCount) % SlideCount == x % SlideCount
  {
  }
}
