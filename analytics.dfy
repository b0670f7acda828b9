/** The dashboard aggregations: the revenue `reduce` over all payments, and
    the `$lookup` / `$unwind` / `$group` pipeline that totals the price of the
    purchased menu items per category. */
module Analytics {
  import opened Records

  /** `payments.reduce((sum, payment) => sum + payment.price, acc)`: a left
      fold, first payment first. Its value is the start value plus the
      reference sum of `price`. */
  function RevenueFrom(acc: int, payments: seq<Payment>): (r: int)
    ensures r == acc + TotalPrice(payments)
    decreases |payments|
  {
    if payments == [] then acc
    else
      var r := RevenueFrom(acc + payments[0].price, payments[1..]);
      TotalPriceAppend([payments[0]], payments[1..]);
      assert [payments[0]] + payments[1..] == payments;
      assert [payments[0]][..0] == [];
      r
  }

  /** The dashboard revenue: the fold started at 0, which is the sum of
      `price` over every payment. */
  function Revenue(payments: seq<Payment>): (r: int)
    ensures r == TotalPrice(payments)
    ensures payments == [] ==> r == 0
  {
    RevenueFrom(0, payments)
  }

  /** The reference sum of the `price` field, from the last payment backwards;
      it is never negative when no price is. */
  function TotalPrice(payments: seq<Payment>): (total: int)
    ensures (forall k :: 0 <= k < |payments| ==> payments[k].price >= 0) ==> total >= 0
  {
    if payments == [] then 0
    else
      var init := payments[..|payments| - 1];
      assert forall k :: 0 <= k < |init| ==> init[k] == payments[k];
      TotalPrice(init) + payments[|payments| - 1].price
  }

  lemma {:induction false} TotalPriceAppend(a: seq<Payment>, b: seq<Payment>)
    ensures TotalPrice(a + b) == TotalPrice(a) + TotalPrice(b)
  {
    if b == [] {
      assert a + b == a;
    } else {
      assert (a + b)[..|a + b| - 1] == a + b[..|b| - 1];
      TotalPriceAppend(a, b[..|b| - 1]);
    }
  }

  /** Revenue adds up over a concatenation of payment lists. */
  lemma RevenueAppend(a: seq<Payment>, b: seq<Payment>)
    ensures Revenue(a + b) == Revenue(a) + Revenue(b)
  {
    TotalPriceAppend(a, b);
  }

  /** Recording one more payment raises the revenue by its price, so with
      non-negative prices the revenue never decreases. */
  lemma RevenueRecord(payments: seq<Payment>, p: Payment)
    ensures Revenue(payments + [p]) == Revenue(payments) + p.price
    ensures p.price >= 0 ==> Revenue(payments + [p]) >= Revenue(payments)
  {
    RevenueAppend(payments, [p]);
    assert [p][1..] == [];
    assert Revenue([p]) == RevenueFrom(p.price, []);
  }

  /** `$lookup` from menu on `menuItems`: the menu documents whose id is
      among the references, in menu order, each at most once. */
  function Lookup(menu: seq<MenuItem>, refs: seq<Id>): (r: seq<MenuItem>)
    ensures forall m :: m in r <==> m in menu && m.id in refs
    ensures r == [] <==> forall m :: m in menu ==> m.id !in refs
    ensures |r| <= |menu|
  {
    if menu == [] then []
    else (if menu[0].id in refs then [menu[0]] else []) + Lookup(menu[1..], refs)
  }

  /** The lookup keeps menu order and takes each document once: it
      distributes over a split of the menu. */
  lemma {:induction false} LookupAppend(a: seq<MenuItem>, b: seq<MenuItem>, refs: seq<Id>)
    ensures Lookup(a + b, refs) == Lookup(a, refs) + Lookup(b, refs)
  {
    if a == [] {
      assert a + b == b;
    } else {
      LookupCons(a, b, refs);
      LookupAppend(a[1..], b, refs);
      ConcatAssoc(if a[0].id in refs then [a[0]] else [], Lookup(a[1..], refs), Lookup(b, refs));
    }
  }

  /** The first document of a non-empty menu is matched or skipped on its
      own, before and after appending more documents. */
  lemma LookupCons(a: seq<MenuItem>, b: seq<MenuItem>, refs: seq<Id>)
    requires a != []
    ensures Lookup(a, refs) == (if a[0].id in refs then [a[0]] else []) + Lookup(a[1..], refs)
    ensures Lookup(a + b, refs) == (if a[0].id in refs then [a[0]] else []) + Lookup(a[1..] + b, refs)
  {
    assert (a + b)[0] == a[0];
    assert (a + b)[1..] == a[1..] + b;
  }

  lemma ConcatAssoc(h: seq<MenuItem>, x: seq<MenuItem>, y: seq<MenuItem>)
    ensures h + (x + y) == (h + x) + y
  {
  }

  /** `$unwind` of the looked-up array: one document per matched menu item,
      payment after payment; a payment with no match yields none. */
  function Unwound(payments: seq<Payment>, menu: seq<MenuItem>): (items: seq<MenuItem>)
    ensures forall m :: m in items <==> m in menu && exists p :: p in payments && m.id in p.menuItems
    ensures payments == [] ==> items == []
  {
    if payments == [] then []
    else
      assert forall p :: p in payments <==> p == payments[0] || p in payments[1..];
      Lookup(menu, payments[0].menuItems) + Unwound(payments[1..], menu)
  }

  lemma {:induction false} UnwoundAppend(a: seq<Payment>, b: seq<Payment>, menu: seq<MenuItem>)
    ensures Unwound(a + b, menu) == Unwound(a, menu) + Unwound(b, menu)
  {
    if a == [] {
      assert a + b == b;
    } else {
      assert (a + b)[1..] == a[1..] + b;
      UnwoundAppend(a[1..], b, menu);
    }
  }

  /** The total of `price` over the items of one category: the reference
      for one `$group` entry. A category no item carries totals 0. */
  function CategoryTotal(items: seq<MenuItem>, category: string): (total: int)
    ensures (forall m :: m in items ==> m.category != category) ==> total == 0
  {
    if items == [] then 0
    else
      assert forall m :: m in items[1..] ==> m in items;
      (if items[0].category == category then items[0].price else 0) + CategoryTotal(items[1..], category)
  }

  lemma {:induction false} CategoryTotalAppend(a: seq<MenuItem>, b: seq<MenuItem>, category: string)
    ensures CategoryTotal(a + b, category) == CategoryTotal(a, category) + CategoryTotal(b, category)
  {
    if a == [] {
      assert a + b == b;
    } else {
      assert (a + b)[1..] == a[1..] + b;
      CategoryTotalAppend(a[1..], b, category);
    }
  }

  /** One step of `$group` with `$sum`: the item's category gains an entry
      or has its entry raised by the item's price; no other entry changes. */
  function AddToGroup(groups: map<string, int>, item: MenuItem): (r: map<string, int>)
    ensures r.Keys == groups.Keys + {item.category}
    ensures item.category in groups ==> r[item.category] == groups[item.category] + item.price
    ensures item.category !in groups ==> r[item.category] == item.price
    ensures forall c :: c in groups && c != item.category ==> r[c] == groups[c]
  {
    groups[item.category := (if item.category in groups then groups[item.category] else 0) + item.price]
  }

  /** `$group: { _id: category, count: { $sum: price } }` over the stream. */
  function GroupByCategory(items: seq<MenuItem>): (groups: map<string, int>)
    ensures forall c :: c in groups <==> exists m :: m in items && m.category == c
  {
    if items == [] then map[]
    else
      var groups := AddToGroup(GroupByCategory(items[1..]), items[0]);
      assert forall m :: m in items[1..] ==> m in items;
      assert forall m :: m in items ==> m == items[0] || m in items[1..];
      groups
  }

  /** Each entry of the grouping is the total price of its category. */
  lemma {:induction false} GroupByCategoryTotals(items: seq<MenuItem>)
    ensures forall c :: c in GroupByCategory(items) ==> GroupByCategory(items)[c] == CategoryTotal(items, c)
  {
    if items != [] {
      GroupByCategoryTotals(items[1..]);
    }
  }

  /** The category breakdown of the `/oder-status` route: a category has an
      entry exactly when some payment matched a menu item of it, and the
      entry is the total price of those matches. */
  function CategoryBreakdown(payments: seq<Payment>, menu: seq<MenuItem>): (r: map<string, int>)
    ensures forall c :: c in r <==> exists m :: m in Unwound(payments, menu) && m.category == c
    ensures forall c :: c in r ==> r[c] == CategoryTotal(Unwound(payments, menu), c)
    ensures payments == [] ==> r == map[]
  {
    var items := Unwound(payments, menu);
    GroupByCategoryTotals(items);
    GroupByCategory(items)
  }

  /** Adding two groupings key by key; a key missing from one side counts 0. */
  function MergeTotals(g: map<string, int>, h: map<string, int>): (r: map<string, int>)
    ensures r.Keys == g.Keys + h.Keys
  {
    map c | c in g.Keys + h.Keys ::
      (if c in g then g[c] else 0) + (if c in h then h[c] else 0)
  }

  /** One key of the concatenation lemma below. */
  lemma GroupByCategoryAppendAt(a: seq<MenuItem>, b: seq<MenuItem>, c: string)
    ensures c in GroupByCategory(a + b) <==> c in MergeTotals(GroupByCategory(a), GroupByCategory(b))
    ensures c in GroupByCategory(a + b)
        ==> GroupByCategory(a + b)[c] == MergeTotals(GroupByCategory(a), GroupByCategory(b))[c]
  {
    var ga, gb, gab := GroupByCategory(a), GroupByCategory(b), GroupByCategory(a + b);
    if c in gab {
      var m :| m in a + b && m.category == c;
      assert m in a || m in b;
      GroupByCategoryTotals(a + b);
      GroupByCategoryTotals(a);
      GroupByCategoryTotals(b);
      CategoryTotalAppend(a, b, c);
    }
  }

  /** Grouping adds up over a concatenation of the unwound stream. */
  lemma GroupByCategoryAppend(a: seq<MenuItem>, b: seq<MenuItem>)
    ensures GroupByCategory(a + b) == MergeTotals(GroupByCategory(a), GroupByCategory(b))
  {
    var gab, merged := GroupByCategory(a + b), MergeTotals(GroupByCategory(a), GroupByCategory(b));
    forall c ensures (c in gab <==> c in merged) && (c in gab ==> gab[c] == merged[c]) {
      GroupByCategoryAppendAt(a, b, c);
    }
  }

  /** The breakdown of two payment lists is the key-wise sum of theirs. */
  lemma CategoryBreakdownAppend(a: seq<Payment>, b: seq<Payment>, menu: seq<MenuItem>)
    ensures CategoryBreakdown(a + b, menu) == MergeTotals(CategoryBreakdown(a, menu), CategoryBreakdown(b, menu))
  {
    UnwoundAppend(a, b, menu);
    GroupByCategoryAppend(Unwound(a, menu), Unwound(b, menu));
  }

  /** A payment none of whose references matches a menu item is dropped by
      `$unwind`: the breakdown does not change. */
  lemma CategoryBreakdownUnmatched(payments: seq<Payment>, p: Payment, menu: seq<MenuItem>)
    requires forall m :: m in menu ==> m.id !in p.menuItems
    ensures CategoryBreakdown(payments + [p], menu) == CategoryBreakdown(payments, menu)
  {
    UnwoundAppend(payments, [p], menu);
    assert Lookup(menu, p.menuItems) == [];
    assert Unwound([p], menu) == [] by { assert [p][1..] == []; }
    assert Unwound(payments, menu) + [] == Unwound(payments, menu);
  }

  /** Two payments that each matched one item of the same category give one
      entry holding both prices. */
  lemma CategoryBreakdownSameCategory(p: Payment, q: Payment, menu: seq<MenuItem>, m: MenuItem, n: MenuItem)
    requires Lookup(menu, p.menuItems) == [m] && Lookup(menu, q.menuItems) == [n]
    requires m.category == n.category
    ensures CategoryBreakdown([p, q], menu) == map[m.category := m.price + n.price]
  {
    UnwoundPair(p, q, menu);
    GroupPair(m, n);
  }

  lemma UnwoundSingle(p: Payment, menu: seq<MenuItem>)
    ensures Unwound([p], menu) == Lookup(menu, p.menuItems)
  {
  }

  lemma UnwoundPair(p: Payment, q: Payment, menu: seq<MenuItem>)
    ensures Unwound([p, q], menu) == Lookup(menu, p.menuItems) + Lookup(menu, q.menuItems)
  {
    assert [p, q] == [p] + [q];
    UnwoundAppend([p], [q], menu);
    UnwoundSingle(p, menu);
    UnwoundSingle(q, menu);
  }

  lemma GroupPair(m: MenuItem, n: MenuItem)
    requires m.category == n.category
    ensures GroupByCategory([m, n]) == map[m.category := m.price + n.price]
  {
  }
}
