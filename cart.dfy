/**
  The server-side shopping cart kept by BarcodeScanner (services/barcode_scanner.py):
  a Python dict from barcode to an entry {id, name, price, qty, total}. A dict
  remembers insertion order, so a cart is its keys in that order plus the entry
  stored under each key. Money is an integer number of dong.
*/
module CartModel {

  /** A Products row as get_product_by_barcode returns it: ProductID, Name, Price. */
  datatype Product = Product(id: int, name: string, price: int)

  /** One cart entry. */
  datatype Item = Item(id: int, name: string, price: int, qty: int, total: int)

  /** A dict: its keys in insertion order and the entry stored under each key. */
  datatype Cart = Cart(keys: seq<string>, items: map<string, Item>)

  predicate Distinct(s: seq<string>) {
    forall i, j :: 0 <= i < j < |s| ==> s[i] != s[j]
  }

  /** What every dict is: each key once, and the keys are exactly those with an entry. */
  predicate WellFormed(c: Cart) {
    && Distinct(c.keys)
    && (forall k :: k in c.keys ==> k in c.items)
    && (forall k :: k in c.items ==> k in c.keys)
  }

  /** The entry invariant: at least one unit, and the line total is quantity times price. */
  predicate ItemOk(it: Item) {
    it.qty >= 1 && it.total == it.qty * it.price
  }

  /** The cart invariant that every cart operation keeps. */
  predicate Valid(c: Cart) {
    WellFormed(c) && forall k :: k in c.items ==> ItemOk(c.items[k])
  }

  /** Every entry other than the one under `b` is the same in `c` and `r`. */
  ghost predicate SameElsewhere(c: Cart, r: Cart, b: string) {
    forall k :: k != b ==> (k in c.items <==> k in r.items) && (k in c.items ==> r.items[k] == c.items[k])
  }

  /** An empty dict. */
  function Empty(): (c: Cart)
    ensures Valid(c) && |c.items| == 0
  {
    Cart([], map[])
  }

  /**
    _add_to_cart: an entry already present gains one unit; otherwise a new entry is
    made from the product with quantity 1. Either way the entry's total is then
    recomputed from its own quantity and price.
  */
  function Add(c: Cart, barcode: string, p: Product): (r: Cart)
    requires WellFormed(c)
    ensures WellFormed(r) && barcode in r.items
    ensures SameElsewhere(c, r, barcode)
    ensures barcode !in c.items ==>
      r.keys == c.keys + [barcode] && r.items[barcode] == Item(p.id, p.name, p.price, 1, p.price)
    ensures barcode in c.items ==>
      && r.keys == c.keys
      && r.items[barcode].qty == c.items[barcode].qty + 1
      && r.items[barcode].id == c.items[barcode].id
      && r.items[barcode].name == c.items[barcode].name
      && r.items[barcode].price == c.items[barcode].price
    ensures r.items[barcode].total == r.items[barcode].qty * r.items[barcode].price
    ensures Valid(c) ==> Valid(r)
  {
    var entry := if barcode in c.items then c.items[barcode].(qty := c.items[barcode].qty + 1)
                 else Item(p.id, p.name, p.price, 1, 0);
    var keys := if barcode in c.items then c.keys else c.keys + [barcode];
    Cart(keys, c.items[barcode := entry.(total := entry.qty * entry.price)])
  }

  /** The keys of `s` other than `b`, in their order. */
  function Without(s: seq<string>, b: string): (r: seq<string>)
    ensures forall k :: k in r <==> k in s && k != b
    ensures Distinct(s) ==> Distinct(r)
    ensures b !in s ==> r == s
  {
    if s == [] then []
    else
      var rest := Without(s[..|s| - 1], b);
      assert s == s[..|s| - 1] + [s[|s| - 1]];
      if s[|s| - 1] == b then rest
      else
        DistinctSnoc(rest, s[|s| - 1]);
        rest + [s[|s| - 1]]
  }

  lemma DistinctSnoc(s: seq<string>, x: string)
    ensures Distinct(s) && x !in s ==> Distinct(s + [x])
  {
  }

  /** Removing the key at position p cuts it out there: the other keys keep their relative order. */
  lemma {:induction false} WithoutKeepsOrder(s: seq<string>, b: string, p: nat)
    requires Distinct(s) && p < |s| && s[p] == b
    ensures Without(s, b) == s[..p] + s[p + 1..]
    decreases |s|
  {
    var n := |s| - 1;
    var init := s[..n];
    assert s == init + [s[n]];
    if p == n {
      assert b !in init;
    } else {
      assert init[p] == b;
      WithoutKeepsOrder(init, b, p);
      assert init[..p] == s[..p];
      assert init[p + 1..] + [s[n]] == s[p + 1..];
    }
  }

  /** remove_item: dict.pop(barcode, None) deletes that key and nothing else. */
  function Remove(c: Cart, b: string): (r: Cart)
    requires WellFormed(c)
    ensures WellFormed(r)
    ensures r.items == c.items - {b}
    ensures r.keys == Without(c.keys, b)
    ensures b !in c.items ==> r == c
    ensures Valid(c) ==> Valid(r)
  {
    Cart(Without(c.keys, b), c.items - {b})
  }

  /**
    update_quantity: a barcode not in the cart leaves it unchanged; a positive
    quantity replaces the entry's quantity and recomputes its total; any other
    quantity removes the entry.
  */
  function SetQuantity(c: Cart, b: string, qty: int): (r: Cart)
    requires WellFormed(c)
    ensures WellFormed(r)
    ensures b !in c.items ==> r == c
    ensures b in c.items && qty > 0 ==>
      && r.keys == c.keys && b in r.items
      && r.items[b].qty == qty
      && r.items[b].total == qty * c.items[b].price
      && r.items[b].price == c.items[b].price
      && r.items[b].id == c.items[b].id
      && r.items[b].name == c.items[b].name
      && SameElsewhere(c, r, b)
    ensures b in c.items && qty <= 0 ==> r.items == c.items - {b}
    ensures Valid(c) ==> Valid(r)
  {
    if b !in c.items then c
    else if qty > 0 then
      Cart(c.keys, c.items[b := c.items[b].(qty := qty, total := qty * c.items[b].price)])
    else Remove(c, b)
  }

  /** The sum of `f` over the entries stored under `keys`. */
  function Sum(keys: seq<string>, items: map<string, Item>, f: Item -> int): int
    requires forall k :: k in keys ==> k in items
  {
    if keys == [] then 0
    else Sum(keys[..|keys| - 1], items, f) + f(items[keys[|keys| - 1]])
  }

  function TotalOf(it: Item): int { it.total }

  function QtyOf(it: Item): int { it.qty }

  /** sum(item["total"] for item in cart.values()): the amount due for the cart. */
  function Total(c: Cart): int
    requires WellFormed(c)
  {
    Sum(c.keys, c.items, TotalOf)
  }

  /** The number of units in the cart. */
  function Quantity(c: Cart): int
    requires WellFormed(c)
  {
    Sum(c.keys, c.items, QtyOf)
  }

  /** The sum depends only on the entries under `keys`. */
  lemma {:induction false} SumOnlyReadsKeys(keys: seq<string>, a: map<string, Item>, b: map<string, Item>, f: Item -> int)
    requires forall k :: k in keys ==> k in a && k in b && a[k] == b[k]
    ensures Sum(keys, a, f) == Sum(keys, b, f)
  {
    if keys != [] {
      SumOnlyReadsKeys(keys[..|keys| - 1], a, b, f);
    }
  }

  /** Replacing the one entry under a key that occurs once changes the sum by the difference. */
  lemma {:induction false} SumUpdate(keys: seq<string>, items: map<string, Item>, b: string, v: Item, f: Item -> int)
    requires Distinct(keys) && b in keys
    requires forall k :: k in keys ==> k in items
    ensures Sum(keys, items[b := v], f) == Sum(keys, items, f) - f(items[b]) + f(v)
  {
    var n := |keys| - 1;
    var init := keys[..n];
    assert keys == init + [keys[n]];
    if keys[n] == b {
      assert b !in init;
      SumOnlyReadsKeys(init, items[b := v], items, f);
    } else {
      assert b in init;
      SumUpdate(init, items, b, v, f);
    }
  }

  /** Dropping a key removes exactly its entry's share of the sum. */
  lemma {:induction false} SumWithout(keys: seq<string>, items: map<string, Item>, b: string, f: Item -> int)
    requires Distinct(keys)
    requires forall k :: k in keys ==> k in items
    ensures Sum(Without(keys, b), items - {b}, f) == Sum(keys, items, f) - (if b in keys then f(items[b]) else 0)
  {
    if keys != [] {
      var n := |keys| - 1;
      var init := keys[..n];
      assert keys == init + [keys[n]];
      SumWithout(init, items, b, f);
      if keys[n] == b {
        assert b !in init;
      } else {
        var w := Without(init, b);
        assert Without(keys, b) == w + [keys[n]];
        assert (w + [keys[n]])[..|w|] == w;
      }
    }
  }

  /** Entries each worth at least one contribute at least one each. */
  lemma {:induction false} SumAtLeastCount(keys: seq<string>, items: map<string, Item>, f: Item -> int)
    requires forall k :: k in keys ==> k in items && f(items[k]) >= 1
    ensures Sum(keys, items, f) >= |keys|
  {
    if keys != [] {
      SumAtLeastCount(keys[..|keys| - 1], items, f);
    }
  }

  /** Scanning one product raises the amount due by that product's unit price. */
  lemma TotalAdd(c: Cart, b: string, p: Product)
    requires Valid(c)
    ensures Total(Add(c, b, p)) == Total(c) + (if b in c.items then c.items[b].price else p.price)
  {
    var r := Add(c, b, p);
    if b in c.items {
      var it := c.items[b];
      assert r.items == c.items[b := r.items[b]];
      SumUpdate(c.keys, c.items, b, r.items[b], TotalOf);
      OneMoreUnit(it.qty, it.price);
    } else {
      var n := |r.keys| - 1;
      assert r.keys[..n] == c.keys;
      SumOnlyReadsKeys(c.keys, r.items, c.items, TotalOf);
    }
  }

  lemma OneMoreUnit(q: int, price: int)
    ensures (q + 1) * price == q * price + price
  {
  }

  /** Scanning one product adds exactly one unit to the cart. */
  lemma QuantityAdd(c: Cart, b: string, p: Product)
    requires WellFormed(c)
    ensures Quantity(Add(c, b, p)) == Quantity(c) + 1
  {
    var r := Add(c, b, p);
    if b in c.items {
      assert r.items == c.items[b := r.items[b]];
      SumUpdate(c.keys, c.items, b, r.items[b], QtyOf);
    } else {
      var n := |r.keys| - 1;
      assert r.keys[..n] == c.keys;
      SumOnlyReadsKeys(c.keys, r.items, c.items, QtyOf);
    }
  }

  /** Setting a positive quantity replaces the entry's share of the amount due. */
  lemma TotalSetQuantity(c: Cart, b: string, qty: int)
    requires WellFormed(c) && b in c.items && qty > 0
    ensures Total(SetQuantity(c, b, qty)) == Total(c) - c.items[b].total + qty * c.items[b].price
  {
    var r := SetQuantity(c, b, qty);
    assert r.items == c.items[b := r.items[b]];
    SumUpdate(c.keys, c.items, b, r.items[b], TotalOf);
  }

  /** Removing an entry takes away exactly its line total. */
  lemma TotalRemove(c: Cart, b: string)
    requires WellFormed(c)
    ensures Total(Remove(c, b)) == Total(c) - (if b in c.items then c.items[b].total else 0)
  {
    SumWithout(c.keys, c.items, b, TotalOf);
  }

  /** In a valid cart there are at least as many units as entries. */
  lemma QuantityAtLeastEntries(c: Cart)
    requires Valid(c)
    ensures Quantity(c) >= |c.items|
  {
    SumAtLeastCount(c.keys, c.items, QtyOf);
    DistinctKeysCount(c);
  }

  /** A well-formed cart has one key per entry. */
  lemma {:induction false} DistinctKeysCount(c: Cart)
    requires WellFormed(c)
    ensures |c.keys| == |c.items|
    decreases |c.keys|
  {
    if c.keys == [] {
      assert c.items == map[];
    } else {
      var n := |c.keys| - 1;
      var last := c.keys[n];
      var rest := Cart(c.keys[..n], c.items - {last});
      assert c.keys == rest.keys + [last];
      DistinctKeysCount(rest);
      assert c.items.Keys == rest.items.Keys + {last};
    }
  }
}
