/**
  The cart as GET /cart sends it (jsonify of the scanner's dictionary) and what
  the two cart views make of it: the totals and counts the pages show are the
  server's own totals.
*/
module Wire {
  import opened Wrappers
  import opened CartModel
  import opened Browser
  import OrderPage
  import PosPage

  /** The entries of the JSON object for the given keys, in key order. */
  function Entries(keys: seq<string>, items: map<string, Item>): (r: seq<JsEntry>)
    requires forall k :: k in keys ==> k in items
    ensures |r| == |keys|
    ensures forall i :: 0 <= i < |keys| ==>
      r[i] == JsEntry(keys[i], JsItem(Some(items[keys[i]].name), items[keys[i]].price, items[keys[i]].qty, Some(items[keys[i]].total)))
  {
    if keys == [] then []
    else
      var k := keys[|keys| - 1];
      var it := items[k];
      Entries(keys[..|keys| - 1], items) + [JsEntry(k, JsItem(Some(it.name), it.price, it.qty, Some(it.total)))]
  }

  /** The JSON of a cart. */
  function ToJson(c: Cart): (r: seq<JsEntry>)
    requires WellFormed(c)
    ensures |r| == |c.items|
  {
    DistinctKeysCount(c);
    Entries(c.keys, c.items)
  }

  lemma {:induction false} EntriesShownTotal(keys: seq<string>, items: map<string, Item>)
    requires forall k :: k in keys ==> k in items
    ensures OrderPage.ShownTotal(Entries(keys, items)) == Sum(keys, items, TotalOf)
    decreases |keys|
  {
    if keys != [] {
      var e := Entries(keys, items);
      assert e[..|e| - 1] == Entries(keys[..|keys| - 1], items);
      EntriesShownTotal(keys[..|keys| - 1], items);
    }
  }

  lemma {:induction false} EntriesCartSum(keys: seq<string>, items: map<string, Item>)
    requires forall k :: k in keys ==> k in items
    ensures PosPage.CartSum(Entries(keys, items)) == Some(Sum(keys, items, TotalOf))
    decreases |keys|
  {
    if keys != [] {
      var e := Entries(keys, items);
      assert e[..|e| - 1] == Entries(keys[..|keys| - 1], items);
      EntriesCartSum(keys[..|keys| - 1], items);
    }
  }

  lemma {:induction false} EntriesCartCount(keys: seq<string>, items: map<string, Item>)
    requires forall k :: k in keys ==> k in items
    ensures PosPage.CartCount(Entries(keys, items)) == Sum(keys, items, QtyOf)
    decreases |keys|
  {
    if keys != [] {
      var e := Entries(keys, items);
      assert e[..|e| - 1] == Entries(keys[..|keys| - 1], items);
      EntriesCartCount(keys[..|keys| - 1], items);
    }
  }

  /**
    Both cart views agree with the server: one row per cart key in insertion
    order, the shown total is the cart total, and the item count is the number
    of units.
  */
  lemma CartViewsAgree(c: Cart)
    requires WellFormed(c)
    ensures Barcodes(ToJson(c)) == c.keys
    ensures OrderPage.ShownTotal(ToJson(c)) == Total(c)
    ensures PosPage.CartSum(ToJson(c)) == Some(Total(c))
    ensures PosPage.CartCount(ToJson(c)) == Quantity(c)
  {
    EntriesShownTotal(c.keys, c.items);
    EntriesCartSum(c.keys, c.items);
    EntriesCartCount(c.keys, c.items);
  }
}
