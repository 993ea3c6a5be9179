/**
 The customer dashboard's multi-restaurant cart: a table from restaurant ID to
 the list of entries the customer has ticked on that restaurant's menu. The
 cart survives switching between menus; each tick or untick of a menu checkbox
 updates one restaurant's bucket in place and re-renders the running total.
 */
module ShoppingCart {
  import opened Seqs

  /** A restaurant ID as the cart keys it (the dashboard stringifies every ID). */
  type RestaurantId = string

  /**
   A price as the dashboard holds it after `parseFloat`: a number of paise, or
   the not-a-number value that a malformed price string parses to.
   */
  datatype Price = Amount(paise: int) | NotANumber

  /** One cart entry: `{ id, name, price, restaurantName }`. */
  datatype Item = Item(id: string, name: string, price: Price, restaurantName: string)

  type CartMap = map<RestaurantId, seq<Item>>

  /** What an entry adds to the total: `Number(price) || 0`, so a non-number adds nothing. */
  function PriceValue(p: Price): int
  {
    match p
    case Amount(n) => n
    case NotANumber => 0
  }

  // ---------------------------------------------------------------------------
  // Looking entries up by item ID
  // ---------------------------------------------------------------------------

  /** `bucket.some(i => i.id === id)`. */
  function HasId(bucket: seq<Item>, id: string): (b: bool)
    ensures b <==> exists i :: 0 <= i < |bucket| && bucket[i].id == id
  {
    if bucket == [] then false
    else bucket[0].id == id || HasId(bucket[1..], id)
  }

  /** The tests `i.id !== id` and `i.id === id`, named so that every use is the same function. */
  function OtherId(id: string): Item -> bool
  {
    (e: Item) => e.id != id
  }

  function SameId(id: string): Item -> bool
  {
    (e: Item) => e.id == id
  }

  /** `bucket.filter(i => i.id !== id)`: every other entry, in order. */
  function WithoutId(bucket: seq<Item>, id: string): (r: seq<Item>)
    ensures forall e :: e in r <==> e in bucket && e.id != id
    ensures !HasId(r, id)
  {
    Filter(bucket, OtherId(id))
  }

  /** The entries of `bucket` whose ID is `id`: what untoggling removes. */
  function WithId(bucket: seq<Item>, id: string): (r: seq<Item>)
    ensures forall e :: e in r <==> e in bucket && e.id == id
  {
    Filter(bucket, SameId(id))
  }

  /** The bucket a restaurant has in the cart, empty when it has none. */
  function BucketOf(cart: CartMap, restID: RestaurantId): seq<Item>
  {
    if restID in cart then cart[restID] else []
  }

  /** No two entries of a bucket share an item ID. */
  ghost predicate DistinctIds(bucket: seq<Item>)
  {
    forall i, j :: 0 <= i < j < |bucket| ==> bucket[i].id != bucket[j].id
  }

  /** The cart invariant: every bucket is non-empty and free of duplicate IDs. */
  ghost predicate WellFormed(cart: CartMap)
  {
    forall r :: r in cart ==> |cart[r]| > 0 && DistinctIds(cart[r])
  }

  // ---------------------------------------------------------------------------
  // Totals
  // ---------------------------------------------------------------------------

  /** A price that parsed to a number. */
  predicate IsNumeric(e: Item)
  {
    e.price.Amount?
  }

  /**
   The sum of the entries' price values, added up front to back. Without
   negative prices the sum is never negative, and it bounds every entry's value.
   */
  function BucketTotal(bucket: seq<Item>): (r: int)
    ensures (forall i :: 0 <= i < |bucket| ==> PriceValue(bucket[i].price) >= 0) ==>
              r >= 0 && forall i :: 0 <= i < |bucket| ==> PriceValue(bucket[i].price) <= r
  {
    if bucket == [] then 0
    else BucketTotal(bucket[..|bucket| - 1]) + PriceValue(bucket[|bucket| - 1].price)
  }

  /**
   The sum of the price values of every entry in every bucket: 0 for an empty
   cart, and without negative prices never negative and at least each bucket's sum.
   */
  ghost function Total(cart: CartMap): (t: int)
    ensures cart == map[] ==> t == 0
    ensures (forall r, i :: r in cart && 0 <= i < |cart[r]| ==> PriceValue(cart[r][i].price) >= 0) ==>
              t >= 0 && forall r :: r in cart ==> BucketTotal(cart[r]) <= t
    decreases |cart|
  {
    if cart == map[] then 0
    else
      var r :| r in cart;
      var rest := cart - {r};
      assert forall k :: k in rest ==> k in cart && rest[k] == cart[k];
      BucketTotal(cart[r]) + Total(rest)
  }

  lemma {:induction false} BucketTotalAppend(a: seq<Item>, b: seq<Item>)
    ensures BucketTotal(a + b) == BucketTotal(a) + BucketTotal(b)
    decreases |b|
  {
    if b == [] {
      assert a + b == a;
    } else {
      var n := |b| - 1;
      assert (a + b)[..|a + b| - 1] == a + b[..n];
      assert (a + b)[|a + b| - 1] == b[n];
      BucketTotalAppend(a, b[..n]);
    }
  }

  /** Entries whose price is not a number never change a total: `Number(i.price) || 0`. */
  lemma {:induction false} NonNumericIgnored(bucket: seq<Item>)
    ensures BucketTotal(bucket) == BucketTotal(Filter(bucket, IsNumeric))
    decreases |bucket|
  {
    if bucket != [] {
      var n := |bucket| - 1;
      var init, last := bucket[..n], [bucket[n]];
      assert bucket == init + last;
      NonNumericIgnored(init);
      FilterAppend(init, last, IsNumeric);
      BucketTotalAppend(Filter(init, IsNumeric), Filter(last, IsNumeric));
      assert last[..0] == [];
      if !IsNumeric(bucket[n]) {
        assert Filter(last, IsNumeric) == [];
      } else {
        assert Filter(last, IsNumeric) == last;
      }
    }
  }

  /** Splitting a bucket by item ID splits its total: kept entries plus removed ones. */
  lemma {:induction false} BucketTotalSplit(bucket: seq<Item>, id: string)
    ensures BucketTotal(bucket) == BucketTotal(WithoutId(bucket, id)) + BucketTotal(WithId(bucket, id))
  {
    if bucket != [] {
      var head, tail := [bucket[0]], bucket[1..];
      assert bucket == head + tail;
      BucketTotalSplit(tail, id);
      BucketTotalAppend(head, tail);
      assert BucketTotal(head) == PriceValue(bucket[0].price) by {
        assert head[..0] == [];
      }
      if bucket[0].id == id {
        assert WithId(bucket, id) == head + WithId(tail, id);
        assert WithoutId(bucket, id) == WithoutId(tail, id);
        BucketTotalAppend(head, WithId(tail, id));
      } else {
        assert WithoutId(bucket, id) == head + WithoutId(tail, id);
        assert WithId(bucket, id) == WithId(tail, id);
        BucketTotalAppend(head, WithoutId(tail, id));
      }
    }
  }

  /** The total does not depend on which bucket is added up first. */
  lemma {:induction false} TotalRemove(cart: CartMap, r: RestaurantId)
    requires r in cart
    ensures Total(cart) == BucketTotal(cart[r]) + Total(cart - {r})
    decreases |cart|
  {
    var s :| s in cart && Total(cart) == BucketTotal(cart[s]) + Total(cart - {s});
    if s != r {
      assert cart - {s} - {r} == cart - {r} - {s};
      TotalRemove(cart - {s}, r);
      TotalRemove(cart - {r}, s);
    }
  }

  // ---------------------------------------------------------------------------
  // Toggling a checkbox
  // ---------------------------------------------------------------------------

  /**
   The cart after a menu checkbox for `item` of restaurant `restID` is set to
   `checked`: a missing bucket is first created empty; ticking appends the entry
   unless an entry with its ID is already there; unticking drops every entry with
   its ID and deletes the bucket if that leaves it empty.
   */
  function Toggled(cart: CartMap, restID: RestaurantId, item: Item, checked: bool): (r: CartMap)
    ensures r - {restID} == cart - {restID}
    ensures restID in r ==> |r[restID]| > 0
  {
    var c := if restID in cart then cart else cart[restID := []];
    if checked then
      if HasId(c[restID], item.id) then c
      else c[restID := c[restID] + [item]]
    else
      var kept := WithoutId(c[restID], item.id);
      if |kept| == 0 then c - {restID} else c[restID := kept]
  }

  /** Ticking appends a new entry at the end of the bucket and keeps the rest in order. */
  lemma ToggleOnAppends(cart: CartMap, restID: RestaurantId, item: Item)
    requires !HasId(BucketOf(cart, restID), item.id)
    ensures Toggled(cart, restID, item, true) == cart[restID := BucketOf(cart, restID) + [item]]
  {
  }

  /** Ticking an entry whose ID is already in the bucket changes nothing. */
  lemma ToggleOnPresent(cart: CartMap, restID: RestaurantId, item: Item)
    requires HasId(BucketOf(cart, restID), item.id)
    ensures Toggled(cart, restID, item, true) == cart
  {
  }

  /** Unticking leaves exactly the bucket's other entries, or no bucket if none remain. */
  lemma ToggleOffRemoves(cart: CartMap, restID: RestaurantId, item: Item)
    ensures var r := Toggled(cart, restID, item, false);
            && (restID in r <==> WithoutId(BucketOf(cart, restID), item.id) != [])
            && BucketOf(r, restID) == WithoutId(BucketOf(cart, restID), item.id)
  {
  }

  lemma {:induction false} DistinctIdsAppend(bucket: seq<Item>, item: Item)
    requires DistinctIds(bucket) && !HasId(bucket, item.id)
    ensures DistinctIds(bucket + [item])
  {
  }

  lemma {:induction false} DistinctIdsFilter(bucket: seq<Item>, keep: Item -> bool)
    requires DistinctIds(bucket)
    ensures DistinctIds(Filter(bucket, keep))
  {
    if bucket != [] {
      var tail := bucket[1..];
      assert DistinctIds(tail) by {
        forall i, j | 0 <= i < j < |tail| ensures tail[i].id != tail[j].id {
          assert tail[i] == bucket[i + 1] && tail[j] == bucket[j + 1];
        }
      }
      DistinctIdsFilter(tail, keep);
      if keep(bucket[0]) {
        var s := [bucket[0]] + Filter(tail, keep);
        forall i, j | 0 <= i < j < |s| ensures s[i].id != s[j].id {
          if i == 0 {
            assert s[j] in Filter(tail, keep);
            assert s[j] in tail;
            var k :| 0 <= k < |tail| && tail[k] == s[j];
            assert bucket[k + 1] == s[j];
          }
        }
      }
    }
  }

  /** A toggle keeps every bucket non-empty and free of duplicate IDs. */
  lemma ToggleKeepsWellFormed(cart: CartMap, restID: RestaurantId, item: Item, checked: bool)
    requires WellFormed(cart)
    ensures WellFormed(Toggled(cart, restID, item, checked))
  {
    var before := BucketOf(cart, restID);
    assert DistinctIds(before);
    var r := Toggled(cart, restID, item, checked);
    if restID in r {
      if checked {
        if !HasId(before, item.id) {
          DistinctIdsAppend(before, item);
        }
      } else {
        DistinctIdsFilter(before, OtherId(item.id));
      }
    }
    forall k | k in r ensures |r[k]| > 0 && DistinctIds(r[k]) {
      if k != restID {
        assert k in r - {restID};
      }
    }
  }

  /**
   A restaurant's menu checkbox for an item starts ticked exactly when that
   restaurant's bucket holds an entry with the item's ID.
   */
  function InitiallyChecked(cart: CartMap, restID: RestaurantId, itemID: string): (b: bool)
    ensures b <==> restID in cart && exists e :: e in cart[restID] && e.id == itemID
  {
    restID in cart && HasId(cart[restID], itemID)
  }

  /** After a toggle, re-rendering the menu shows the checkbox in the state the customer set. */
  lemma ToggleSyncsCheckbox(cart: CartMap, restID: RestaurantId, item: Item, checked: bool)
    ensures InitiallyChecked(Toggled(cart, restID, item, checked), restID, item.id) == checked
  {
  }

  /** Ticking a new item and unticking it again restores the cart exactly. */
  lemma ToggleOnOffRoundTrip(cart: CartMap, restID: RestaurantId, item: Item)
    requires WellFormed(cart) && !InitiallyChecked(cart, restID, item.id)
    ensures Toggled(Toggled(cart, restID, item, true), restID, item, false) == cart
  {
    var before := BucketOf(cart, restID);
    var keep := OtherId(item.id);
    FilterAppend(before, [item], keep);
    assert Filter([item], keep) == [];
    FilterKeepsAll(before, keep);
    assert before + [] == before;
    if restID !in cart {
      assert cart[restID := []] - {restID} == cart;
    } else {
      assert cart[restID := before] == cart;
    }
  }

  /** Setting a checkbox to the state it already has changes nothing. */
  lemma ToggleIdempotent(cart: CartMap, restID: RestaurantId, item: Item, checked: bool)
    ensures var once := Toggled(cart, restID, item, checked);
            Toggled(once, restID, item, checked) == once
  {
    var once := Toggled(cart, restID, item, checked);
    ToggleSyncsCheckbox(cart, restID, item, checked);
    if !checked {
      if restID in once {
        var kept := once[restID];
        forall i | 0 <= i < |kept| ensures OtherId(item.id)(kept[i]) {
          assert kept[i] in kept;
        }
        FilterKeepsAll(kept, OtherId(item.id));
        assert once[restID := kept] == once;
      } else {
        assert once[restID := []] - {restID} == once;
      }
    }
  }

  /** In a well-formed cart, setting a checkbox to the state it already shows changes nothing. */
  lemma ToggleToCurrentState(cart: CartMap, restID: RestaurantId, item: Item, checked: bool)
    requires WellFormed(cart) && InitiallyChecked(cart, restID, item.id) == checked
    ensures Toggled(cart, restID, item, checked) == cart
  {
    if !checked && restID in cart {
      var bucket := cart[restID];
      forall i | 0 <= i < |bucket| ensures OtherId(item.id)(bucket[i]) {
        assert bucket[i] in bucket;
      }
      FilterKeepsAll(bucket, OtherId(item.id));
      assert cart[restID := bucket] == cart;
    } else if !checked {
      assert cart[restID := []] - {restID} == cart;
    }
  }

  /** Toggles on two different restaurants do not interfere: either order gives the same cart. */
  lemma TogglesCommute(cart: CartMap, r1: RestaurantId, i1: Item, c1: bool,
                       r2: RestaurantId, i2: Item, c2: bool)
    requires r1 != r2
    ensures Toggled(Toggled(cart, r1, i1, c1), r2, i2, c2)
         == Toggled(Toggled(cart, r2, i2, c2), r1, i1, c1)
  {
    var a := Toggled(Toggled(cart, r1, i1, c1), r2, i2, c2);
    var b := Toggled(Toggled(cart, r2, i2, c2), r1, i1, c1);
    forall k ensures (k in a <==> k in b) && (k in a ==> a[k] == b[k]) {
      if k != r1 && k != r2 {
        assert k in a <==> k in a - {r2};
        assert k in b <==> k in b - {r1};
      } else if k == r1 {
        assert k in a <==> k in a - {r2};
      } else {
        assert k in b <==> k in b - {r1};
      }
    }
  }

  /** The total is what lies outside one restaurant's bucket plus that bucket's total. */
  lemma TotalOutside(cart: CartMap, restID: RestaurantId)
    ensures Total(cart) == Total(cart - {restID}) + BucketTotal(BucketOf(cart, restID))
  {
    if restID in cart {
      TotalRemove(cart, restID);
    } else {
      assert cart - {restID} == cart;
    }
  }

  /** Ticking a new item adds its price value to the total; ticking a present one adds nothing. */
  lemma ToggleOnTotal(cart: CartMap, restID: RestaurantId, item: Item)
    ensures Total(Toggled(cart, restID, item, true))
         == Total(cart) + (if HasId(BucketOf(cart, restID), item.id) then 0 else PriceValue(item.price))
  {
    var before := BucketOf(cart, restID);
    var r := Toggled(cart, restID, item, true);
    TotalOutside(cart, restID);
    TotalOutside(r, restID);
    if !HasId(before, item.id) {
      assert BucketOf(r, restID) == before + [item];
      BucketTotalAppend(before, [item]);
      assert [item][..0] == [];
    } else {
      assert r == cart;
    }
  }

  /** Unticking subtracts from the total the entries that carried the item's ID. */
  lemma ToggleOffTotal(cart: CartMap, restID: RestaurantId, item: Item)
    ensures Total(Toggled(cart, restID, item, false))
         == Total(cart) - BucketTotal(WithId(BucketOf(cart, restID), item.id))
  {
    var before := BucketOf(cart, restID);
    var r := Toggled(cart, restID, item, false);
    TotalOutside(cart, restID);
    TotalOutside(r, restID);
    assert BucketOf(r, restID) == WithoutId(before, item.id);
    BucketTotalSplit(before, item.id);
  }

  /** With distinct IDs, the entries carrying an item's ID are that one entry, or none. */
  lemma {:induction false} WithIdDistinct(bucket: seq<Item>, id: string, k: nat)
    requires DistinctIds(bucket) && k < |bucket| && bucket[k].id == id
    ensures WithId(bucket, id) == [bucket[k]]
  {
    var keep := SameId(id);
    var head, rest := bucket[..k], bucket[k + 1..];
    assert bucket == head + [bucket[k]] + rest;
    FilterAppend(head + [bucket[k]], rest, keep);
    FilterAppend(head, [bucket[k]], keep);
    forall i | 0 <= i < |head| ensures !keep(head[i]) {
      assert head[i] == bucket[i];
    }
    FilterKeepsNone(head, keep);
    forall i | 0 <= i < |rest| ensures !keep(rest[i]) {
      assert rest[i] == bucket[k + 1 + i];
    }
    FilterKeepsNone(rest, keep);
    assert Filter([bucket[k]], keep) == [bucket[k]];
  }

  /**
   In a well-formed cart, unticking an item takes exactly its one entry's price
   value off the total, and unticking an item not in the cart changes nothing.
   */
  lemma ToggleOffTotalWellFormed(cart: CartMap, restID: RestaurantId, item: Item)
    requires WellFormed(cart)
    ensures var before := BucketOf(cart, restID);
            var after := Total(Toggled(cart, restID, item, false));
            && (!HasId(before, item.id) ==> after == Total(cart))
            && (forall k :: 0 <= k < |before| && before[k].id == item.id ==>
                  after == Total(cart) - PriceValue(before[k].price))
  {
    var before := BucketOf(cart, restID);
    ToggleOffTotal(cart, restID, item);
    if !HasId(before, item.id) {
      forall i | 0 <= i < |before| ensures !SameId(item.id)(before[i]) {
      }
      FilterKeepsNone(before, SameId(item.id));
    }
    forall k | 0 <= k < |before| && before[k].id == item.id
      ensures Total(Toggled(cart, restID, item, false)) == Total(cart) - PriceValue(before[k].price)
    {
      WithIdDistinct(before, item.id, k);
      assert [before[k]][..0] == [];
    }
  }

  // ---------------------------------------------------------------------------
  // The cart object
  // ---------------------------------------------------------------------------

  /** The page-level `cart` object, with the mutators that the checkboxes and the clear action call. */
  class Cart {
    var buckets: CartMap

    ghost predicate Valid()
      reads this
    {
      WellFormed(buckets)
    }

    /** The page starts with `cart = {}`. */
    constructor ()
      ensures Valid() && buckets == map[]
    {
      buckets := map[];
    }

    /**
     `renderCart`'s total: an empty cart shows 0; otherwise every non-empty
     bucket's entries are added up. Buckets are visited in an unspecified order.
     */
    method RenderTotal() returns (total: int)
      ensures total == Total(buckets)
      ensures buckets == map[] ==> total == 0
    {
      total := 0;
      if |buckets| == 0 {
        return;
      }
      var rest := buckets;
      while rest != map[]
        invariant total + Total(rest) == Total(buckets)
        decreases |rest|
      {
        var restID :| restID in rest;
        var items := rest[restID];
        TotalRemove(rest, restID);
        if |items| != 0 {
          var i := 0;
          var start := total;
          while i < |items|
            invariant 0 <= i <= |items|
            invariant total == start + BucketTotal(items[..i])
          {
            assert items[..i + 1][..i] == items[..i];
            total := total + PriceValue(items[i].price);
            i := i + 1;
          }
          assert items[..i] == items;
        }
        rest := rest - {restID};
      }
    }

    /**
     `toggleCartForCheckbox`: ticks or unticks `item` in restaurant `restID`'s
     bucket and returns the re-rendered total.
     */
    method Toggle(restID: RestaurantId, item: Item, checked: bool) returns (total: int)
      requires Valid()
      modifies this
      ensures Valid()
      ensures buckets == Toggled(old(buckets), restID, item, checked)
      ensures total == Total(buckets)
    {
      ToggleKeepsWellFormed(buckets, restID, item, checked);
      if restID !in buckets {
        buckets := buckets[restID := []];
      }
      if checked {
        if !HasId(buckets[restID], item.id) {
          buckets := buckets[restID := buckets[restID] + [item]];
        }
      } else {
        buckets := buckets[restID := WithoutId(buckets[restID], item.id)];
        if |buckets[restID]| == 0 {
          buckets := buckets - {restID};
        }
      }
      total := RenderTotal();
    }

    /** `clearCartAndUISelections`: empties the cart and returns the re-rendered total. */
    method Clear() returns (total: int)
      modifies this
      ensures Valid() && buckets == map[]
      ensures total == 0
    {
      buckets := map[];
      total := RenderTotal();
    }
  }
}
