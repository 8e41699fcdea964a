/** The cart half of `SampleLicensingMarketService`: the cart lines, the
    derived item count, and the operations that change them. */
module Cart {
  import opened Seqs
  import opened Catalog

  /** A cart line: a product and its quantity. The untyped `options` bag is
      not modelled. */
  datatype CartItem = CartItem(product: Product, quantity: int)

  /** At most one line per product id. */
  ghost predicate UniqueIds(cart: seq<CartItem>)
  {
    forall i, j :: 0 <= i < j < |cart| ==> cart[i].product.id != cart[j].product.id
  }

  /** The sum of all quantities, taken from the front as `updateCount` does. */
  function Sum(cart: seq<CartItem>): (total: int)
  {
    if cart == [] then 0 else Sum(cart[..|cart| - 1]) + cart[|cart| - 1].quantity
  }

  lemma {:induction false} SumAppend(a: seq<CartItem>, b: seq<CartItem>)
    ensures Sum(a + b) == Sum(a) + Sum(b)
  {
    if b == [] {
      assert a + b == a;
    } else {
      var b' := b[..|b| - 1];
      assert (a + b)[..|a + b| - 1] == a + b';
      SumAppend(a, b');
    }
  }

  /** Replacing one line changes the sum by the difference of quantities. */
  lemma SumUpdate(cart: seq<CartItem>, i: int, line: CartItem)
    requires 0 <= i < |cart|
    ensures Sum(cart[i := line]) == Sum(cart) - cart[i].quantity + line.quantity
  {
    var front, back := cart[..i], cart[i + 1..];
    assert cart == front + [cart[i]] + back;
    assert cart[i := line] == front + [line] + back;
    SumAppend(front + [cart[i]], back);
    SumAppend(front, [cart[i]]);
    SumAppend(front + [line], back);
    SumAppend(front, [line]);
    assert [line][..0] == [] && [cart[i]][..0] == [];
  }

  /** The index `addToCart`'s `forEach` leaves behind: the LAST line whose
      product id is `id`, or -1. Defined from the back, so that scanning one
      more line extends the answer for the shorter prefix. */
  function LastIndexWithId(cart: seq<CartItem>, id: string): (r: int)
    ensures -1 <= r < |cart|
    ensures r == -1 <==> forall j :: 0 <= j < |cart| ==> cart[j].product.id != id
    ensures r != -1 ==> cart[r].product.id == id &&
                        forall j :: r < j < |cart| ==> cart[j].product.id != id
  {
    if cart == [] then -1
    else if cart[|cart| - 1].product.id == id then |cart| - 1
    else LastIndexWithId(cart[..|cart| - 1], id)
  }

  /** The cart `addToCart` produces: the matching line's quantity grows by
      the incoming quantity, or, with no matching line, the item is
      appended. */
  function Merged(cart: seq<CartItem>, item: CartItem): (merged: seq<CartItem>)
  {
    var i := LastIndexWithId(cart, item.product.id);
    if i == -1 then cart + [item]
    else cart[i := cart[i].(quantity := cart[i].quantity + item.quantity)]
  }

  /** Adding an item whose id is already in the cart keeps the length, adds
      exactly the incoming quantity to that line, and leaves the line's
      product and every other line as they were. */
  lemma MergedExisting(cart: seq<CartItem>, item: CartItem, k: int)
    requires UniqueIds(cart)
    requires 0 <= k < |cart| && cart[k].product.id == item.product.id
    ensures |Merged(cart, item)| == |cart|
    ensures Merged(cart, item)[k] == cart[k].(quantity := cart[k].quantity + item.quantity)
    ensures forall j :: 0 <= j < |cart| && j != k ==> Merged(cart, item)[j] == cart[j]
  {
  }

  /** Adding an item whose id is not in the cart appends it at the end. */
  lemma MergedNew(cart: seq<CartItem>, item: CartItem)
    requires forall j :: 0 <= j < |cart| ==> cart[j].product.id != item.product.id
    ensures Merged(cart, item) == cart + [item]
    ensures |Merged(cart, item)| == |cart| + 1
  {
  }

  /** `addToCart` keeps at most one line per id. */
  lemma MergedKeepsUnique(cart: seq<CartItem>, item: CartItem)
    requires UniqueIds(cart)
    ensures UniqueIds(Merged(cart, item))
  {
  }

  /** After `addToCart` the cart has a line for the item's product. */
  lemma MergedHasItem(cart: seq<CartItem>, item: CartItem)
    ensures exists k :: 0 <= k < |Merged(cart, item)| &&
                        Merged(cart, item)[k].product.id == item.product.id
  {
    var m := Merged(cart, item);
    var i := LastIndexWithId(cart, item.product.id);
    if i == -1 {
      assert m[|cart|].product.id == item.product.id;
    } else {
      assert m[i].product.id == item.product.id;
    }
  }

  /** The total quantity grows by exactly the incoming quantity, whether the
      item is merged into a line or appended. */
  lemma MergedSum(cart: seq<CartItem>, item: CartItem)
    ensures Sum(Merged(cart, item)) == Sum(cart) + item.quantity
  {
    var i := LastIndexWithId(cart, item.product.id);
    if i == -1 {
      SumAppend(cart, [item]);
      assert [item][..0] == [];
    } else {
      SumUpdate(cart, i, cart[i].(quantity := cart[i].quantity + item.quantity));
    }
  }

  function OtherId(id: string): (keep: CartItem -> bool)
  {
    (line: CartItem) => line.product.id != id
  }

  /** The cart `removeFromCart` produces: the lines whose id is not `id`. */
  function WithoutId(cart: seq<CartItem>, id: string): (r: seq<CartItem>)
    ensures forall i :: 0 <= i < |r| ==> r[i] in cart && r[i].product.id != id
    ensures forall i :: 0 <= i < |cart| && cart[i].product.id != id ==> cart[i] in r
  {
    Filter(cart, OtherId(id))
  }

  /** Removal is decided line by line: the result for a concatenation is the
      concatenation of the results, and a single line is kept exactly when
      its id differs. Together these fix the result completely, repeated
      lines included. */
  lemma WithoutIdPointwise(a: seq<CartItem>, b: seq<CartItem>, x: CartItem, id: string)
    ensures WithoutId(a + b, id) == WithoutId(a, id) + WithoutId(b, id)
    ensures WithoutId([x], id) == if x.product.id != id then [x] else []
  {
    FilterAppend(a, b, OtherId(id));
    assert [x][1..] == [];
  }

  /** The remaining lines keep their original order. */
  lemma WithoutIdInOrder(cart: seq<CartItem>, id: string)
    ensures IsSubsequence(WithoutId(cart, id), cart)
  {
    FilterIsSubsequence(cart, OtherId(id));
  }

  /** Removing an id that is not in the cart leaves the cart unchanged. */
  lemma WithoutIdAbsent(cart: seq<CartItem>, id: string)
    requires forall j :: 0 <= j < |cart| ==> cart[j].product.id != id
    ensures WithoutId(cart, id) == cart
  {
    FilterKeepsAll(cart, OtherId(id));
  }

  /** Removing twice is the same as removing once. */
  lemma WithoutIdIdempotent(cart: seq<CartItem>, id: string)
    ensures WithoutId(WithoutId(cart, id), id) == WithoutId(cart, id)
  {
    FilterIdempotent(cart, OtherId(id));
  }

  lemma UniqueIdsCons(x: CartItem, rest: seq<CartItem>)
    ensures UniqueIds([x] + rest) <==>
            UniqueIds(rest) && forall j :: 0 <= j < |rest| ==> rest[j].product.id != x.product.id
  {
    var s := [x] + rest;
    if UniqueIds(rest) && forall j :: 0 <= j < |rest| ==> rest[j].product.id != x.product.id {
      forall i, j | 0 <= i < j < |s| ensures s[i].product.id != s[j].product.id {
        assert s[j] == rest[j - 1];
        if i > 0 { assert s[i] == rest[i - 1]; }
      }
    }
    if UniqueIds(s) {
      forall i, j | 0 <= i < j < |rest| ensures rest[i].product.id != rest[j].product.id {
        assert rest[i] == s[i + 1] && rest[j] == s[j + 1];
      }
      forall j | 0 <= j < |rest| ensures rest[j].product.id != x.product.id {
        assert s[0] == x && rest[j] == s[j + 1];
      }
    }
  }

  /** `removeFromCart` keeps at most one line per id. */
  lemma {:induction false} WithoutIdKeepsUnique(cart: seq<CartItem>, id: string)
    requires UniqueIds(cart)
    ensures UniqueIds(WithoutId(cart, id))
  {
    if cart != [] {
      var x, rest := cart[0], cart[1..];
      assert cart == [x] + rest;
      UniqueIdsCons(x, rest);
      WithoutIdKeepsUnique(rest, id);
      var tail := WithoutId(rest, id);
      if x.product.id != id {
        assert WithoutId(cart, id) == [x] + tail;
        forall j | 0 <= j < |tail| ensures tail[j].product.id != x.product.id {
          assert tail[j] in rest;
        }
        UniqueIdsCons(x, tail);
      } else {
        assert WithoutId(cart, id) == tail;
      }
    }
  }

  /** With one line per id, removing the line at `k` lowers the total
      quantity by exactly that line's quantity. */
  lemma {:induction false} WithoutIdSum(cart: seq<CartItem>, id: string, k: int)
    requires UniqueIds(cart)
    requires 0 <= k < |cart| && cart[k].product.id == id
    ensures Sum(WithoutId(cart, id)) == Sum(cart) - cart[k].quantity
  {
    var x, rest := cart[0], cart[1..];
    assert cart == [x] + rest;
    UniqueIdsCons(x, rest);
    SumAppend([x], rest);
    assert [x][..0] == [];
    if k == 0 {
      assert WithoutId(cart, id) == WithoutId(rest, id);
      WithoutIdAbsent(rest, id);
    } else {
      assert rest[k - 1] == cart[k];
      WithoutIdSum(rest, id, k - 1);
      assert WithoutId(cart, id) == [x] + WithoutId(rest, id);
      SumAppend([x], WithoutId(rest, id));
    }
  }

  /** The cart after adding `items` one after another. */
  ghost function AddAll(cart: seq<CartItem>, items: seq<CartItem>): (added: seq<CartItem>)
  {
    if items == [] then cart
    else Merged(AddAll(cart, items[..|items| - 1]), items[|items| - 1])
  }

  /** After any sequence of additions the total quantity is the old total plus
      the sum of the added quantities. */
  lemma {:induction false} AddAllSum(cart: seq<CartItem>, items: seq<CartItem>)
    ensures Sum(AddAll(cart, items)) == Sum(cart) + Sum(items)
  {
    if items != [] {
      AddAllSum(cart, items[..|items| - 1]);
      MergedSum(AddAll(cart, items[..|items| - 1]), items[|items| - 1]);
    }
  }

  /** Adding the same product several times leaves exactly one line for it,
      and the total grows by the sum of the quantities added. */
  lemma {:induction false} AddAllSameProduct(cart: seq<CartItem>, items: seq<CartItem>, id: string)
    requires UniqueIds(cart)
    requires items != []
    requires forall i :: 0 <= i < |items| ==> items[i].product.id == id
    ensures UniqueIds(AddAll(cart, items))
    ensures exists k :: 0 <= k < |AddAll(cart, items)| && AddAll(cart, items)[k].product.id == id
    ensures Sum(AddAll(cart, items)) == Sum(cart) + Sum(items)
  {
    AddAllSum(cart, items);
    var before := AddAll(cart, items[..|items| - 1]);
    AddAllUnique(cart, items[..|items| - 1]);
    MergedKeepsUnique(before, items[|items| - 1]);
    MergedHasItem(before, items[|items| - 1]);
  }

  lemma {:induction false} AddAllUnique(cart: seq<CartItem>, items: seq<CartItem>)
    requires UniqueIds(cart)
    ensures UniqueIds(AddAll(cart, items))
  {
    if items != [] {
      AddAllUnique(cart, items[..|items| - 1]);
      MergedKeepsUnique(AddAll(cart, items[..|items| - 1]), items[|items| - 1]);
    }
  }

  /** The service's cart state. `itemCount` stands for `cartData.itemCount`. */
  class SampleLicensingMarketService {
    var cart: seq<CartItem>
    var itemCount: int

    /** One line per product id, and the count equals the sum of quantities. */
    ghost predicate Valid()
      reads this
    {
      UniqueIds(cart) && itemCount == Sum(cart)
    }

    constructor ()
      ensures Valid()
      ensures cart == [] && itemCount == 0
    {
      cart := [];
      itemCount := 0;
    }

    /** `getCart`: the current cart. */
    method GetCart() returns (r: seq<CartItem>)
      ensures r == cart
    {
      r := cart;
    }

    /** `addToCart`: merge by product id, then recount. */
    method AddToCart(item: CartItem) returns (r: seq<CartItem>)
      modifies this
      ensures cart == Merged(old(cart), item)
      ensures itemCount == Sum(cart) && itemCount == Sum(old(cart)) + item.quantity
      ensures old(Valid()) ==> Valid()
      ensures r == cart
    {
      var index := -1;
      var i := 0;
      while i < |cart|
        invariant 0 <= i <= |cart|
        invariant index == LastIndexWithId(cart[..i], item.product.id)
      {
        assert cart[..i + 1][..i] == cart[..i];
        if cart[i].product.id == item.product.id {
          index := i;
        }
        i := i + 1;
      }
      assert cart[..i] == cart;
      if index != -1 {
        cart := cart[index := cart[index].(quantity := cart[index].quantity + item.quantity)];
      } else {
        cart := cart + [item];
      }
      UpdateCount();
      MergedSum(old(cart), item);
      if old(Valid()) {
        MergedKeepsUnique(old(cart), item);
      }
      r := cart;
    }

    /** `updateCount`: recompute the item count from zero. */
    method UpdateCount()
      modifies this`itemCount
      ensures cart == old(cart)
      ensures itemCount == Sum(cart)
    {
      itemCount := 0;
      var i := 0;
      while i < |cart|
        invariant 0 <= i <= |cart|
        invariant itemCount == Sum(cart[..i])
      {
        assert cart[..i + 1][..i] == cart[..i];
        itemCount := itemCount + cart[i].quantity;
        i := i + 1;
      }
      assert cart[..i] == cart;
    }

    /** `removeFromCart`: drop every line with the item's product id, then
        recount. */
    method RemoveFromCart(item: CartItem) returns (r: seq<CartItem>)
      modifies this
      ensures cart == WithoutId(old(cart), item.product.id)
      ensures itemCount == Sum(cart)
      ensures old(Valid()) ==> Valid()
      ensures r == cart
    {
      cart := WithoutId(cart, item.product.id);
      UpdateCount();
      if old(Valid()) {
        WithoutIdKeepsUnique(old(cart), item.product.id);
      }
      r := cart;
    }
  }
}
