/**
  The cart table's lookups and deletions (`SELECT ... WHERE`, `DELETE ... WHERE`)
  and the `GET /api/cart/:userId` join, as functions over the `cart_items` rows.
 */
module Cart {
  import opened Base
  import opened Seqs
  import opened Schema

  /** `SELECT * FROM cart_items WHERE user_id = ? AND product_id = ?`: the row's position. */
  function FindPair(items: seq<CartItem>, userId: string, productId: string): (r: Option<nat>)
    ensures r.Some? ==> r.value < |items| && items[r.value].userId == userId && items[r.value].productId == productId
    ensures r.None? <==> forall c :: c in items ==> c.userId != userId || c.productId != productId
  {
    IndexWhere(items, (c: CartItem) => c.userId == userId && c.productId == productId)
  }

  /** The position of the row whose `id` is `itemId`. */
  function FindItem(items: seq<CartItem>, itemId: string): (r: Option<nat>)
    ensures r.Some? ==> r.value < |items| && items[r.value].id == itemId
    ensures r.None? <==> forall c :: c in items ==> c.id != itemId
  {
    IndexWhere(items, (c: CartItem) => c.id == itemId)
  }

  /** `DELETE FROM cart_items WHERE id = ?`. */
  function WithoutItem(items: seq<CartItem>, itemId: string): (r: seq<CartItem>)
    ensures forall c :: c in r <==> c in items && c.id != itemId
  {
    Filter(items, (c: CartItem) => c.id != itemId)
  }

  /** `DELETE FROM cart_items WHERE user_id = ?`. */
  function WithoutUser(items: seq<CartItem>, userId: string): (r: seq<CartItem>)
    ensures forall c :: c in r <==> c in items && c.userId != userId
  {
    Filter(items, (c: CartItem) => c.userId != userId)
  }

  /**
    Deleting by id removes exactly the one row with that id and keeps every
    other row in place; an unknown id changes nothing.
   */
  lemma WithoutItemExact(items: seq<CartItem>, itemId: string)
    requires DistinctBy(items, CartKey)
    ensures FindItem(items, itemId).None? ==> WithoutItem(items, itemId) == items
    ensures FindItem(items, itemId).Some? ==>
              var i := FindItem(items, itemId).value;
              WithoutItem(items, itemId) == items[..i] + items[i + 1..]
              && |WithoutItem(items, itemId)| == |items| - 1
  {
    var keep := (c: CartItem) => c.id != itemId;
    match FindItem(items, itemId)
    case None =>
      FilterKeepsAll(items, keep);
    case Some(i) =>
      forall j | 0 <= j < |items| ensures keep(items[j]) <==> j != i {
        if j != i {
          assert CartKey(items[j]) != CartKey(items[i]);
        }
      }
      FilterDropsOne(items, keep, i);
  }

  /** Both deletions keep every cart constraint. */
  lemma DeletionsKeepCartValid(items: seq<CartItem>, users: seq<UserRow>, products: seq<Product>, itemId: string, userId: string)
    requires CartValid(items, users, products)
    ensures CartValid(WithoutItem(items, itemId), users, products)
    ensures CartValid(WithoutUser(items, userId), users, products)
  {
    var dropItem := (c: CartItem) => c.id != itemId;
    FilterDistinct(items, dropItem, CartKey);
    FilterDistinct(items, dropItem, CartPair);
    var dropUser := (c: CartItem) => c.userId != userId;
    FilterDistinct(items, dropUser, CartKey);
    FilterDistinct(items, dropUser, CartPair);
  }

  /** The `product` object attached to each cart line. */
  datatype ProductSummary = ProductSummary(id: string, name: string, price: int, imageUrl: Option<string>, stockQuantity: int)

  /** One row of `GET /api/cart/:userId`: the cart row and its product. */
  datatype CartLine = CartLine(item: CartItem, product: ProductSummary)

  function SummaryOf(p: Product): ProductSummary {
    ProductSummary(p.id, p.name, p.price, p.imageUrl, p.stockQuantity)
  }

  /** The cart rows behind a list of cart lines. */
  function Items(lines: seq<CartLine>): (r: seq<CartItem>)
    ensures |r| == |lines|
    ensures forall i :: 0 <= i < |lines| ==> r[i] == lines[i].item
  {
    if |lines| == 0 then [] else [lines[0].item] + Items(lines[1..])
  }

  /** A row the join returns for `userId`: one of that user's rows whose product exists. */
  predicate Joined(products: seq<Product>, userId: string, c: CartItem) {
    c.userId == userId && HasProduct(products, c.productId)
  }

  /**
    `GET /api/cart/:userId`: the user's rows joined (inner join) with their
    products, in table order.
   */
  function CartLines(items: seq<CartItem>, products: seq<Product>, userId: string): (r: seq<CartLine>)
    ensures |r| <= |items|
    ensures forall l :: l in r ==>
              && l.item in items && l.item.userId == userId
              && exists p :: p in products && p.id == l.item.productId && l.product == SummaryOf(p)
    ensures forall c :: c in items && c.userId == userId && HasProduct(products, c.productId) ==>
              exists l :: l in r && l.item == c
  {
    if |items| == 0 then []
    else
      var c := items[0];
      var rest := CartLines(items[1..], products, userId);
      assert forall x :: x in items <==> x == c || x in items[1..] by {
        assert items == [c] + items[1..];
      }
      if c.userId != userId then rest
      else match IndexWhere(products, (p: Product) => p.id == c.productId)
        case None => rest
        case Some(k) =>
          var line := CartLine(c, SummaryOf(products[k]));
          assert products[k] in products;
          [line] + rest
  }

  /** The join returns each of the user's rows with an existing product exactly as often as it is stored, and no other row. */
  lemma {:induction false} CartLinesMultiset(items: seq<CartItem>, products: seq<Product>, userId: string)
    ensures forall c :: multiset(Items(CartLines(items, products, userId)))[c]
                     == if Joined(products, userId, c) then multiset(items)[c] else 0
  {
    if |items| > 0 {
      var c := items[0];
      var rest := CartLines(items[1..], products, userId);
      CartLinesMultiset(items[1..], products, userId);
      assert multiset(items) == multiset{c} + multiset(items[1..]) by {
        assert items == [c] + items[1..];
      }
      if c.userId == userId {
        match IndexWhere(products, (p: Product) => p.id == c.productId)
        case None =>
          assert !HasProduct(products, c.productId);
        case Some(k) =>
          var line := CartLine(c, SummaryOf(products[k]));
          assert CartLines(items, products, userId) == [line] + rest;
          assert HasProduct(products, c.productId) by {
            assert products[k] in products;
          }
          assert Items([line] + rest) == [c] + Items(rest) by {
            assert ([line] + rest)[1..] == rest;
          }
      }
    }
  }

  /** A user's cart shows exactly that user's rows when every row's product exists. */
  lemma CartLinesExact(items: seq<CartItem>, users: seq<UserRow>, products: seq<Product>, userId: string)
    requires CartValid(items, users, products)
    ensures forall c :: c in items && c.userId == userId <==> exists l :: l in CartLines(items, products, userId) && l.item == c
  {
    forall c | c in items && c.userId == userId
      ensures exists l :: l in CartLines(items, products, userId) && l.item == c
    {
      assert CartRowValid(c, users, products);
      assert HasProduct(products, c.productId);
      var r := CartLines(items, products, userId);
      assert exists l :: l in r && l.item == c;
    }
  }
}
