/**
  The read-only catalog routes: `GET /api/products` (approved products, a
  conjunction of optional filters, one of four orders, each row joined with
  its seller's name) and `GET /api/products/:id` (one product, approved or not).
 */
module Catalog {
  import opened Base
  import opened Seqs
  import opened Schema

  /** The query string of `GET /api/products`; prices already parsed to cents. */
  datatype Filters = Filters(
    category: Option<string>,
    search: Option<string>,
    minPrice: Option<int>,
    maxPrice: Option<int>,
    sortBy: Option<string>)

  /** The `seller` object attached to a row. */
  datatype Seller = Seller(fullName: string)

  /** A product row as returned: every column, `seller_name` from the join, and `seller`. */
  datatype ProductView = ProductView(product: Product, sellerName: Option<string>, seller: Option<Seller>)

  /** The `ORDER BY` chosen by `sortBy`. */
  datatype SortOrder = PriceAsc | PriceDesc | RatingDesc | NewestFirst

  /** A query-string value counts as given when it is present and non-empty (JavaScript truthiness). */
  predicate Given(o: Option<string>) {
    o.Some? && o.value != ""
  }

  /** `pattern` occurs in `text` as a contiguous block: `text LIKE '%pattern%'`. */
  predicate ContainsText(text: string, pattern: string)
    decreases |text|
  {
    pattern <= text || (|text| > 0 && ContainsText(text[1..], pattern))
  }

  /** `pattern` occurs in `text` starting at position `i`. */
  predicate OccursAt(text: string, pattern: string, i: int) {
    0 <= i <= |text| - |pattern| && text[i..i + |pattern|] == pattern
  }

  /** The recursive search agrees with the positional definition of a substring. */
  lemma {:induction false} ContainsTextIffOccurs(text: string, pattern: string)
    ensures ContainsText(text, pattern) <==> exists i :: OccursAt(text, pattern, i)
  {
    if pattern <= text {
      assert OccursAt(text, pattern, 0);
    } else if |text| == 0 {
      assert forall i :: !OccursAt(text, pattern, i);
    } else {
      ContainsTextIffOccurs(text[1..], pattern);
      if ContainsText(text[1..], pattern) {
        var i :| OccursAt(text[1..], pattern, i);
        assert text[1..][i..i + |pattern|] == text[i + 1..i + 1 + |pattern|];
        assert OccursAt(text, pattern, i + 1);
      }
      if exists i :: OccursAt(text, pattern, i) {
        var i :| OccursAt(text, pattern, i);
        if i != 0 {
          assert text[1..][i - 1..i - 1 + |pattern|] == text[i..i + |pattern|];
          assert OccursAt(text[1..], pattern, i - 1);
        }
      }
    }
  }

  /** `p.name LIKE ? OR p.description LIKE ?`; a NULL description matches nothing. */
  predicate SearchHit(p: Product, term: string) {
    ContainsText(p.name, term) || (p.description.Some? && ContainsText(p.description.value, term))
  }

  /** The `WHERE` clause: approved, and every filter that was given. */
  predicate Selected(f: Filters, p: Product) {
    && p.isApproved
    && (Given(f.category) ==> p.category == f.category.value)
    && (Given(f.search) ==> SearchHit(p, f.search.value))
    && (f.minPrice.Some? ==> p.price >= f.minPrice.value)
    && (f.maxPrice.Some? ==> p.price <= f.maxPrice.value)
  }

  /** `price_asc`, `price_desc` and `rating` pick their order; `newest`, none or anything else sorts newest first. */
  function OrderOf(sortBy: Option<string>): (o: SortOrder)
    ensures o == PriceAsc <==> sortBy == Some("price_asc")
    ensures o == PriceDesc <==> sortBy == Some("price_desc")
    ensures o == RatingDesc <==> sortBy == Some("rating")
    ensures o == NewestFirst <==> sortBy !in {Some("price_asc"), Some("price_desc"), Some("rating")}
  {
    if sortBy == Some("price_asc") then PriceAsc
    else if sortBy == Some("price_desc") then PriceDesc
    else if sortBy == Some("rating") then RatingDesc
    else NewestFirst
  }

  /** `a` may be listed before `b` under order `o`. */
  predicate InOrder(o: SortOrder, a: Product, b: Product) {
    match o
    case PriceAsc => a.price <= b.price
    case PriceDesc => a.price >= b.price
    case RatingDesc => a.averageRating >= b.averageRating
    case NewestFirst => a.createdAt >= b.createdAt
  }

  /** A single ascending key that realises each order. */
  function SortKey(o: SortOrder, p: Product): (k: real) {
    match o
    case PriceAsc => p.price as real
    case PriceDesc => -(p.price as real)
    case RatingDesc => -p.averageRating
    case NewestFirst => -(p.createdAt as real)
  }

  lemma SortKeyRealisesOrder(o: SortOrder, a: Product, b: Product)
    ensures SortKey(o, a) <= SortKey(o, b) <==> InOrder(o, a, b)
  {
  }

  /** `LEFT JOIN users u ON p.seller_id = u.id`: the seller's `full_name`, or NULL. */
  function SellerName(users: seq<UserRow>, sellerId: Option<string>): (r: Option<string>)
    ensures r.Some? ==> sellerId.Some? && exists u :: u in users && u.id == sellerId.value && u.fullName == r
    ensures sellerId.None? ==> r.None?
    ensures DistinctBy(users, UserKey) ==> forall u :: u in users && sellerId == Some(u.id) ==> r == u.fullName
  {
    if sellerId.None? then None
    else match IndexWhere(users, (u: UserRow) => u.id == sellerId.value)
      case None => None
      case Some(i) => users[i].fullName
  }

  /** The row mapping `{...p, seller: p.seller_name ? { full_name } : undefined}`. */
  function ViewOf(users: seq<UserRow>, p: Product): (v: ProductView)
    ensures v.product == p
    ensures v.sellerName == SellerName(users, p.sellerId)
    ensures v.seller.Some? <==> v.sellerName.Some? && v.sellerName.value != ""
    ensures v.seller.Some? ==> v.seller.value.fullName == v.sellerName.value
  {
    var name := SellerName(users, p.sellerId);
    ProductView(p, name, if name.Some? && name.value != "" then Some(Seller(name.value)) else None)
  }

  function Views(users: seq<UserRow>, rows: seq<Product>): (vs: seq<ProductView>)
    ensures |vs| == |rows|
    ensures forall i :: 0 <= i < |rows| ==> vs[i] == ViewOf(users, rows[i])
  {
    seq(|rows|, i requires 0 <= i < |rows| => ViewOf(users, rows[i]))
  }

  /** The product rows of a listing. */
  function Rows(vs: seq<ProductView>): (rows: seq<Product>)
    ensures |rows| == |vs|
    ensures forall i :: 0 <= i < |vs| ==> rows[i] == vs[i].product
  {
    seq(|vs|, i requires 0 <= i < |vs| => vs[i].product)
  }

  /**
    `GET /api/products`. Exactly the selected rows come back, each as often as
    it is stored, joined with its seller, in the order `sortBy` names.
    Rows that tie under that order keep their storage order (stated, not proved).
   */
  function ListProducts(products: seq<Product>, users: seq<UserRow>, f: Filters): (r: seq<ProductView>)
    ensures forall v :: v in r ==> v.product in products && Selected(f, v.product) && v == ViewOf(users, v.product)
    ensures forall p :: multiset(Rows(r))[p] == if Selected(f, p) then multiset(products)[p] else 0
    ensures forall i, j :: 0 <= i < j < |r| ==> InOrder(OrderOf(f.sortBy), r[i].product, r[j].product)
  {
    var o := OrderOf(f.sortBy);
    var keep := (p: Product) => Selected(f, p);
    var selected := Filter(products, keep);
    FilterMultiset(products, keep);
    var sorted := SortBy(selected, (p: Product) => SortKey(o, p));
    var r := Views(users, sorted);
    assert Rows(r) == sorted;
    assert forall v :: v in r ==> v.product in multiset(sorted) by {
      forall v | v in r ensures v.product in multiset(sorted) {
        var i :| 0 <= i < |r| && r[i] == v;
        assert sorted[i] in sorted;
      }
    }
    forall i, j | 0 <= i < j < |r| ensures InOrder(o, r[i].product, r[j].product) {
      SortKeyRealisesOrder(o, sorted[i], sorted[j]);
    }
    r
  }

  /** Every approved product that meets all given filters is listed. */
  lemma ListingComplete(products: seq<Product>, users: seq<UserRow>, f: Filters, p: Product)
    requires p in products && Selected(f, p)
    ensures ViewOf(users, p) in ListProducts(products, users, f)
  {
    var r := ListProducts(products, users, f);
    assert p in multiset(Rows(r));
    var i :| 0 <= i < |Rows(r)| && Rows(r)[i] == p;
    assert r[i] in r;
  }

  /** With unique product ids, no product is listed twice. */
  lemma ListingHasNoDuplicates(products: seq<Product>, users: seq<UserRow>, f: Filters)
    requires DistinctBy(products, ProductKey)
    ensures forall p :: multiset(Rows(ListProducts(products, users, f)))[p] <= 1
  {
    forall p ensures multiset(products)[p] <= 1 {
      DistinctHasNoRepeats(products, ProductKey, p);
    }
  }

  /** An element of a sequence with distinct keys occurs at most once. */
  lemma {:induction false} DistinctHasNoRepeats<T, K>(s: seq<T>, key: T -> K, x: T)
    requires DistinctBy(s, key)
    ensures multiset(s)[x] <= 1
  {
    if |s| > 0 {
      TailDistinct(s, key);
      DistinctHasNoRepeats(s[1..], key, x);
      assert s == [s[0]] + s[1..];
    }
  }

  /**
    `GET /api/products/:id`. Approval is not checked; an absent id is a 404
    with "Product not found".
   */
  function GetProduct(products: seq<Product>, users: seq<UserRow>, id: string): (r: Result<ProductView, RouteError>)
    ensures r.Failure? <==> forall p :: p in products ==> p.id != id
    ensures r.Failure? ==> r.error == Reject(404, ProductNotFoundMessage)
    ensures r.Success? ==> r.value.product in products && r.value.product.id == id
    ensures r.Success? ==> r.value == ViewOf(users, r.value.product)
  {
    match IndexWhere(products, (p: Product) => p.id == id)
    case None => Failure(Reject(404, ProductNotFoundMessage))
    case Some(i) => Success(ViewOf(users, products[i]))
  }

  /** With unique ids, the lookup returns the one row with that id. */
  lemma GetProductFindsRow(products: seq<Product>, users: seq<UserRow>, p: Product)
    requires DistinctBy(products, ProductKey)
    requires p in products
    ensures GetProduct(products, users, p.id) == Success(ViewOf(users, p))
  {
    var q := GetProduct(products, users, p.id).value.product;
    var i :| 0 <= i < |products| && products[i] == p;
    var j :| 0 <= j < |products| && products[j] == q;
    assert ProductKey(products[i]) == ProductKey(products[j]);
  }
}
