/**
  The rows of the `users`, `products`, `cart_items` and `reviews` tables and
  the table constraints declared in their `CREATE TABLE` statements
  (`CHECK`, `UNIQUE`, `PRIMARY KEY`, `FOREIGN KEY`), stated as predicates over
  whole tables. Also the request failures every route can report.
 */
module Schema {
  import opened Base
  import opened Seqs

  /** `CURRENT_TIMESTAMP`, as an abstract totally ordered value. */
  type Timestamp = int

  /** A row of `users`. */
  datatype UserRow = UserRow(
    id: string,
    email: string,
    passwordHash: string,
    fullName: Option<string>,
    role: string,
    avatarUrl: Option<string>,
    isBanned: bool,
    createdAt: Timestamp)

  /** A row of `products`; `price` is in integer cents. */
  datatype Product = Product(
    id: string,
    name: string,
    description: Option<string>,
    price: int,
    stockQuantity: int,
    category: string,
    imageUrl: Option<string>,
    sellerId: Option<string>,
    isApproved: bool,
    averageRating: real,
    reviewCount: int,
    createdAt: Timestamp)

  /** A row of `cart_items`. */
  datatype CartItem = CartItem(id: string, userId: string, productId: string, quantity: int)

  /** A row of `reviews`. */
  datatype Review = Review(id: string, productId: string, userId: string, rating: int, comment: Option<string>)

  /** The signed-in user kept in the process-wide `currentUser` variable. */
  datatype SessionUser = SessionUser(
    id: string,
    email: string,
    role: string,
    fullName: Option<string>,
    avatarUrl: Option<string>,
    createdAt: Timestamp,
    isBanned: bool)

  /** The user object a successful sign-up returns. */
  datatype SignUpReply = SignUpReply(id: string, email: string, fullName: Option<string>, role: string)

  /** The kind of table constraint a rejected statement violated. */
  datatype Violation = CheckConstraint | PrimaryKeyConstraint | UniqueConstraint | ForeignKeyConstraint

  /**
    Why a route failed: a hand-written rejection with its HTTP status and
    message, or a statement the database refused (reported as status 500).
   */
  datatype RouteError = Reject(status: int, message: string) | ConstraintFailed(violation: Violation)

  const EmailTakenMessage: string := "User already exists with this email"
  const BadCredentialsMessage: string := "Invalid email or password"
  const BannedMessage: string := "Your account has been banned. Please contact support."
  const ProductNotFoundMessage: string := "Product not found"

  /** The `role` a sign-up stores: the one given, or `'customer'` when it is absent. */
  function RequestedRole(role: Option<string>): string {
    if role.Some? then role.value else "customer"
  }

  /** The `role` column's enumeration. */
  predicate ValidRole(role: string) {
    role == "customer" || role == "seller" || role == "admin"
  }

  // Keys of the PRIMARY KEY and UNIQUE constraints.
  function UserKey(u: UserRow): string { u.id }
  function UserEmail(u: UserRow): string { u.email }
  function ProductKey(p: Product): string { p.id }
  function CartKey(c: CartItem): string { c.id }
  function CartPair(c: CartItem): (string, string) { (c.userId, c.productId) }
  function ReviewKey(r: Review): string { r.id }
  function ReviewPair(r: Review): (string, string) { (r.productId, r.userId) }

  predicate HasUser(users: seq<UserRow>, id: string) {
    exists u :: u in users && u.id == id
  }

  predicate HasProduct(products: seq<Product>, id: string) {
    exists p :: p in products && p.id == id
  }

  /** `users`: id is the primary key, email is UNIQUE, role is in its enumeration. */
  predicate UsersValid(users: seq<UserRow>) {
    && DistinctBy(users, UserKey)
    && DistinctBy(users, UserEmail)
    && forall u :: u in users ==> ValidRole(u.role)
  }

  /** `products`: price, stock and average rating CHECKs, and the seller foreign key. */
  predicate ProductRowValid(p: Product, users: seq<UserRow>) {
    && p.price >= 0
    && p.stockQuantity >= 0
    && 0.0 <= p.averageRating <= 5.0
    && (p.sellerId.Some? ==> HasUser(users, p.sellerId.value))
  }

  predicate ProductsValid(products: seq<Product>, users: seq<UserRow>) {
    && DistinctBy(products, ProductKey)
    && forall p :: p in products ==> ProductRowValid(p, users)
  }

  /** `cart_items`: `quantity > 0`, `UNIQUE(user_id, product_id)` and both foreign keys. */
  predicate CartRowValid(c: CartItem, users: seq<UserRow>, products: seq<Product>) {
    c.quantity > 0 && HasUser(users, c.userId) && HasProduct(products, c.productId)
  }

  predicate CartValid(items: seq<CartItem>, users: seq<UserRow>, products: seq<Product>) {
    && DistinctBy(items, CartKey)
    && DistinctBy(items, CartPair)
    && forall c :: c in items ==> CartRowValid(c, users, products)
  }

  /** `reviews`: rating in 1..5, `UNIQUE(product_id, user_id)` and both foreign keys. */
  predicate ReviewRowValid(r: Review, users: seq<UserRow>, products: seq<Product>) {
    1 <= r.rating <= 5 && HasUser(users, r.userId) && HasProduct(products, r.productId)
  }

  predicate ReviewsValid(reviews: seq<Review>, users: seq<UserRow>, products: seq<Product>) {
    && DistinctBy(reviews, ReviewKey)
    && DistinctBy(reviews, ReviewPair)
    && forall r :: r in reviews ==> ReviewRowValid(r, users, products)
  }

  /** Every constraint of the four tables holds. */
  predicate DatabaseValid(users: seq<UserRow>, products: seq<Product>, items: seq<CartItem>, reviews: seq<Review>) {
    && UsersValid(users)
    && ProductsValid(products, users)
    && CartValid(items, users, products)
    && ReviewsValid(reviews, users, products)
  }

  /** `SELECT * FROM users WHERE email = ?`: the row with that email, if any. */
  function UserByEmail(users: seq<UserRow>, email: string): (r: Option<UserRow>)
    ensures r.Some? ==> r.value in users && r.value.email == email
    ensures r.None? <==> forall u :: u in users ==> u.email != email
  {
    match IndexWhere(users, (u: UserRow) => u.email == email)
    case None => None
    case Some(i) => Some(users[i])
  }

  /** With UNIQUE emails, the row found by email is the only row with that email. */
  lemma UserByEmailUnique(users: seq<UserRow>, email: string, u: UserRow)
    requires DistinctBy(users, UserEmail)
    requires u in users && u.email == email
    ensures UserByEmail(users, email) == Some(u)
  {
    var found := UserByEmail(users, email).value;
    var i :| 0 <= i < |users| && users[i] == u;
    var j :| 0 <= j < |users| && users[j] == found;
    assert UserEmail(users[i]) == UserEmail(users[j]);
  }

  /** After inserting a user with a new email, looking that email up finds the new row. */
  lemma UserByEmailAfterInsert(users: seq<UserRow>, v: UserRow)
    requires forall u :: u in users ==> u.email != v.email
    ensures UserByEmail(users + [v], v.email) == Some(v)
  {
    var found := UserByEmail(users + [v], v.email);
    assert v in users + [v];
    assert found.Some?;
    assert found.value == v;
  }

  /** The position of the product whose `id` is `id` (the target of `UPDATE products ... WHERE id = ?`). */
  function ProductIndex(products: seq<Product>, id: string): (r: Option<nat>)
    ensures r.Some? ==> r.value < |products| && products[r.value].id == id
    ensures r.None? <==> !HasProduct(products, id)
  {
    IndexWhere(products, (p: Product) => p.id == id)
  }

  /** The session value a successful sign-in stores for a row of `users`. */
  function SessionOf(u: UserRow): SessionUser {
    SessionUser(u.id, u.email, u.role, u.fullName, u.avatarUrl, u.createdAt, u.isBanned)
  }

  /** Adding a user never breaks a foreign key into `users`. */
  lemma HasUserAppend(users: seq<UserRow>, v: UserRow, id: string)
    requires HasUser(users, id)
    ensures HasUser(users + [v], id)
  {
    var u :| u in users && u.id == id;
    assert u in users + [v];
  }

  /**
    A sign-up insert whose id and email are new and whose role is in the
    enumeration keeps every constraint of the database.
   */
  lemma AddUserKeepsDatabaseValid(users: seq<UserRow>, products: seq<Product>, items: seq<CartItem>, reviews: seq<Review>, v: UserRow)
    requires DatabaseValid(users, products, items, reviews)
    requires !HasUser(users, v.id)
    requires forall u :: u in users ==> u.email != v.email
    requires ValidRole(v.role)
    ensures DatabaseValid(users + [v], products, items, reviews)
  {
    var users' := users + [v];
    forall j | 0 <= j < |users| ensures UserKey(users[j]) != UserKey(v) && UserEmail(users[j]) != UserEmail(v) {
      assert users[j] in users;
    }
    AppendDistinct(users, v, UserKey);
    AppendDistinct(users, v, UserEmail);
    forall id | HasUser(users, id) ensures HasUser(users', id) {
      HasUserAppend(users, v, id);
    }
    assert forall p :: p in products ==> ProductRowValid(p, users');
    assert forall c :: c in items ==> CartRowValid(c, users', products);
    assert forall r :: r in reviews ==> ReviewRowValid(r, users', products);
  }

  /** Two product tables with the same ids position by position. */
  predicate SameProductIds(a: seq<Product>, b: seq<Product>) {
    |a| == |b| && forall i :: 0 <= i < |a| ==> a[i].id == b[i].id
  }

  /** Rewriting non-key columns of `products` keeps its primary key and every foreign key into it. */
  lemma SameProductIdsKeepKeys(a: seq<Product>, b: seq<Product>)
    requires SameProductIds(a, b)
    ensures DistinctBy(a, ProductKey) ==> DistinctBy(b, ProductKey)
    ensures forall id :: HasProduct(a, id) <==> HasProduct(b, id)
  {
    forall id ensures HasProduct(a, id) <==> HasProduct(b, id) {
      if HasProduct(a, id) {
        var p :| p in a && p.id == id;
        var i :| 0 <= i < |a| && a[i] == p;
        assert b[i] in b;
      }
      if HasProduct(b, id) {
        var p :| p in b && p.id == id;
        var i :| 0 <= i < |b| && b[i] == p;
        assert a[i] in a;
      }
    }
  }
}
