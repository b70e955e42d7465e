/**
  The HTTP server's state: the four tables the routes touch and the
  process-wide `currentUser`. Each mutating route is a method that either
  performs its statements or is rejected and changes nothing; every method
  keeps all table constraints. The read-only routes are the functions of
  modules Catalog and Cart applied to these tables.
 */
module Server {
  import opened Base
  import opened Seqs
  import opened Schema
  import opened Ratings
  import opened Cart

  /** The `quantity` a cart add uses: the one given, or 1 when it is absent. */
  function RequestedQuantity(quantity: Option<int>): int {
    if quantity.Some? then quantity.value else 1
  }

  class Store {
    var users: seq<UserRow>
    var products: seq<Product>
    var cartItems: seq<CartItem>
    var reviews: seq<Review>
    var currentUser: Option<SessionUser>

    /** Every table constraint of the schema holds. */
    predicate Valid()
      reads this
    {
      DatabaseValid(users, products, cartItems, reviews)
    }

    /** A server started on an existing (seeded) database; nobody is signed in. */
    constructor (users0: seq<UserRow>, products0: seq<Product>, items0: seq<CartItem>, reviews0: seq<Review>)
      requires DatabaseValid(users0, products0, items0, reviews0)
      ensures Valid()
      ensures users == users0 && products == products0 && cartItems == items0 && reviews == reviews0
      ensures currentUser == None
    {
      users, products, cartItems, reviews := users0, products0, items0, reviews0;
      currentUser := None;
    }

    /**
      `POST /api/auth/signup`. A taken email is a 400 and inserts nothing.
      Otherwise the row is inserted unless the role CHECK or the primary key
      refuses it. `passwordHash` is the bcrypt hash of the password and
      `newId` the generated uuid; `now` is `CURRENT_TIMESTAMP`.
     */
    method SignUp(email: string, fullName: Option<string>, role: Option<string>,
                  passwordHash: string, newId: string, now: Timestamp)
      returns (r: Result<SignUpReply, RouteError>)
      requires Valid()
      modifies this`users
      ensures Valid()
      ensures old(UserByEmail(users, email)).Some? ==> r == Failure(Reject(400, EmailTakenMessage))
      ensures old(UserByEmail(users, email)).None? && !ValidRole(RequestedRole(role)) ==>
                r == Failure(ConstraintFailed(CheckConstraint))
      ensures old(UserByEmail(users, email)).None? && ValidRole(RequestedRole(role)) && old(HasUser(users, newId)) ==>
                r == Failure(ConstraintFailed(PrimaryKeyConstraint))
      ensures r.Success? <==>
                old(UserByEmail(users, email)).None? && ValidRole(RequestedRole(role)) && !old(HasUser(users, newId))
      ensures r.Success? ==>
                && users == old(users) + [UserRow(newId, email, passwordHash, fullName, RequestedRole(role), None, false, now)]
                && r.value == SignUpReply(newId, email, fullName, RequestedRole(role))
      ensures r.Failure? ==> users == old(users)
    {
      if UserByEmail(users, email).Some? {
        return Failure(Reject(400, EmailTakenMessage));
      }
      var roleValue := RequestedRole(role);
      if !ValidRole(roleValue) {
        return Failure(ConstraintFailed(CheckConstraint));
      }
      if HasUser(users, newId) {
        return Failure(ConstraintFailed(PrimaryKeyConstraint));
      }
      var row := UserRow(newId, email, passwordHash, fullName, roleValue, None, false, now);
      AddUserKeepsDatabaseValid(users, products, cartItems, reviews, row);
      users := users + [row];
      r := Success(SignUpReply(newId, email, fullName, roleValue));
    }

    /**
      `POST /api/auth/signin`. An unknown email and a wrong password give the
      same 400; the ban is checked only after the password, with a 403. Only
      a successful sign-in changes `currentUser`. `matches` is bcrypt's
      comparison of a password with a stored hash.
     */
    method SignIn(email: string, password: string, matches: (string, string) -> bool)
      returns (r: Result<SessionUser, RouteError>)
      modifies this`currentUser
      ensures var found := UserByEmail(users, email);
                && (found.None? ==> r == Failure(Reject(400, BadCredentialsMessage)))
                && (found.Some? && !matches(password, found.value.passwordHash) ==>
                      r == Failure(Reject(400, BadCredentialsMessage)))
                && (found.Some? && matches(password, found.value.passwordHash) && found.value.isBanned ==>
                      r == Failure(Reject(403, BannedMessage)))
                && (r.Success? <==>
                      found.Some? && matches(password, found.value.passwordHash) && !found.value.isBanned)
                && (r.Success? ==> r.value == SessionOf(found.value))
      ensures r.Success? ==> currentUser == Some(r.value)
      ensures r.Failure? ==> currentUser == old(currentUser)
    {
      var found := UserByEmail(users, email);
      if found.None? {
        return Failure(Reject(400, BadCredentialsMessage));
      }
      var user := found.value;
      if !matches(password, user.passwordHash) {
        return Failure(Reject(400, BadCredentialsMessage));
      }
      if user.isBanned {
        return Failure(Reject(403, BannedMessage));
      }
      currentUser := Some(SessionOf(user));
      r := Success(currentUser.value);
    }

    /** `POST /api/auth/signout`: nobody is signed in afterwards. */
    method SignOut()
      modifies this`currentUser
      ensures currentUser == None
    {
      currentUser := None;
    }

    /** `GET /api/auth/user`: the session value, read without change. */
    method CurrentUser() returns (u: Option<SessionUser>)
      ensures u == currentUser
    {
      u := currentUser;
    }

    /**
      `POST /api/cart`. If the user already has the product in the cart, that
      row's quantity grows by `quantity` (default 1); otherwise one row is
      inserted. A resulting quantity of 0 or less violates the CHECK and
      changes nothing, as does a reused id or an unknown user or product.
     */
    method AddToCart(userId: string, productId: string, quantity: Option<int>, newId: string)
      returns (r: Outcome<RouteError>)
      requires Valid()
      modifies this`cartItems
      ensures Valid()
      ensures var k := FindPair(old(cartItems), userId, productId);
              var q := RequestedQuantity(quantity);
              && (k.Some? ==>
                    var row := old(cartItems)[k.value];
                    && (row.quantity + q > 0 ==>
                          r == Pass && cartItems == old(cartItems)[k.value := row.(quantity := row.quantity + q)])
                    && (row.quantity + q <= 0 ==>
                          r == Fail(ConstraintFailed(CheckConstraint)) && cartItems == old(cartItems)))
              && (k.None? ==>
                    && (q <= 0 ==> r == Fail(ConstraintFailed(CheckConstraint)))
                    && (q > 0 && FindItem(old(cartItems), newId).Some? ==>
                          r == Fail(ConstraintFailed(PrimaryKeyConstraint)))
                    && (q > 0 && FindItem(old(cartItems), newId).None?
                          && !(HasUser(users, userId) && HasProduct(products, productId)) ==>
                          r == Fail(ConstraintFailed(ForeignKeyConstraint)))
                    && (r == Pass <==>
                          q > 0 && FindItem(old(cartItems), newId).None?
                          && HasUser(users, userId) && HasProduct(products, productId))
                    && (r == Pass ==> cartItems == old(cartItems) + [CartItem(newId, userId, productId, q)]))
      ensures r.Fail? ==> cartItems == old(cartItems)
    {
      var q := RequestedQuantity(quantity);
      var k := FindPair(cartItems, userId, productId);
      if k.Some? {
        var row := cartItems[k.value];
        if row.quantity + q <= 0 {
          return Fail(ConstraintFailed(CheckConstraint));
        }
        var updated := row.(quantity := row.quantity + q);
        assert forall c :: c in cartItems[k.value := updated] ==> c == updated || c in cartItems;
        cartItems := cartItems[k.value := updated];
        return Pass;
      }
      if q <= 0 {
        return Fail(ConstraintFailed(CheckConstraint));
      }
      if FindItem(cartItems, newId).Some? {
        return Fail(ConstraintFailed(PrimaryKeyConstraint));
      }
      if !(HasUser(users, userId) && HasProduct(products, productId)) {
        return Fail(ConstraintFailed(ForeignKeyConstraint));
      }
      var row := CartItem(newId, userId, productId, q);
      forall j | 0 <= j < |cartItems|
        ensures CartKey(cartItems[j]) != CartKey(row) && CartPair(cartItems[j]) != CartPair(row)
      {
        assert cartItems[j] in cartItems;
      }
      AppendDistinct(cartItems, row, CartKey);
      AppendDistinct(cartItems, row, CartPair);
      cartItems := cartItems + [row];
      r := Pass;
    }

    /**
      `PUT /api/cart/:itemId`. A quantity of 0 or less deletes the row with
      that id; a positive quantity becomes that row's quantity. Every other
      row is unchanged and an unknown id changes nothing.
     */
    method SetQuantity(itemId: string, quantity: int)
      requires Valid()
      modifies this`cartItems
      ensures Valid()
      ensures var k := FindItem(old(cartItems), itemId);
              && (k.None? ==> cartItems == old(cartItems))
              && (k.Some? && quantity <= 0 ==>
                    cartItems == old(cartItems)[..k.value] + old(cartItems)[k.value + 1..])
              && (k.Some? && quantity > 0 ==>
                    cartItems == old(cartItems)[k.value := old(cartItems)[k.value].(quantity := quantity)])
    {
      if quantity <= 0 {
        DeleteItem(itemId);
      } else {
        var k := FindItem(cartItems, itemId);
        if k.Some? {
          var updated := cartItems[k.value].(quantity := quantity);
          assert forall c :: c in cartItems[k.value := updated] ==> c == updated || c in cartItems;
          cartItems := cartItems[k.value := updated];
        }
      }
    }

    /**
      `DELETE /api/cart/:itemId`: deletes the one row with that id and keeps
      every other row in order; an unknown id changes nothing.
     */
    method DeleteItem(itemId: string)
      requires Valid()
      modifies this`cartItems
      ensures Valid()
      ensures cartItems == WithoutItem(old(cartItems), itemId)
      ensures var k := FindItem(old(cartItems), itemId);
              && (k.None? ==> cartItems == old(cartItems))
              && (k.Some? ==> cartItems == old(cartItems)[..k.value] + old(cartItems)[k.value + 1..])
    {
      WithoutItemExact(cartItems, itemId);
      DeletionsKeepCartValid(cartItems, users, products, itemId, "");
      cartItems := WithoutItem(cartItems, itemId);
    }

    /**
      `DELETE /api/cart/user/:userId`: every row of that user goes, and no row
      of any other user.
     */
    method ClearCart(userId: string)
      requires Valid()
      modifies this`cartItems
      ensures Valid()
      ensures cartItems == WithoutUser(old(cartItems), userId)
      ensures forall c :: c in cartItems <==> c in old(cartItems) && c.userId != userId
    {
      DeletionsKeepCartValid(cartItems, users, products, "", userId);
      cartItems := WithoutUser(cartItems, userId);
    }

    /**
      `POST /api/reviews`. The insert is refused, changing nothing, for a
      rating outside 1..5, a reused id, a second review of the product by the
      same user, or an unknown product or user. Otherwise the review is added
      and the product's `average_rating` and `review_count` become the mean and
      the number of all its ratings; no other product changes.
     */
    method CreateReview(productId: string, userId: string, rating: int, comment: Option<string>, newId: string)
      returns (r: Result<string, RouteError>)
      requires Valid()
      modifies this`reviews, this`products
      ensures Valid()
      ensures !(1 <= rating <= 5) ==> r == Failure(ConstraintFailed(CheckConstraint))
      ensures 1 <= rating <= 5 && old(HasReviewId(reviews, newId)) ==>
                r == Failure(ConstraintFailed(PrimaryKeyConstraint))
      ensures 1 <= rating <= 5 && !old(HasReviewId(reviews, newId)) && old(HasReviewPair(reviews, productId, userId)) ==>
                r == Failure(ConstraintFailed(UniqueConstraint))
      ensures && 1 <= rating <= 5
              && !old(HasReviewId(reviews, newId)) && !old(HasReviewPair(reviews, productId, userId))
              && !(HasProduct(old(products), productId) && HasUser(users, userId)) ==>
                r == Failure(ConstraintFailed(ForeignKeyConstraint))
      ensures r.Success? <==>
                && 1 <= rating <= 5
                && !old(HasReviewId(reviews, newId)) && !old(HasReviewPair(reviews, productId, userId))
                && HasProduct(old(products), productId) && HasUser(users, userId)
      ensures r.Failure? ==> reviews == old(reviews) && products == old(products)
      ensures r.Success? ==>
                && r.value == newId
                && reviews == old(reviews) + [Review(newId, productId, userId, rating, comment)]
                && var k := ProductIndex(old(products), productId).value;
                   products == old(products)[k := old(products)[k].(
                     averageRating := AverageRating(reviews, productId),
                     reviewCount := ReviewCount(reviews, productId))]
    {
      if !(1 <= rating <= 5) {
        return Failure(ConstraintFailed(CheckConstraint));
      }
      if HasReviewId(reviews, newId) {
        return Failure(ConstraintFailed(PrimaryKeyConstraint));
      }
      if HasReviewPair(reviews, productId, userId) {
        return Failure(ConstraintFailed(UniqueConstraint));
      }
      if !(HasProduct(products, productId) && HasUser(users, userId)) {
        return Failure(ConstraintFailed(ForeignKeyConstraint));
      }
      var review := Review(newId, productId, userId, rating, comment);
      forall j | 0 <= j < |reviews|
        ensures ReviewKey(reviews[j]) != ReviewKey(review) && ReviewPair(reviews[j]) != ReviewPair(review)
      {
        assert reviews[j] in reviews;
      }
      AppendDistinct(reviews, review, ReviewKey);
      AppendDistinct(reviews, review, ReviewPair);
      reviews := reviews + [review];
      assert ReviewsValid(reviews, users, products);

      // The recompute: `SELECT COALESCE(AVG(rating), 0), COUNT(*) ... ; UPDATE products ...`.
      var average := AverageRating(reviews, productId);
      var count := ReviewCount(reviews, productId);
      ProductRatingsInRange(reviews, users, products, productId);
      var k := ProductIndex(products, productId).value;
      var before := products;
      products := products[k := products[k].(averageRating := average, reviewCount := count)];
      assert SameProductIds(before, products);
      SameProductIdsKeepKeys(before, products);
      assert forall p :: p in products ==> ProductRowValid(p, users) by {
        forall p | p in products ensures ProductRowValid(p, users) {
          var i :| 0 <= i < |products| && products[i] == p;
          assert before[i] in before;
        }
      }
      r := Success(newId);
    }
  }

  /**
    A sign-up followed by a sign-in with a password that bcrypt accepts for
    the stored hash signs the new user in, with role, name and creation time
    as stored and not banned.
   */
  method SignUpThenSignIn(store: Store, email: string, password: string, fullName: Option<string>, role: Option<string>,
                          passwordHash: string, newId: string, now: Timestamp, matches: (string, string) -> bool)
      returns (signedUp: bool, signedIn: bool)
    requires store.Valid()
    requires matches(password, passwordHash)
    modifies store`users, store`currentUser
    ensures store.Valid()
    ensures signedUp ==> signedIn
    ensures signedIn ==>
              store.currentUser == Some(SessionUser(newId, email, RequestedRole(role), fullName, None, now, false))
  {
    var up := store.SignUp(email, fullName, role, passwordHash, newId, now);
    signedUp := up.Success?;
    signedIn := false;
    if signedUp {
      UserByEmailAfterInsert(old(store.users), UserRow(newId, email, passwordHash, fullName, RequestedRole(role), None, false, now));
      var r := store.SignIn(email, password, matches);
      signedIn := r.Success?;
    }
  }

  /** `reviews` already holds a row with this id. */
  predicate HasReviewId(reviews: seq<Review>, id: string) {
    exists x :: x in reviews && x.id == id
  }

  /** `reviews` already holds a review of this product by this user. */
  predicate HasReviewPair(reviews: seq<Review>, productId: string, userId: string) {
    exists x :: x in reviews && x.productId == productId && x.userId == userId
  }
}
