/**
 * The relational store the views and serializers read and write: one
 * sequence per table, and the next auto-increment key of each table the
 * modelled code inserts into. The insert and update methods stand for the
 * ORM's `save()` and `objects.create(...)` on one row.
 */
module Store {
  import opened Models

  /** All keys are positive (auto-increment starts at 1) and below the table's next key. */
  ghost predicate KeysBelow<T>(s: seq<T>, key: T -> Id, next: Id) {
    forall x :: x in s ==> 0 < key(x) < next
  }

  /** `auth.User.username` is a unique column. */
  ghost predicate UsernamesUnique(users: seq<User>) {
    forall i, j :: 0 <= i < j < |users| ==> users[i].username != users[j].username
  }

  /** `Profile.user` is a one-to-one field: at most one profile per user. */
  ghost predicate OneProfilePerUser(profiles: seq<Profile>) {
    forall i, j :: 0 <= i < j < |profiles| ==> profiles[i].user != profiles[j].user
  }

  lemma AppendAscending<T>(s: seq<T>, key: T -> Id, next: Id, x: T)
    requires Ascending(s, key) && KeysBelow(s, key, next) && 0 < next && key(x) == next
    ensures Ascending(s + [x], key) && KeysBelow(s + [x], key, next + 1)
  {
    assert forall i :: 0 <= i < |s| ==> s[i] in s;
  }

  lemma AppendHasKey<T>(s: seq<T>, key: T -> Id, x: T)
    ensures forall id :: HasKey(s, key, id) ==> HasKey(s + [x], key, id)
  {
    forall id | HasKey(s, key, id) ensures HasKey(s + [x], key, id) {
      var w :| w in s && key(w) == id;
      assert w in s + [x];
    }
  }

  lemma ReplaceSameKey<T>(s: seq<T>, key: T -> Id, k: nat, x: T)
    requires k < |s| && key(x) == key(s[k])
    ensures Ascending(s, key) ==> Ascending(s[k := x], key)
    ensures forall next :: KeysBelow(s, key, next) ==> KeysBelow(s[k := x], key, next)
    ensures forall id :: HasKey(s, key, id) ==> HasKey(s[k := x], key, id)
  {
    forall id | HasKey(s, key, id) ensures HasKey(s[k := x], key, id) {
      var w :| w in s && key(w) == id;
      var i :| 0 <= i < |s| && s[i] == w;
      assert key(s[k := x][i]) == id;
    }
    forall next | KeysBelow(s, key, next) ensures KeysBelow(s[k := x], key, next) {
      forall y | y in s[k := x] ensures 0 < key(y) < next {
        var i :| 0 <= i < |s| && s[k := x][i] == y;
        assert s[i] in s;
      }
    }
  }

  class Database {
    var categories: seq<Category>
    var brands: seq<Brand>
    var products: seq<Product>
    var specificationTypes: seq<SpecificationType>
    var specifications: seq<Specification>
    var reviews: seq<Review>
    var users: seq<User>
    var profiles: seq<Profile>
    var orders: seq<Order>
    var cartItems: seq<CartItem>
    var nextUserId: Id
    var nextProfileId: Id
    var nextOrderId: Id
    var nextCartItemId: Id

    /** Keys ascend in the category, brand, product and specification tables, the ones the modelled code reads by key order. */
    ghost predicate CatalogValid()
      reads this`categories, this`brands, this`products, this`specifications
    {
      && Ascending(categories, CategoryKey)
      && Ascending(brands, BrandKey)
      && Ascending(products, ProductKey)
      && Ascending(specifications, SpecificationKey)
    }

    /** User keys ascend, stay below the next key, and usernames are unique. */
    ghost predicate UsersValid()
      reads this`users, this`nextUserId
    {
      Ascending(users, UserKey) && KeysBelow(users, UserKey, nextUserId) && 0 < nextUserId && UsernamesUnique(users)
    }

    /** Profile keys ascend, each profile belongs to an existing user, and no user has two. */
    ghost predicate ProfilesValid()
      reads this`profiles, this`nextProfileId, this`users
    {
      && Ascending(profiles, ProfileKey) && KeysBelow(profiles, ProfileKey, nextProfileId) && 0 < nextProfileId
      && OneProfilePerUser(profiles)
      && (forall p :: p in profiles ==> HasKey(users, UserKey, p.user))
    }

    /** Order keys ascend and a set customer is an existing user. */
    ghost predicate OrdersValid()
      reads this`orders, this`nextOrderId, this`users
    {
      && Ascending(orders, OrderKey) && KeysBelow(orders, OrderKey, nextOrderId) && 0 < nextOrderId
      && (forall o :: o in orders && o.customer.Some? ==> HasKey(users, UserKey, o.customer.value))
    }

    /** Cart-item keys ascend and every item points at an existing order and product. */
    ghost predicate CartItemsValid()
      reads this`cartItems, this`nextCartItemId, this`orders, this`products
    {
      && Ascending(cartItems, CartItemKey) && KeysBelow(cartItems, CartItemKey, nextCartItemId) && 0 < nextCartItemId
      && (forall c :: c in cartItems ==> HasKey(orders, OrderKey, c.order) && HasKey(products, ProductKey, c.product))
    }

    ghost predicate Valid()
      reads this
    {
      CatalogValid() && UsersValid() && ProfilesValid() && OrdersValid() && CartItemsValid()
    }

    /** A store whose catalogue tables were filled through the admin site, with no users, profiles or orders yet. */
    constructor (categories: seq<Category>, brands: seq<Brand>, products: seq<Product>,
                 specificationTypes: seq<SpecificationType>, specifications: seq<Specification>,
                 reviews: seq<Review>)
      requires Ascending(categories, CategoryKey) && Ascending(brands, BrandKey)
      requires Ascending(products, ProductKey) && Ascending(specifications, SpecificationKey)
      ensures Valid()
      ensures this.categories == categories && this.brands == brands && this.products == products
      ensures this.specificationTypes == specificationTypes && this.specifications == specifications
      ensures this.reviews == reviews
      ensures users == [] && profiles == [] && orders == [] && cartItems == []
    {
      this.categories := categories;
      this.brands := brands;
      this.products := products;
      this.specificationTypes := specificationTypes;
      this.specifications := specifications;
      this.reviews := reviews;
      users, profiles, orders, cartItems := [], [], [], [];
      nextUserId, nextProfileId, nextOrderId, nextCartItemId := 1, 1, 1, 1;
    }

    /** `User(...).save()` for a new user. */
    method InsertUser(username: string, password: string) returns (u: User)
      requires Valid()
      requires forall v :: v in users ==> v.username != username
      modifies this`users, this`nextUserId
      ensures Valid()
      ensures u == User(old(nextUserId), username, password, "", "", "")
      ensures users == old(users) + [u] && nextUserId == old(nextUserId) + 1
    {
      u := User(nextUserId, username, password, "", "", "");
      AppendAscending(users, UserKey, nextUserId, u);
      AppendHasKey(users, UserKey, u);
      users := users + [u];
      nextUserId := nextUserId + 1;
    }

    /** `save()` on the user at position `k`, whose key and username stay as they are. */
    method UpdateUser(k: nat, u: User)
      requires Valid()
      requires k < |users| && u.id == users[k].id && u.username == users[k].username
      modifies this`users
      ensures Valid()
      ensures users == old(users)[k := u]
    {
      ReplaceSameKey(users, UserKey, k, u);
      users := users[k := u];
    }

    /** `Profile(user=..., phone_number=...).save()` for a user that has no profile yet. */
    method InsertProfile(user: Id, phoneNumber: string) returns (p: Profile)
      requires Valid()
      requires HasKey(users, UserKey, user)
      requires forall q :: q in profiles ==> q.user != user
      modifies this`profiles, this`nextProfileId
      ensures Valid()
      ensures p == Profile(old(nextProfileId), user, phoneNumber)
      ensures profiles == old(profiles) + [p] && nextProfileId == old(nextProfileId) + 1
    {
      p := Profile(nextProfileId, user, phoneNumber);
      AppendAscending(profiles, ProfileKey, nextProfileId, p);
      profiles := profiles + [p];
      nextProfileId := nextProfileId + 1;
    }

    /** `save()` of a new phone number on the profile at position `k`. */
    method UpdateProfilePhone(k: nat, phoneNumber: string)
      requires Valid()
      requires k < |profiles|
      modifies this`profiles
      ensures Valid()
      ensures profiles == old(profiles)[k := old(profiles)[k].(phoneNumber := phoneNumber)]
    {
      profiles := profiles[k := profiles[k].(phoneNumber := phoneNumber)];
    }

    /** `Order.objects.create(...)`. */
    method InsertOrder(customer: Option<Id>, totalPrice: real, additionalInfo: string, status: OrderStatus)
      returns (o: Order)
      requires OrdersValid() && CartItemsValid()
      requires customer.Some? ==> HasKey(users, UserKey, customer.value)
      modifies this`orders, this`nextOrderId
      ensures OrdersValid() && CartItemsValid()
      ensures o == Order(old(nextOrderId), customer, totalPrice, additionalInfo, status)
      ensures orders == old(orders) + [o] && nextOrderId == old(nextOrderId) + 1
    {
      o := Order(nextOrderId, customer, totalPrice, additionalInfo, status);
      AppendAscending(orders, OrderKey, nextOrderId, o);
      AppendHasKey(orders, OrderKey, o);
      orders := orders + [o];
      nextOrderId := nextOrderId + 1;
    }

    /** `CartItem.objects.create(...)`. */
    method InsertCartItem(order: Id, product: Id, quantity: int, totalPrice: real) returns (c: CartItem)
      requires CartItemsValid()
      requires HasKey(orders, OrderKey, order) && HasKey(products, ProductKey, product)
      modifies this`cartItems, this`nextCartItemId
      ensures CartItemsValid()
      ensures c == CartItem(old(nextCartItemId), order, product, quantity, totalPrice)
      ensures cartItems == old(cartItems) + [c] && nextCartItemId == old(nextCartItemId) + 1
    {
      c := CartItem(nextCartItemId, order, product, quantity, totalPrice);
      AppendAscending(cartItems, CartItemKey, nextCartItemId, c);
      cartItems := cartItems + [c];
      nextCartItemId := nextCartItemId + 1;
    }
  }
}
