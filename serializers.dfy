/**
 * apps/restful/serializers.py: the computed fields of ProductSerializer, the
 * cart-item representation, and the two write paths (OrderSerializer.create
 * and UserSerializer.save).
 */
module Serializers {
  import opened Models
  import opened Json
  import opened Store

  function Min(a: nat, b: nat): nat { if a <= b then a else b }

  // ---------------------------------------------------------------------
  // ProductSerializer
  // ---------------------------------------------------------------------

  /** `get_short_description`: the description cut to its first 50 characters. */
  function ShortDescription(p: Product): (r: string)
    ensures |r| == Min(50, |p.description|) && r <= p.description
    ensures |p.description| <= 50 ==> r == p.description
  {
    p.description[..Min(50, |p.description|)]
  }

  /** The specifications of product `product`, in table (that is, ascending key) order. */
  function SpecificationsOf(specs: seq<Specification>, product: Id): (r: seq<Specification>)
    ensures forall s :: s in r <==> s in specs && s.product == product
    ensures IsSubsequence(r, specs)
  {
    if specs == [] then []
    else if specs[0].product == product then [specs[0]] + SpecificationsOf(specs[1..], product)
    else SpecificationsOf(specs[1..], product)
  }

  /** One entry of `get_specifications`: the specification type's name and the info text. */
  function SpecificationEntry(types: seq<SpecificationType>, s: Specification): Value
    requires HasKey(types, SpecificationTypeKey, s.specificationType)
  {
    Object(map[
      "specification_type" := Str(Find(types, SpecificationTypeKey, s.specificationType).value.name),
      "info" := Str(s.info)])
  }

  function SpecificationEntries(types: seq<SpecificationType>, specs: seq<Specification>): (r: seq<Value>)
    requires forall s :: s in specs ==> HasKey(types, SpecificationTypeKey, s.specificationType)
    ensures |r| == |specs|
    ensures forall i :: 0 <= i < |specs| ==> r[i] == SpecificationEntry(types, specs[i])
  {
    if specs == [] then []
    else [SpecificationEntry(types, specs[0])] + SpecificationEntries(types, specs[1..])
  }

  /**
   * `get_specifications`: one {specification_type, info} entry per
   * specification of the product, in the order of the specifications' keys.
   */
  function Specifications(types: seq<SpecificationType>, specs: seq<Specification>, p: Product): (r: seq<Value>)
    requires forall s :: s in specs ==> HasKey(types, SpecificationTypeKey, s.specificationType)
    ensures |r| == |SpecificationsOf(specs, p.id)|
    ensures forall i :: 0 <= i < |r| ==>
      SpecificationsOf(specs, p.id)[i].product == p.id &&
      r[i] == SpecificationEntry(types, SpecificationsOf(specs, p.id)[i])
  {
    SpecificationEntries(types, SpecificationsOf(specs, p.id))
  }

  /**
   * The specifications behind `get_specifications` are exactly the
   * product's, each once, ordered by ascending key (`order_by('pk')`).
   */
  lemma SpecificationsByKey(specs: seq<Specification>, p: Product)
    requires Ascending(specs, SpecificationKey)
    ensures Ascending(SpecificationsOf(specs, p.id), SpecificationKey)
    ensures forall s :: s in SpecificationsOf(specs, p.id) <==> s in specs && s.product == p.id
  {
    SubsequenceAscending(SpecificationsOf(specs, p.id), specs, SpecificationKey);
  }

  /** The {id, slug, title} summary of a category. */
  function CategoryRef(c: Category): map<string, Value> {
    map["id" := Int(c.id), "slug" := Nullable(c.slug), "title" := Str(c.title)]
  }

  /** The list comprehension of `get_category_root`, over any sequence of categories. */
  function CategoryRoot(family: seq<Category>): (r: seq<Value>)
    ensures |r| == |family|
    ensures forall i :: 0 <= i < |family| ==> r[i] == Object(CategoryRef(family[i]))
  {
    if family == [] then []
    else [Object(CategoryRef(family[0]))] + CategoryRoot(family[1..])
  }

  /**
   * `get_category_root`: the {id, slug, title} of every member of the
   * product category's family, in family order; the category's own entry
   * follows those of its ancestors.
   */
  function GetCategoryRoot(cats: seq<Category>, p: Product): (r: seq<Value>)
    requires HasKey(cats, CategoryKey, p.category)
    ensures var c := Find(cats, CategoryKey, p.category).value;
      && |r| == |Family(cats, c)|
      && (forall i :: 0 <= i < |r| ==> r[i] == Object(CategoryRef(Family(cats, c)[i])))
      && r[|Ancestors(cats, c, |cats|)|] == Object(CategoryRef(c))
      && r[|Ancestors(cats, c, |cats|)|].fields["id"] == Int(p.category)
  {
    CategoryRoot(Family(cats, Find(cats, CategoryKey, p.category).value))
  }

  /**
   * `get_brand`: {title, id} of the product's brand. The dict is never
   * empty, so the `or None` alternative is never taken.
   */
  function GetBrand(brands: seq<Brand>, p: Product): (r: Value)
    requires HasKey(brands, BrandKey, p.brand)
    ensures r != Null && r.Object? && r.fields.Keys == {"title", "id"}
    ensures r.fields["id"] == Int(p.brand)
    ensures r.fields["title"] == Str(Find(brands, BrandKey, p.brand).value.title)
  {
    var b := Find(brands, BrandKey, p.brand).value;
    assert "id" in map["title" := Str(b.title), "id" := Int(b.id)];
    Or(Object(map["title" := Str(b.title), "id" := Int(b.id)]), Null)
  }

  // ---------------------------------------------------------------------
  // CartItemSerializer
  // ---------------------------------------------------------------------

  /** The default ModelSerializer output for fields ['product', 'quantity', 'total_price']. */
  function CartItemFields(item: CartItem): map<string, Value> {
    map["product" := Int(item.product), "quantity" := Int(item.quantity), "total_price" := Real(item.totalPrice)]
  }

  /**
   * `to_representation`: the default output with `product` overwritten by
   * the product's title; every other field is the default one.
   */
  function CartItemRepresentation(products: seq<Product>, item: CartItem): (r: map<string, Value>)
    requires HasKey(products, ProductKey, item.product)
    ensures r.Keys == CartItemFields(item).Keys == {"product", "quantity", "total_price"}
    ensures r["product"] == Str(Find(products, ProductKey, item.product).value.title)
    ensures forall k :: k in r && k != "product" ==> r[k] == CartItemFields(item)[k]
    ensures r["quantity"] == Int(item.quantity) && r["total_price"] == Real(item.totalPrice)
  {
    var result := CartItemFields(item);
    result["product" := Str(Find(products, ProductKey, item.product).value.title)]
  }

  // ---------------------------------------------------------------------
  // OrderSerializer.create
  // ---------------------------------------------------------------------

  /** One validated entry of `cart_items`. */
  datatype CartItemInput = CartItemInput(product: Id, quantity: int, totalPrice: real)

  /**
   * The validated payload of an order: `order_status` is a read-only method
   * field and `customer` is excluded, so neither can be submitted.
   */
  datatype OrderInput = OrderInput(totalPrice: real, additionalInfo: string, cartItems: seq<CartItemInput>)

  /** Python's `if request.user.id:` (None for an anonymous user). */
  predicate HasUserId(requester: Option<Id>) {
    requester.Some? && requester.value != 0
  }

  /** The rows `CartItem.objects.create` adds for `items`, keys counting up from `firstId`. */
  function NewCartItems(firstId: Id, order: Id, items: seq<CartItemInput>): (r: seq<CartItem>)
    ensures |r| == |items|
    ensures forall i :: 0 <= i < |items| ==>
      r[i] == CartItem(firstId + i, order, items[i].product, items[i].quantity, items[i].totalPrice)
    decreases |items|
  {
    if items == [] then []
    else [CartItem(firstId, order, items[0].product, items[0].quantity, items[0].totalPrice)]
         + NewCartItems(firstId + 1, order, items[1..])
  }

  lemma NewCartItemsSnoc(firstId: Id, order: Id, items: seq<CartItemInput>, x: CartItemInput)
    ensures NewCartItems(firstId, order, items + [x])
         == NewCartItems(firstId, order, items) + [CartItem(firstId + |items|, order, x.product, x.quantity, x.totalPrice)]
  {
    var a := NewCartItems(firstId, order, items + [x]);
    var b := NewCartItems(firstId, order, items) + [CartItem(firstId + |items|, order, x.product, x.quantity, x.totalPrice)];
    assert |a| == |b|;
    forall i | 0 <= i < |a| ensures a[i] == b[i] {
      if i < |items| { assert (items + [x])[i] == items[i]; }
    }
  }

  /**
   * The loop of `OrderSerializer.create`: `CartItem.objects.create(order=order, **item)`
   * for each submitted item in turn.
   */
  method CreateCartItems(db: Database, order: Id, items: seq<CartItemInput>)
    requires db.CartItemsValid()
    requires HasKey(db.orders, OrderKey, order)
    requires forall it :: it in items ==> HasKey(db.products, ProductKey, it.product)
    modifies db`cartItems, db`nextCartItemId
    ensures db.CartItemsValid()
    ensures db.cartItems == old(db.cartItems) + NewCartItems(old(db.nextCartItemId), order, items)
    ensures db.nextCartItemId == old(db.nextCartItemId) + |items|
  {
    var i := 0;
    while i < |items|
      invariant 0 <= i <= |items|
      invariant db.CartItemsValid()
      invariant db.nextCartItemId == old(db.nextCartItemId) + i
      invariant db.cartItems == old(db.cartItems) + NewCartItems(old(db.nextCartItemId), order, items[..i])
    {
      assert items[i] in items;
      var _ := db.InsertCartItem(order, items[i].product, items[i].quantity, items[i].totalPrice);
      assert items[..i + 1] == items[..i] + [items[i]];
      NewCartItemsSnoc(old(db.nextCartItemId), order, items[..i], items[i]);
      i := i + 1;
    }
    assert items[..i] == items;
  }

  /**
   * `OrderSerializer.create`: one new Pending order, owned by the requester
   * exactly when the requester has an id, then one new cart item per
   * submitted item, in submission order, each pointing at the new order.
   * No other table changes.
   */
  method OrderCreate(db: Database, requester: Option<Id>, data: OrderInput) returns (order: Order)
    requires db.Valid()
    requires HasUserId(requester) ==> HasKey(db.users, UserKey, requester.value)
    requires forall it :: it in data.cartItems ==> HasKey(db.products, ProductKey, it.product)
    modifies db`orders, db`nextOrderId, db`cartItems, db`nextCartItemId
    ensures db.Valid()
    ensures order.id == old(db.nextOrderId) && order.status == Pending
    ensures order.customer == (if HasUserId(requester) then requester else None)
    ensures order.totalPrice == data.totalPrice && order.additionalInfo == data.additionalInfo
    ensures db.orders == old(db.orders) + [order]
    ensures db.cartItems == old(db.cartItems) + NewCartItems(old(db.nextCartItemId), order.id, data.cartItems)
    ensures db.nextOrderId == old(db.nextOrderId) + 1
    ensures db.nextCartItemId == old(db.nextCartItemId) + |data.cartItems|
  {
    var customer := None;
    if HasUserId(requester) {
      customer := requester;
    }
    order := db.InsertOrder(customer, data.totalPrice, data.additionalInfo, Pending);
    assert order in db.orders;
    assert db.CatalogValid() && db.UsersValid() && db.ProfilesValid() && db.OrdersValid();
    CreateCartItems(db, order.id, data.cartItems);
  }

  /** `order.cart_items.all()`: the cart items that point at `order`, in table order. */
  function ItemsOfOrder(items: seq<CartItem>, order: Id): (r: seq<CartItem>)
    ensures forall c :: c in r <==> c in items && c.order == order
    ensures IsSubsequence(r, items)
  {
    if items == [] then []
    else if items[0].order == order then [items[0]] + ItemsOfOrder(items[1..], order)
    else ItemsOfOrder(items[1..], order)
  }

  lemma {:induction false} ItemsOfOrderAppend(a: seq<CartItem>, b: seq<CartItem>, order: Id)
    ensures ItemsOfOrder(a + b, order) == ItemsOfOrder(a, order) + ItemsOfOrder(b, order)
  {
    if a == [] {
      assert a + b == b;
    } else {
      assert (a + b)[0] == a[0] && (a + b)[1..] == a[1..] + b;
      ItemsOfOrderAppend(a[1..], b, order);
    }
  }

  /**
   * The new order's `cart_items` are exactly the rows `create` added, in
   * submission order, when no earlier cart item pointed at its key (which
   * holds in a valid store, since the key is fresh).
   */
  lemma NewOrderItems(before: seq<CartItem>, firstId: Id, order: Id, items: seq<CartItemInput>)
    requires forall c :: c in before ==> c.order != order
    ensures ItemsOfOrder(before + NewCartItems(firstId, order, items), order) == NewCartItems(firstId, order, items)
  {
    var added := NewCartItems(firstId, order, items);
    ItemsOfOrderAppend(before, added, order);
    ItemsOfOrderNone(before, order);
    forall c | c in added ensures c.order == order {
      var i :| 0 <= i < |added| && added[i] == c;
    }
    ItemsOfOrderAll(added, order);
  }

  lemma {:induction false} ItemsOfOrderNone(items: seq<CartItem>, order: Id)
    requires forall c :: c in items ==> c.order != order
    ensures ItemsOfOrder(items, order) == []
  {
    if items != [] {
      assert forall c :: c in items[1..] ==> c in items;
      ItemsOfOrderNone(items[1..], order);
    }
  }

  lemma {:induction false} ItemsOfOrderAll(items: seq<CartItem>, order: Id)
    requires forall c :: c in items ==> c.order == order
    ensures ItemsOfOrder(items, order) == items
  {
    if items != [] {
      assert forall c :: c in items[1..] ==> c in items;
      ItemsOfOrderAll(items[1..], order);
    }
  }

  /** In a valid store no cart item points at the key the next order will get. */
  lemma FreshOrderHasNoItems(orders: seq<Order>, nextOrderId: Id, cartItems: seq<CartItem>)
    requires KeysBelow(orders, OrderKey, nextOrderId)
    requires forall c :: c in cartItems ==> HasKey(orders, OrderKey, c.order)
    ensures forall c :: c in cartItems ==> c.order != nextOrderId
  {
    forall c | c in cartItems ensures c.order != nextOrderId {
      var o :| o in orders && OrderKey(o) == c.order;
    }
  }

  // ---------------------------------------------------------------------
  // UserSerializer.save
  // ---------------------------------------------------------------------

  /**
   * The validated payload of the user serializer. `username` is declared
   * read-only, so a submitted username never reaches the save; `profile`
   * holds the nested `phone_number` and is absent when it was not submitted.
   */
  datatype UserInput = UserInput(
    username: Option<string>, email: Option<string>, firstName: Option<string>,
    lastName: Option<string>, profile: Option<string>)

  /** ModelSerializer.update: every submitted writable field is set on the user. */
  function ApplyUserInput(u: User, data: UserInput): (r: User)
    ensures r.id == u.id && r.username == u.username && r.password == u.password
    ensures r.email == (if data.email.Some? then data.email.value else u.email)
    ensures r.firstName == (if data.firstName.Some? then data.firstName.value else u.firstName)
    ensures r.lastName == (if data.lastName.Some? then data.lastName.value else u.lastName)
  {
    var u1 := if data.email.Some? then u.(email := data.email.value) else u;
    var u2 := if data.firstName.Some? then u1.(firstName := data.firstName.value) else u1;
    if data.lastName.Some? then u2.(lastName := data.lastName.value) else u2
  }

  /**
   * `Profile.objects.update_or_create(user=user, defaults={'phone_number': phone})`:
   * the user's profile gets the phone, or a profile is created for it.
   * Afterwards the user has exactly one profile, and it holds the phone.
   */
  method UpsertProfile(db: Database, user: Id, phone: string)
    requires db.Valid()
    requires HasKey(db.users, UserKey, user)
    modifies db`profiles, db`nextProfileId
    ensures db.Valid()
    ensures match IndexOf(old(db.profiles), ProfileUserKey, user)
      case Some(k) =>
        && db.profiles == old(db.profiles)[k := old(db.profiles)[k].(phoneNumber := phone)]
        && db.nextProfileId == old(db.nextProfileId)
      case None =>
        && db.profiles == old(db.profiles) + [Profile(old(db.nextProfileId), user, phone)]
        && db.nextProfileId == old(db.nextProfileId) + 1
    ensures exists p :: p in db.profiles && p.user == user
    ensures forall p :: p in db.profiles && p.user == user ==> p.phoneNumber == phone
  {
    match IndexOf(db.profiles, ProfileUserKey, user) {
      case Some(j) =>
        db.UpdateProfilePhone(j, phone);
        assert db.profiles[j] in db.profiles;
        forall p | p in db.profiles && p.user == user ensures p.phoneNumber == phone {
          var i :| 0 <= i < |db.profiles| && db.profiles[i] == p;
          assert i == j;
        }
      case None =>
        var p := db.InsertProfile(user, phone);
        assert p in db.profiles;
    }
  }

  /**
   * `UserSerializer.save` on the requesting user: pops the nested profile
   * (a KeyError that changes nothing when it was not submitted), saves the
   * user's writable fields, then updates that user's profile or creates it.
   */
  method UserSave(db: Database, userId: Id, data: UserInput) returns (r: Result<()>)
    requires db.Valid()
    requires HasKey(db.users, UserKey, userId)
    modifies db`users, db`profiles, db`nextProfileId
    ensures db.Valid()
    ensures data.profile.None? ==>
      r == Err(KeyError("profile")) && db.users == old(db.users) && db.profiles == old(db.profiles)
      && db.nextProfileId == old(db.nextProfileId)
    ensures data.profile.Some? ==> r == Ok(())
    ensures data.profile.Some? ==>
      var k := IndexOf(old(db.users), UserKey, userId).value;
      db.users == old(db.users)[k := ApplyUserInput(old(db.users)[k], data)]
    ensures data.profile.Some? ==>
      match IndexOf(old(db.profiles), ProfileUserKey, userId)
      case Some(k) =>
        && db.profiles == old(db.profiles)[k := old(db.profiles)[k].(phoneNumber := data.profile.value)]
        && db.nextProfileId == old(db.nextProfileId)
      case None =>
        && db.profiles == old(db.profiles) + [Profile(old(db.nextProfileId), userId, data.profile.value)]
        && db.nextProfileId == old(db.nextProfileId) + 1
    ensures forall i :: 0 <= i < |db.users| ==> db.users[i].username == old(db.users)[i].username
    ensures data.profile.Some? ==> exists p :: p in db.profiles && p.user == userId
    ensures data.profile.Some? ==>
      forall p :: p in db.profiles && p.user == userId ==> p.phoneNumber == data.profile.value
  {
    if data.profile.None? {
      return Err(KeyError("profile"));
    }
    var k := IndexOf(db.users, UserKey, userId).value;
    db.UpdateUser(k, ApplyUserInput(db.users[k], data));
    assert db.users[k].id == userId && db.users[k] in db.users;
    UpsertProfile(db, userId, data.profile.value);
    r := Ok(());
  }
}
