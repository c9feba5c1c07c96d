/**
 * apps/restful/views.py: the category, brand, product and order lookups and
 * user registration, over the in-memory store.
 */
module Views {
  import opened Models
  import opened Json
  import opened Store
  import opened Serializers

  // ---------------------------------------------------------------------
  // CategoryListView
  // ---------------------------------------------------------------------

  /**
   * `Category.objects.filter(parent__isnull=True).order_by('-pk')`: the root
   * categories, latest row first. Over a table in ascending key order that
   * is descending key order (`RootCategoriesNewestFirst`).
   */
  function RootCategories(cats: seq<Category>): (r: seq<Category>)
    ensures forall c :: c in r <==> c in cats && c.parent.None?
  {
    if cats == [] then []
    else RootCategories(cats[1..]) + (if cats[0].parent.None? then [cats[0]] else [])
  }

  lemma {:induction false} RootCategoriesNewestFirst(cats: seq<Category>)
    requires Ascending(cats, CategoryKey)
    ensures Descending(RootCategories(cats), CategoryKey)
  {
    if cats != [] {
      var rest := RootCategories(cats[1..]);
      RootCategoriesNewestFirst(cats[1..]);
      if cats[0].parent.None? {
        var r := rest + [cats[0]];
        forall i, j | 0 <= i < j < |r| ensures CategoryKey(r[i]) > CategoryKey(r[j]) {
          if j == |rest| {
            assert r[i] == rest[i] && rest[i] in rest;
            var k :| 0 <= k < |cats[1..]| && cats[1..][k] == r[i];
            assert cats[k + 1] == r[i];
          } else {
            assert r[i] == rest[i] && r[j] == rest[j];
          }
        }
      }
    }
  }

  // ---------------------------------------------------------------------
  // get_object_or_404(Category, slug=...)
  // ---------------------------------------------------------------------

  /** `Category.objects.filter(slug=slug)`, in table order. */
  function WithSlug(cats: seq<Category>, slug: string): (r: seq<Category>)
    ensures forall c :: c in r <==> c in cats && c.slug == Some(slug)
  {
    if cats == [] then []
    else if cats[0].slug == Some(slug) then [cats[0]] + WithSlug(cats[1..], slug)
    else WithSlug(cats[1..], slug)
  }

  /**
   * `get_object_or_404(Category, slug=slug)`: the one category with that
   * slug; Http404 when there is none, MultipleObjectsReturned when there
   * are several (the slug column is not unique).
   */
  function GetCategoryBySlug(cats: seq<Category>, slug: string): (r: Result<Category>)
    ensures r.Ok? ==> r.value in cats && r.value.slug == Some(slug)
    ensures r.Ok? ==> forall d :: d in cats && d.slug == Some(slug) ==> d == r.value
    ensures r == Err(Http404) <==> forall d :: d in cats ==> d.slug != Some(slug)
    ensures r.Err? ==> r.error == Http404 || r.error == MultipleObjectsReturned
  {
    var m := WithSlug(cats, slug);
    if m == [] then Err(Http404)
    else if |m| == 1 then Ok(m[0])
    else
      assert m[0] in m;
      Err(MultipleObjectsReturned)
  }

  lemma {:induction false} WithSlugSingle(cats: seq<Category>, slug: string, c: Category)
    requires Ascending(cats, CategoryKey) && c in cats
    requires forall d :: d in cats && d.slug == Some(slug) ==> d == c
    ensures WithSlug(cats, slug) == (if c.slug == Some(slug) then [c] else [])
  {
    if cats[0] != c {
      assert c in cats[1..];
      WithSlugSingle(cats[1..], slug, c);
    } else {
      forall d | d in cats[1..] ensures d != c {
        var k :| 0 <= k < |cats[1..]| && cats[1..][k] == d;
        assert cats[k + 1] == d;
      }
      WithSlugNone(cats[1..], slug);
    }
  }

  lemma {:induction false} WithSlugNone(cats: seq<Category>, slug: string)
    requires forall d :: d in cats ==> d.slug != Some(slug)
    ensures WithSlug(cats, slug) == []
  {
    if cats != [] {
      assert forall d :: d in cats[1..] ==> d in cats;
      WithSlugNone(cats[1..], slug);
    }
  }

  /** In a table with unique keys, a slug that exactly one category carries finds that category. */
  lemma GetCategoryBySlugFinds(cats: seq<Category>, slug: string, c: Category)
    requires Ascending(cats, CategoryKey) && c in cats && c.slug == Some(slug)
    requires forall d :: d in cats && d.slug == Some(slug) ==> d == c
    ensures GetCategoryBySlug(cats, slug) == Ok(c)
  {
    WithSlugSingle(cats, slug, c);
  }

  // ---------------------------------------------------------------------
  // CategoryTreeView
  // ---------------------------------------------------------------------

  /** The title of the reserved "all" pseudo-category ("All products"). */
  const AllProductsTitle: string := "Барча маҳсулотлар"

  /**
   * `CategoryTreeView.get`: for "all", the fixed all-products record; for a
   * category with a parent, the parent's {title, id, slug} with the
   * category's own under "child"; for a root category, its own fields only.
   * The slug lookup's errors pass through, and a parent key with no row
   * behind it raises DoesNotExist.
   */
  method CategoryTree(cats: seq<Category>, slug: string) returns (r: Result<Value>)
    ensures slug == "all" ==>
      r == Ok(Object(map["title" := Str(AllProductsTitle), "id" := Str("all"), "slug" := Str("all")]))
    ensures slug != "all" && GetCategoryBySlug(cats, slug).Err? ==>
      r == Err(GetCategoryBySlug(cats, slug).error)
    ensures slug != "all" && GetCategoryBySlug(cats, slug).Ok? && GetCategoryBySlug(cats, slug).value.parent.None? ==>
      r == Ok(Object(CategoryRef(GetCategoryBySlug(cats, slug).value)))
      && "child" !in r.value.fields
    ensures slug != "all" && GetCategoryBySlug(cats, slug).Ok? && GetCategoryBySlug(cats, slug).value.parent.Some? ==>
      var c := GetCategoryBySlug(cats, slug).value;
      match Find(cats, CategoryKey, c.parent.value)
      case None => r == Err(DoesNotExist)
      case Some(p) =>
        && r.Ok? && r.value.Object? && r.value.fields.Keys == {"title", "id", "slug", "child"}
        && r.value.fields["title"] == Str(p.title)
        && r.value.fields["id"] == Int(c.parent.value)
        && r.value.fields["slug"] == Nullable(p.slug)
        && r.value.fields["child"] == Object(CategoryRef(c))
  {
    var resp: map<string, Value> := map[];
    if slug == "all" {
      resp := resp["title" := Str(AllProductsTitle)];
      resp := resp["id" := Str("all")];
      resp := resp["slug" := Str("all")];
      return Ok(Object(resp));
    }
    var obj := GetCategoryBySlug(cats, slug);
    if obj.Err? {
      return Err(obj.error);
    }
    var c := obj.value;
    if c.parent.Some? {
      var parent := Find(cats, CategoryKey, c.parent.value);
      if parent.None? {
        return Err(DoesNotExist);
      }
      var p := parent.value;
      resp := resp["title" := Str(p.title)];
      resp := resp["id" := Int(p.id)];
      resp := resp["slug" := Nullable(p.slug)];
      var child: map<string, Value> := map[];
      child := child["title" := Str(c.title)];
      child := child["id" := Int(c.id)];
      child := child["slug" := Nullable(c.slug)];
      resp := resp["child" := Object(child)];
    } else {
      resp := resp["title" := Str(c.title)];
      resp := resp["id" := Int(c.id)];
      resp := resp["slug" := Nullable(c.slug)];
      assert resp == CategoryRef(c);
    }
    r := Ok(Object(resp));
  }

  // ---------------------------------------------------------------------
  // BrandListView
  // ---------------------------------------------------------------------

  /** A brand whose category is `cat` itself or one of `cat`'s direct children. */
  ghost predicate InCategoryOrChild(cats: seq<Category>, cat: Id, b: Brand) {
    b.category.Some? &&
    (b.category.value == cat || exists k :: k in cats && k.parent == Some(cat) && k.id == b.category.value)
  }

  /** `queryset.filter(category_id__in=ids)`: a brand without a category never matches. */
  function BrandsIn(brands: seq<Brand>, ids: seq<Id>): (r: seq<Brand>)
    ensures forall b :: b in r <==> b in brands && b.category.Some? && b.category.value in ids
    ensures IsSubsequence(r, brands)
  {
    if brands == [] then []
    else if brands[0].category.Some? && brands[0].category.value in ids then [brands[0]] + BrandsIn(brands[1..], ids)
    else BrandsIn(brands[1..], ids)
  }

  /**
   * `BrandListView.get_queryset`. Without `cat` every brand is listed. With
   * `cat`, the category is fetched with `objects.get` (an unknown key raises
   * DoesNotExist, which the view does not turn into a 404), its key and its
   * direct children's keys are collected, and the brands in those
   * categories are kept in table order.
   */
  method BrandList(cats: seq<Category>, brands: seq<Brand>, cat: Option<int>) returns (r: Result<seq<Brand>>)
    ensures cat.None? ==> r == Ok(brands)
    ensures cat.Some? && (cat.value < 0 || !HasKey(cats, CategoryKey, cat.value)) ==> r == Err(DoesNotExist)
    ensures cat.Some? && cat.value >= 0 && HasKey(cats, CategoryKey, cat.value) ==>
      && r.Ok? && IsSubsequence(r.value, brands)
      && forall b :: b in r.value <==> b in brands && InCategoryOrChild(cats, cat.value, b)
  {
    if cat.None? {
      return Ok(brands);
    }
    if cat.value < 0 {
      return Err(DoesNotExist);
    }
    var id: Id := cat.value;
    var category := Find(cats, CategoryKey, id);
    if category.None? {
      return Err(DoesNotExist);
    }
    // A related manager is always truthy, so the children are always visited.
    var kids := Children(cats, category.value);
    var ids := [id];
    var i := 0;
    while i < |kids|
      invariant 0 <= i <= |kids|
      invariant forall x :: x in ids <==> x == id || exists j :: 0 <= j < i && kids[j].id == x
    {
      ids := ids + [kids[i].id];
      i := i + 1;
    }
    r := Ok(BrandsIn(brands, ids));
    forall b | b in brands && InCategoryOrChild(cats, id, b) ensures b in r.value {
      if b.category.value != id {
        var k :| k in cats && k.parent == Some(id) && k.id == b.category.value;
        assert k in kids;
        var j :| 0 <= j < |kids| && kids[j] == k;
      }
    }
  }

  /**
   * Scoping stops at direct children: a brand in any other category than
   * `cat` and its direct children (a grandchild, say) is not listed.
   */
  lemma BrandScopeExcludesGrandchildren(cats: seq<Category>, cat: Id, g: Category, b: Brand)
    requires Ascending(cats, CategoryKey)
    requires g in cats && g.id != cat && g.parent != Some(cat)
    requires b.category == Some(g.id)
    ensures !InCategoryOrChild(cats, cat, b)
  {
    if exists k :: k in cats && k.parent == Some(cat) && k.id == g.id {
      var k :| k in cats && k.parent == Some(cat) && k.id == g.id;
      AscendingUnique(cats, CategoryKey, k, g);
    }
  }

  // ---------------------------------------------------------------------
  // ProductDetailView
  // ---------------------------------------------------------------------

  /** A character the `slug` path converter accepts: `[-a-zA-Z0-9_]`. */
  predicate IsSlugChar(ch: char) {
    'a' <= ch <= 'z' || 'A' <= ch <= 'Z' || '0' <= ch <= '9' || ch == '-' || ch == '_'
  }

  /** A path segment the `slug` converter matches. */
  predicate IsSlug(t: string) {
    |t| > 0 && forall i :: 0 <= i < |t| ==> IsSlugChar(t[i])
  }

  predicate AllDigits(t: string) {
    forall i :: 0 <= i < |t| ==> '0' <= t[i] <= '9'
  }

  /** `str.isnumeric()` on a slug: non-empty and every character a decimal digit. */
  predicate IsNumeric(t: string) {
    |t| > 0 && AllDigits(t)
  }

  /** The integer a string of decimal digits denotes (leading zeros allowed). */
  function DigitsValue(t: string): nat
    requires AllDigits(t)
  {
    if t == [] then 0 else 10 * DigitsValue(t[..|t| - 1]) + (t[|t| - 1] as int - '0' as int)
  }

  /** The decimal numeral of `n`, without leading zeros. */
  function Decimal(n: nat): (r: string)
    ensures IsNumeric(r) && IsSlug(r)
  {
    if n < 10 then ['0' + n as char]
    else Decimal(n / 10) + ['0' + (n % 10) as char]
  }

  lemma {:induction false} DigitsValueDecimal(n: nat)
    ensures DigitsValue(Decimal(n)) == n
  {
    if n >= 10 {
      var d := Decimal(n);
      assert d[..|d| - 1] == Decimal(n / 10);
      DigitsValueDecimal(n / 10);
    }
  }

  /** The lookup `get_object` makes: by key for a numeric token, by slug otherwise. */
  predicate MatchesToken(p: Product, token: string)
    requires IsSlug(token)
  {
    if IsNumeric(token) then p.id == DigitsValue(token) else p.slug == token
  }

  function Matching(products: seq<Product>, token: string): (r: seq<Product>)
    requires IsSlug(token)
    ensures forall p :: p in r <==> p in products && MatchesToken(p, token)
    ensures IsSubsequence(r, products)
  {
    if products == [] then []
    else if MatchesToken(products[0], token) then [products[0]] + Matching(products[1..], token)
    else Matching(products[1..], token)
  }

  /**
   * `ProductDetailView.get_object`: the first product (in key order) that
   * the token matches, or Http404 when none does.
   */
  function ProductDetail(products: seq<Product>, token: string): (r: Result<Product>)
    requires IsSlug(token)
    ensures r.Ok? ==> r.value in products && MatchesToken(r.value, token)
    ensures r.Err? <==> forall p :: p in products ==> !MatchesToken(p, token)
    ensures r.Err? ==> r.error == Http404
  {
    var m := Matching(products, token);
    if m == [] then Err(Http404)
    else
      assert m[0] in m;
      Ok(m[0])
  }

  /** `.first()` orders by key: among the matching products the result has the smallest key. */
  lemma ProductDetailLowestKey(products: seq<Product>, token: string)
    requires IsSlug(token) && Ascending(products, ProductKey)
    requires ProductDetail(products, token).Ok?
    ensures forall q :: q in products && MatchesToken(q, token) ==> ProductDetail(products, token).value.id <= q.id
  {
    var m := Matching(products, token);
    SubsequenceAscending(m, products, ProductKey);
    forall q | q in products && MatchesToken(q, token) ensures m[0].id <= q.id {
      var j :| 0 <= j < |m| && m[j] == q;
    }
  }

  /** Every product is reached through the decimal numeral of its key. */
  lemma ProductDetailById(products: seq<Product>, p: Product)
    requires Ascending(products, ProductKey) && p in products
    ensures ProductDetail(products, Decimal(p.id)) == Ok(p)
  {
    var token := Decimal(p.id);
    DigitsValueDecimal(p.id);
    assert MatchesToken(p, token);
    var q := ProductDetail(products, token).value;
    AscendingUnique(products, ProductKey, p, q);
  }

  // ---------------------------------------------------------------------
  // OrdersView
  // ---------------------------------------------------------------------

  /** `Order.objects.filter(customer=request.user)`, in table order. */
  function OrdersOf(orders: seq<Order>, user: Id): (r: seq<Order>)
    ensures forall o :: o in r <==> o in orders && o.customer == Some(user)
    ensures IsSubsequence(r, orders)
  {
    if orders == [] then []
    else if orders[0].customer == Some(user) then [orders[0]] + OrdersOf(orders[1..], user)
    else OrdersOf(orders[1..], user)
  }

  /**
   * A newly created order is listed last for its customer and for nobody
   * else; every other listing is unchanged.
   */
  lemma {:induction false} OrdersOfAfterCreate(orders: seq<Order>, o: Order, user: Id)
    ensures OrdersOf(orders + [o], user) == OrdersOf(orders, user) + (if o.customer == Some(user) then [o] else [])
  {
    if orders == [] {
      assert orders + [o] == [o];
    } else {
      assert (orders + [o])[0] == orders[0] && (orders + [o])[1..] == orders[1..] + [o];
      OrdersOfAfterCreate(orders[1..], o, user);
    }
  }

  // ---------------------------------------------------------------------
  // UserRegisterView
  // ---------------------------------------------------------------------

  /** The request fields the registration reads; an absent field is None. */
  datatype RegisterData = RegisterData(username: Option<string>, password: Option<string>, phone: Option<string>)

  /** A response body and its HTTP status. */
  datatype Response = Response(body: string, status: int)

  /** "Error". */
  const ErrorMessage: string := "Хатолик"
  /** "Such a user exists". */
  const UserExistsMessage: string := "Бундай фойдаланувчи мавжуд"
  /** "Registered successfully". */
  const RegisteredMessage: string := "Мувоффаққиятли рўйхатдан ўтилди"

  /** Python truthiness of `data.get(...)`: present and non-empty. */
  predicate Given(s: Option<string>) {
    s.Some? && s.value != ""
  }

  /**
   * `UserRegisterView.post`. `makePassword` stands for `set_password`'s
   * salted hash. Missing username or password: "Error" with status 200 and
   * no change. Taken username: 409 and no change. Otherwise one new user
   * with that username and the hashed password, a profile for it exactly
   * when a phone was given, and 201.
   */
  method UserRegister(db: Database, data: RegisterData, makePassword: string -> string) returns (resp: Response)
    requires db.Valid()
    modifies db`users, db`nextUserId, db`profiles, db`nextProfileId
    ensures db.Valid()
    ensures !(Given(data.username) && Given(data.password)) ==>
      resp == Response(ErrorMessage, 200) && unchanged(db)
    ensures Given(data.username) && Given(data.password) && (exists u :: u in old(db.users) && u.username == data.username.value) ==>
      resp == Response(UserExistsMessage, 409) && unchanged(db)
    ensures Given(data.username) && Given(data.password) && (forall u :: u in old(db.users) ==> u.username != data.username.value) ==>
      && resp == Response(RegisteredMessage, 201)
      && db.users == old(db.users) + [User(old(db.nextUserId), data.username.value, makePassword(data.password.value), "", "", "")]
      && db.profiles == (if Given(data.phone)
                         then old(db.profiles) + [Profile(old(db.nextProfileId), old(db.nextUserId), data.phone.value)]
                         else old(db.profiles))
      && db.nextUserId == old(db.nextUserId) + 1
      && db.nextProfileId == old(db.nextProfileId) + (if Given(data.phone) then 1 else 0)
  {
    if !(Given(data.username) && Given(data.password)) {
      return Response(ErrorMessage, 200);
    }
    var username := data.username.value;
    if exists u :: u in db.users && u.username == username {
      return Response(UserExistsMessage, 409);
    }
    forall q | q in db.profiles ensures q.user != db.nextUserId {
      var w :| w in db.users && UserKey(w) == q.user;
    }
    var user := db.InsertUser(username, makePassword(data.password.value));
    if Given(data.phone) {
      assert user in db.users;
      var _ := db.InsertProfile(user.id, data.phone.value);
    }
    resp := Response(RegisteredMessage, 201);
  }
}
