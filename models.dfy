/**
 * Rows of the catalogue and shop tables (apps/app/models.py and the store
 * app's migrations), the lookups the views and serializers make on them, and
 * the django-mptt `get_family` query on categories.
 *
 * Every table is a sequence of rows in insertion order; auto-increment keys
 * make that ascending primary-key order, which `Ascending` states.
 */
module Models {

  datatype Option<+T> = None | Some(value: T)

  /** The exceptions the modelled code raises or lets escape. */
  datatype Error =
    | Http404                  // raised explicitly or by get_object_or_404; answered with 404
    | DoesNotExist             // Model.objects.get found no row; not handled (500)
    | MultipleObjectsReturned  // get_object_or_404 found several rows; not handled (500)
    | KeyError(key: string)    // dict.pop of an absent key; not handled (500)

  datatype Result<+T> = Ok(value: T) | Err(error: Error)

  /** An auto-increment primary key. */
  type Id = nat

  datatype Category = Category(
    id: Id, title: string, isUrl: bool, url: Option<string>,
    slug: Option<string>, parent: Option<Id>, tree: bool)

  datatype Brand = Brand(id: Id, title: string, category: Option<Id>)

  datatype Product = Product(
    id: Id, title: string, slug: string, description: string,
    category: Id, brand: Id)

  datatype SpecificationType = SpecificationType(id: Id, name: string)

  datatype Specification = Specification(
    id: Id, product: Id, specificationType: Id, name: string, info: string)

  datatype Review = Review(id: Id, product: Id, author: Id, rate: int, comment: string)

  datatype User = User(
    id: Id, username: string, password: string,
    email: string, firstName: string, lastName: string)

  datatype Profile = Profile(id: Id, user: Id, phoneNumber: string)

  /** The four order states; a new order is `Pending`. */
  datatype OrderStatus = Pending | InProcess | Delivered | Cancelled

  /** Float columns (`total_price`) are carried as opaque `real` values: nothing computes on them. */
  datatype Order = Order(
    id: Id, customer: Option<Id>, totalPrice: real,
    additionalInfo: string, status: OrderStatus)

  datatype CartItem = CartItem(id: Id, order: Id, product: Id, quantity: int, totalPrice: real)

  function CategoryKey(c: Category): Id { c.id }
  function BrandKey(b: Brand): Id { b.id }
  function ProductKey(p: Product): Id { p.id }
  function SpecificationTypeKey(s: SpecificationType): Id { s.id }
  function SpecificationKey(s: Specification): Id { s.id }
  function UserKey(u: User): Id { u.id }
  function ProfileKey(p: Profile): Id { p.id }
  function OrderKey(o: Order): Id { o.id }
  function CartItemKey(c: CartItem): Id { c.id }
  function ProfileUserKey(p: Profile): Id { p.user }

  /** Rows are in strictly ascending primary-key order. */
  ghost predicate Ascending<T>(s: seq<T>, key: T -> Id) {
    forall i, j :: 0 <= i < j < |s| ==> key(s[i]) < key(s[j])
  }

  /** Rows are in strictly descending primary-key order. */
  ghost predicate Descending<T>(s: seq<T>, key: T -> Id) {
    forall i, j :: 0 <= i < j < |s| ==> key(s[i]) > key(s[j])
  }

  /** Some row has `key` equal to `id`. */
  ghost predicate HasKey<T>(s: seq<T>, key: T -> Id, id: Id) {
    exists x :: x in s && key(x) == id
  }

  /** The position of the first row whose `key` is `id`. */
  function IndexOf<T>(s: seq<T>, key: T -> Id, id: Id): (r: Option<nat>)
    ensures r.Some? ==> r.value < |s| && key(s[r.value]) == id
    ensures r.Some? ==> forall j :: 0 <= j < r.value ==> key(s[j]) != id
    ensures r.None? <==> forall x :: x in s ==> key(x) != id
  {
    if s == [] then None
    else if key(s[0]) == id then Some(0)
    else match IndexOf(s[1..], key, id)
      case None => None
      case Some(k) => Some(k + 1)
  }

  /** The row with primary key `id`: what `Model.objects.get(pk=id)` and a foreign-key fetch read. */
  function Find<T>(s: seq<T>, key: T -> Id, id: Id): (r: Option<T>)
    ensures r.Some? ==> r.value in s && key(r.value) == id
    ensures r.None? <==> !HasKey(s, key, id)
  {
    match IndexOf(s, key, id)
    case None => None
    case Some(k) => Some(s[k])
  }

  /** Ascending keys are unique keys: two rows with the same key are the same row. */
  lemma AscendingUnique<T>(s: seq<T>, key: T -> Id, x: T, y: T)
    requires Ascending(s, key) && x in s && y in s && key(x) == key(y)
    ensures x == y
  {
    var i :| 0 <= i < |s| && s[i] == x;
    var j :| 0 <= j < |s| && s[j] == y;
    assert !(i < j) && !(j < i);
  }

  /** `a` is `b` with some rows dropped and the rest kept in order. */
  ghost predicate IsSubsequence<T>(a: seq<T>, b: seq<T>)
    decreases |b|
  {
    a == [] || (b != [] && ((a[0] == b[0] && IsSubsequence(a[1..], b[1..])) || IsSubsequence(a, b[1..])))
  }

  lemma {:induction false} SubsequenceMembers<T>(a: seq<T>, b: seq<T>)
    requires IsSubsequence(a, b)
    ensures forall x :: x in a ==> x in b
    decreases |b|
  {
    if a != [] {
      if a[0] == b[0] && IsSubsequence(a[1..], b[1..]) {
        SubsequenceMembers(a[1..], b[1..]);
        forall x | x in a ensures x in b {
          if x != a[0] { assert x in a[1..]; }
        }
      } else {
        SubsequenceMembers(a, b[1..]);
      }
    }
  }

  /** Dropping rows keeps the primary keys ascending. */
  lemma {:induction false} SubsequenceAscending<T>(a: seq<T>, b: seq<T>, key: T -> Id)
    requires IsSubsequence(a, b) && Ascending(b, key)
    ensures Ascending(a, key)
    decreases |b|
  {
    if a != [] {
      if a[0] == b[0] && IsSubsequence(a[1..], b[1..]) {
        SubsequenceAscending(a[1..], b[1..], key);
        SubsequenceMembers(a[1..], b[1..]);
        forall j | 0 < j < |a| ensures key(a[0]) < key(a[j]) {
          assert a[j] == a[1..][j - 1];
          assert a[j] in b[1..];
          var k :| 0 <= k < |b[1..]| && b[1..][k] == a[j];
          assert b[k + 1] == a[j];
        }
      } else {
        SubsequenceAscending(a, b[1..], key);
      }
    }
  }

  // ---------------------------------------------------------------------
  // Category tree: django-mptt's `get_family`
  // ---------------------------------------------------------------------

  /**
   * The ancestors of `c`, root first, ending with `c`'s parent. The walk up
   * the parent links takes at most `fuel` steps; it stops early only at a
   * root, or at a parent key with no row behind it.
   */
  function Ancestors(cats: seq<Category>, c: Category, fuel: nat): (r: seq<Category>)
    ensures |r| <= fuel
    ensures forall a :: a in r ==> a in cats
    ensures r != [] ==> c.parent == Some(r[|r| - 1].id)
    ensures forall i :: 0 < i < |r| ==> r[i].parent == Some(r[i - 1].id)
    ensures fuel > 0 && c.parent.Some? && HasKey(cats, CategoryKey, c.parent.value) ==> r != []
    ensures r != [] && |r| < fuel ==> r[0].parent.None? || !HasKey(cats, CategoryKey, r[0].parent.value)
    decreases fuel
  {
    if fuel == 0 || c.parent.None? then []
    else
      match Find(cats, CategoryKey, c.parent.value)
      case None => []
      case Some(p) => Ancestors(cats, p, fuel - 1) + [p]
  }

  /** The direct children of `c`, in table order (`c.children.all()`). */
  function Children(cats: seq<Category>, c: Category): (r: seq<Category>)
    ensures forall k :: k in r <==> k in cats && k.parent == Some(c.id)
    ensures IsSubsequence(r, cats)
  {
    if cats == [] then []
    else if cats[0].parent == Some(c.id) then [cats[0]] + Children(cats[1..], c)
    else Children(cats[1..], c)
  }

  /**
   * `d` lies in the subtree of `c`, at most `n` parent links below it: it is
   * a child of `c`, or lies below one.
   */
  ghost predicate Below(cats: seq<Category>, d: Category, c: Category, n: nat)
    decreases n
  {
    n > 0 && exists k :: k in cats && k.parent == Some(c.id) && (d == k || Below(cats, d, k, n - 1))
  }

  /** The descendants of `c` in tree (pre-)order, at most `fuel` levels deep. */
  function Descendants(cats: seq<Category>, c: Category, fuel: nat): (r: seq<Category>)
    ensures forall d :: d in r ==> d in cats && d.parent.Some?
    ensures forall d :: d in r <==> d in cats && Below(cats, d, c, fuel)
    decreases fuel, 0
  {
    if fuel == 0 then [] else Subtrees(cats, Children(cats, c), fuel - 1)
  }

  /** Each of `kids` followed by its own descendants. */
  function Subtrees(cats: seq<Category>, kids: seq<Category>, fuel: nat): (r: seq<Category>)
    requires forall k :: k in kids ==> k in cats && k.parent.Some?
    ensures forall d :: d in r ==> d in cats && d.parent.Some?
    ensures forall d :: d in r <==> d in cats && exists k :: k in kids && (d == k || Below(cats, d, k, fuel))
    decreases fuel, 1, |kids|
  {
    if kids == [] then []
    else
      var below := Descendants(cats, kids[0], fuel);
      var rest := Subtrees(cats, kids[1..], fuel);
      SubtreesMembers(cats, kids, fuel, below, rest);
      [kids[0]] + below + rest
  }

  /** The membership step of `Subtrees`: the first kid, its descendants, then the later kids' subtrees. */
  lemma SubtreesMembers(cats: seq<Category>, kids: seq<Category>, fuel: nat, below: seq<Category>, rest: seq<Category>)
    requires kids != [] && kids[0] in cats
    requires forall d :: d in below <==> d in cats && Below(cats, d, kids[0], fuel)
    requires forall d :: d in rest <==> d in cats && exists k :: k in kids[1..] && (d == k || Below(cats, d, k, fuel))
    ensures forall d :: d in [kids[0]] + below + rest <==>
      d in cats && exists k :: k in kids && (d == k || Below(cats, d, k, fuel))
  {
    forall d ensures d in [kids[0]] + below + rest <==>
      d in cats && exists k :: k in kids && (d == k || Below(cats, d, k, fuel))
    {
      assert kids[0] in kids;
      if d in rest {
        var k :| k in kids[1..] && (d == k || Below(cats, d, k, fuel));
        assert k in kids;
      }
      if d in cats && exists k :: k in kids && (d == k || Below(cats, d, k, fuel)) {
        var k :| k in kids && (d == k || Below(cats, d, k, fuel));
        if k != kids[0] {
          assert k in kids[1..];
        }
      }
    }
  }

  /**
   * `c.get_family()`: the ancestors, the category itself and its
   * descendants, in tree order. The result runs down parent links to `c`
   * and continues with exactly the categories below `c`. The walk up is
   * bounded by `|cats|`; for a category of the table that bound is reached
   * only when the parent chain repeats a row (a cycle), so on a tree the
   * result starts at a root.
   */
  function Family(cats: seq<Category>, c: Category): (r: seq<Category>)
    ensures var k := |Ancestors(cats, c, |cats|)|;
      && k < |r| && r[k] == c
      && (forall i :: 0 < i <= k ==> r[i].parent == Some(r[i - 1].id))
      && (k < |cats| ==> r[0].parent.None? || !HasKey(cats, CategoryKey, r[0].parent.value))
      && (c in cats && Distinct(r[..k + 1]) ==> r[0].parent.None? || !HasKey(cats, CategoryKey, r[0].parent.value))
      && (forall x :: x in r[k + 1..] <==> x in cats && Below(cats, x, c, |cats|))
    ensures forall x :: x in r ==> x in cats || x == c
  {
    var up := Ancestors(cats, c, |cats|);
    AncestorsBoundOnlyOnCycle(cats, c);
    var r := up + [c] + Descendants(cats, c, |cats|);
    assert r[..|up| + 1] == up + [c];
    r
  }

  /** No element of `s` occurs twice. */
  ghost predicate Distinct<T>(s: seq<T>) {
    forall i, j :: 0 <= i < j < |s| ==> s[i] != s[j]
  }

  /** Pigeonhole: a sequence without repeats drawn from `t` is no longer than `t`. */
  lemma {:induction false} DistinctWithin<T>(s: seq<T>, t: seq<T>)
    requires Distinct(s)
    requires forall x :: x in s ==> x in t
    ensures |s| <= |t|
    decreases |s|
  {
    if s != [] {
      assert s[0] in s;
      var i :| 0 <= i < |t| && t[i] == s[0];
      var u := t[..i] + t[i + 1..];
      forall x | x in s[1..] ensures x in u {
        var j :| 0 <= j < |s[1..]| && s[1..][j] == x;
        assert s[j + 1] == x && x in s && x in t;
        var m :| 0 <= m < |t| && t[m] == x;
        if m < i {
          assert u[m] == x;
        } else {
          assert u[m - 1] == x;
        }
      }
      assert Distinct(s[1..]) by {
        forall a, b | 0 <= a < b < |s[1..]| ensures s[1..][a] != s[1..][b] {
          assert s[1..][a] == s[a + 1] && s[1..][b] == s[b + 1];
        }
      }
      DistinctWithin(s[1..], u);
    }
  }

  /**
   * The `|cats|` bound on the walk up from a category of the table bites
   * only on a cycle: a chain that long, followed by the category, repeats a row.
   */
  lemma AncestorsBoundOnlyOnCycle(cats: seq<Category>, c: Category)
    ensures c in cats && |Ancestors(cats, c, |cats|)| == |cats| ==> !Distinct(Ancestors(cats, c, |cats|) + [c])
  {
    var s := Ancestors(cats, c, |cats|) + [c];
    if c in cats && Distinct(s) {
      DistinctWithin(s, cats);
    }
  }

  /**
   * For a category with no children whose parent is a root category, the
   * family is exactly [parent, category].
   */
  lemma {:induction false} FamilyOfLeafUnderRoot(cats: seq<Category>, p: Category, c: Category)
    requires c in cats
    requires c.parent == Some(p.id) && Find(cats, CategoryKey, p.id) == Some(p)
    requires p.parent.None? && Children(cats, c) == []
    ensures Family(cats, c) == [p, c]
  {
    var n := |cats|;
    AncestorsOfChildOfRoot(cats, p, c, n);
    DescendantsOfLeaf(cats, c, n);
  }

  lemma AncestorsOfChildOfRoot(cats: seq<Category>, p: Category, c: Category, n: nat)
    requires n > 0
    requires c.parent == Some(p.id) && Find(cats, CategoryKey, p.id) == Some(p) && p.parent.None?
    ensures Ancestors(cats, c, n) == [p]
  {
    assert Ancestors(cats, p, n - 1) == [];
  }

  lemma DescendantsOfLeaf(cats: seq<Category>, c: Category, n: nat)
    requires Children(cats, c) == []
    ensures Descendants(cats, c, n) == []
  {
    if n > 0 {
      assert Descendants(cats, c, n) == Subtrees(cats, [], n - 1);
    }
  }
}
