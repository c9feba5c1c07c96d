# E-commerce REST core, modelled in Dafny

This project models the request-handling and serialization logic of a small
Django REST catalogue and shop. The shop has categories arranged in a tree,
brands, products with specifications, orders with cart items, and users with
phone-number profiles. The ORM is replaced by an in-memory store.

- `models.dfy` (module `Models`) holds the rows and the lookups the code makes on them.
  - Every table is a sequence of rows in insertion order. Auto-increment keys make that ascending key order.
  - `Find` is `objects.get(pk=...)` and a foreign-key fetch.
  - `Family` is django-mptt's `get_family()`: ancestors, the category itself, then its descendants.
  - `Result` carries the exceptions that escape: `Http404`, `DoesNotExist`, `MultipleObjectsReturned` and `KeyError`.
- `json.dfy` (module `Json`) holds the dict, list and scalar values the views build, and Python truthiness and `or`.
- `store.dfy` (module `Store`) holds the class `Database`.
  - It has one `seq` field per table and the next auto-increment key of each table that is written to.
  - `Valid()` holds when keys ascend in the tables the code reads in key order and in the four tables it writes. In the written tables the keys also stay below the next key. Usernames are unique, a user has at most one profile, and the foreign keys the writes rely on exist.
  - Its insert and update methods are the ORM `save()` and `objects.create(...)` calls.
- `serializers.dfy` (module `Serializers`) covers the ProductSerializer method fields and the cart-item representation. It also covers the two write paths: order creation and the user/profile save.
- `views.dfy` (module `Views`) covers:
  - the root-category list;
  - the category "root" view, with its reserved `all` sentinel;
  - brand scoping to a category and its direct children;
  - product lookup by numeric key or by slug;
  - the per-customer order list;
  - user registration.

Read-only lookups and projections are functions over the tables they read. The two views that build their result step by step are methods without a `modifies` clause: `CategoryTree` fills a dict field by field and `BrandList` appends keys in a loop. The three write paths change the `Database` in place and state its whole new state. These are order creation, the user save and registration.

`category_root` is built from `get_family()`. That call includes the category's descendants as well as its ancestors, so `category_root` lists the ancestors from the root down, then the category, then every category below it. `GetCategoryRoot` places the category's own entry right after its ancestors' entries.

`get_brand` ends in `or None`, but a non-empty dict is always truthy. `Serializers.GetBrand` proves that this branch is never taken.

## Model

| member | source | states |
|---|---|---|
| Models.IndexOf | apps/restful/views.py:65 | the position of the first row with the key, if any; none exactly when no row has it |
| Models.Find | apps/restful/views.py:65 | `objects.get(pk=id)`: the row returned has that key; no row exactly when the key is absent |
| Models.AscendingUnique | apps/store/migrations/0002_auto_20181223_2345.py:27 | in a table with ascending auto-increment keys, two rows with the same key are the same row |
| Models.Children | apps/restful/views.py:68 | `category.children.all()`: exactly the categories whose parent is the given one, in table order |
| Models.Ancestors | apps/restful/serializers.py:92 | the ancestor chain ending with the parent, every link a parent link of the table; non-empty when the parent row exists; within the bound it starts at a root (or at a parent key with no row) |
| Models.Below | apps/restful/serializers.py:92 | a category lies in another's subtree: it is a child of it or lies below a child, within a depth bound |
| Models.Descendants | apps/restful/serializers.py:92 | exactly the categories of the table below the category, within the depth bound |
| Models.Subtrees | apps/restful/serializers.py:92 | exactly the given children and the categories below any of them |
| Models.SubtreesMembers | apps/restful/serializers.py:92 | one child, its descendants and the other children's subtrees together are the children's subtrees |
| Models.Family | apps/restful/serializers.py:92 | `get_family()`: a chain of parent links down to the category, followed by exactly the categories below it (within the depth bound of one step per category); the chain starts at a root (or a dangling parent key) whenever it is shorter than the bound or, for a category of the table, repeats no row |
| Models.DistinctWithin | apps/restful/serializers.py:92 | pigeonhole: a parent chain without repeated rows, drawn from the table, is no longer than the table |
| Models.AncestorsBoundOnlyOnCycle | apps/restful/serializers.py:92 | the bound of one step per category on the walk up from a category of the table is reached only when the chain plus the category repeats a row, i.e. only on a cycle |
| Models.AncestorsOfChildOfRoot | apps/restful/serializers.py:92 | the ancestors of a child of a root category are just that root |
| Models.DescendantsOfLeaf | apps/restful/serializers.py:92 | a category without children has no descendants |
| Models.FamilyOfLeafUnderRoot | apps/restful/serializers.py:92 | a childless category under a root category has family exactly [root, category] |
| Json.Truthy | apps/restful/serializers.py:100 | Python truthiness: None, 0, 0.0, empty string, list and dict are false |
| Json.Or | apps/restful/serializers.py:100 | Python `a or b`: one of the two operands; truthy exactly when either operand is; a falsy result is always `b` |
| Store.AppendAscending | apps/store/migrations/0002_auto_20181223_2345.py:27 | appending a row with the next auto-increment key keeps keys ascending and below the advanced counter |
| Store.Database.constructor | apps/app/models.py:8-30 | a valid store holding the given catalogue tables and no users, profiles, orders or cart items |
| Store.Database.InsertUser | apps/restful/views.py:154-157 | `user.save()` of a new user appends exactly one row with the next key and keeps the store valid |
| Store.Database.UpdateUser | apps/restful/serializers.py:151 | saving a user replaces only that row and keeps the store valid |
| Store.Database.InsertProfile | apps/restful/views.py:159 | `Profile(...).save()` appends one profile for a user without one and keeps the store valid |
| Store.Database.UpdateProfilePhone | apps/restful/serializers.py:152 | updating a profile changes only its phone number |
| Store.Database.InsertOrder | apps/restful/serializers.py:180 | `Order.objects.create` appends exactly one order with the next key |
| Store.Database.InsertCartItem | apps/restful/serializers.py:182 | `CartItem.objects.create` appends exactly one cart item with the next key |
| Serializers.ShortDescription | apps/restful/serializers.py:61-62 | a prefix of the description of length min(50, length); the whole description when it is at most 50 long |
| Serializers.SpecificationsOf | apps/restful/serializers.py:50 | exactly the product's specifications, in table order |
| Serializers.SpecificationEntry | apps/restful/serializers.py:50 | {specification_type: the specification type's name, info: the info text} |
| Serializers.SpecificationEntries | apps/restful/serializers.py:50 | one {specification_type, info} entry per specification, in order |
| Serializers.Specifications | apps/restful/serializers.py:49-50 | one entry per specification of the product, each built from a specification of that product |
| Serializers.SpecificationsByKey | apps/restful/serializers.py:50 | the specifications listed are the product's, each once, in ascending key order (`order_by('pk')`) |
| Serializers.CategoryRef | apps/restful/serializers.py:87-91 | the {id, slug, title} dict of one category |
| Serializers.CategoryRoot | apps/restful/serializers.py:86-93 | the list comprehension maps each category to {id, slug, title}, preserving length and order |
| Serializers.GetCategoryRoot | apps/restful/serializers.py:85-93 | one {id, slug, title} entry per family member, in family order; the entry after the ancestors' is the product's own category |
| Serializers.GetBrand | apps/restful/serializers.py:96-100 | always {title, id} of the product's brand, never null: the `or None` branch cannot be taken |
| Serializers.CartItemFields | apps/restful/serializers.py:162 | the default ModelSerializer output for product, quantity and total_price |
| Serializers.CartItemRepresentation | apps/restful/serializers.py:161-164 | the default fields with `product` replaced by the product's title; quantity and total price unchanged |
| Serializers.HasUserId | apps/restful/serializers.py:177 | `if request.user.id:`: the requester has an id and it is not 0 |
| Serializers.NewCartItems | apps/restful/serializers.py:181-182 | one cart item per submitted item, in submission order, keys counting up, each pointing at the order |
| Serializers.NewCartItemsSnoc | apps/restful/serializers.py:181-182 | creating one more item extends the created rows by exactly that row |
| Serializers.CreateCartItems | apps/restful/serializers.py:181-182 | the loop appends exactly the rows `NewCartItems` names and keeps cart-item keys and foreign keys valid |
| Serializers.OrderCreate | apps/restful/serializers.py:175-183 | one new Pending order, whose customer is the requester exactly when the requester has an id; then the submitted cart items; the order counter advances by one and the cart-item counter by the number of items; no other table changes |
| Serializers.ItemsOfOrder | apps/store/migrations/0002_auto_20181223_2345.py:34-38 | `order.cart_items`: exactly the cart items pointing at the order, in table order |
| Serializers.ItemsOfOrderAppend | apps/store/migrations/0002_auto_20181223_2345.py:34-38 | the cart items of an order in a concatenation are those of each part, concatenated |
| Serializers.NewOrderItems | apps/restful/serializers.py:180-182 | after `create`, the new order's cart items are exactly the N submitted ones, in submission order |
| Serializers.FreshOrderHasNoItems | apps/restful/serializers.py:180 | in a valid store no existing cart item points at the key the new order receives |
| Serializers.ApplyUserInput | apps/restful/serializers.py:142-151 | the submitted email and names are written; key, username and password are kept |
| Serializers.UpsertProfile | apps/restful/serializers.py:152 | `update_or_create`: the user's profile gets the phone, or one is created; afterwards the user has a profile and every profile of the user holds the phone |
| Serializers.UserSave | apps/restful/serializers.py:149-152 | without `profile`, KeyError and nothing changes; otherwise the user is updated and the user's profile is updated or created with the phone, and every profile of the user holds it; no username changes; the profile counter advances only when a profile is created |
| Views.RootCategories | apps/restful/views.py:15 | exactly the categories without a parent |
| Views.RootCategoriesNewestFirst | apps/restful/views.py:15 | the root-category list is in descending key order (`order_by('-pk')`) |
| Views.WithSlug | apps/restful/views.py:40 | exactly the categories with the slug |
| Views.GetCategoryBySlug | apps/restful/views.py:40 | `get_object_or_404`: the only category with the slug; Http404 exactly when none has it; otherwise MultipleObjectsReturned |
| Views.WithSlugSingle | apps/restful/views.py:40 | with unique keys, a slug carried by one category selects just that category |
| Views.WithSlugNone | apps/restful/views.py:40 | a slug no category carries selects nothing |
| Views.GetCategoryBySlugFinds | apps/restful/views.py:40 | a slug carried by exactly one category finds it |
| Views.CategoryTree | apps/restful/views.py:31-53 | "all" gives the fixed {title, id "all", slug "all"} record without a lookup; a child gives the parent's fields plus "child"; a root gives its own fields and no "child"; lookup errors pass through |
| Views.InCategoryOrChild | apps/restful/views.py:66-70 | a brand whose category is `cat` or a direct child of `cat` |
| Views.BrandsIn | apps/restful/views.py:70 | `filter(category_id__in=ids)`: exactly the brands with a category among the ids, in table order |
| Views.BrandList | apps/restful/views.py:61-71 | no `cat`: all brands; unknown `cat`: DoesNotExist (not a 404); otherwise exactly the brands in `cat` or a direct child of it |
| Views.BrandScopeExcludesGrandchildren | apps/restful/views.py:66-70 | a brand in a grandchild (or any category other than `cat` and its direct children) is not listed |
| Views.IsNumeric | apps/restful/views.py:93 | `str.isnumeric()` on a slug path segment: non-empty and all decimal digits |
| Views.DigitsValue | apps/restful/views.py:94 | the key a digits-only token converts to (leading zeros allowed) |
| Views.MatchesToken | apps/restful/views.py:93-96 | a numeric token matches the product with that key, any other token the product with that slug |
| Views.Decimal | apps/restful/views.py:93-94 | a decimal numeral is numeric and a valid slug path segment |
| Views.DigitsValueDecimal | apps/restful/views.py:93-94 | the key looked up for a numeral is the number it denotes |
| Views.Matching | apps/restful/views.py:93-97 | a numeric token matches by key, any other by slug |
| Views.ProductDetail | apps/restful/views.py:91-101 | a product matching the token; Http404 exactly when none matches |
| Views.ProductDetailLowestKey | apps/restful/views.py:99 | `.first()`: the product returned has the smallest key among the matches |
| Views.ProductDetailById | apps/restful/views.py:93-94 | every product is found through the numeral of its key |
| Views.OrdersOf | apps/restful/views.py:128-129 | exactly the requester's orders, in table order |
| Views.OrdersOfAfterCreate | apps/restful/views.py:129 | a new order is listed last for its customer only; every other listing is unchanged |
| Views.Given | apps/restful/views.py:150-158 | truthiness of `data.get(...)`: present and non-empty |
| Views.UserRegister | apps/restful/views.py:146-162 | missing username or password: "Хатолик", 200, no change; taken username: 409, no change; otherwise one new user with the hashed password, a profile exactly when a phone is given, 201; the user counter advances by one and the profile counter by one exactly when a profile is created |

## Left out

- Token obtain, refresh and verify endpoints and URL routing. They belong to the JWT library and to framework configuration. The path converters appear only as `IsSlug`, a precondition of `ProductDetail`.
- `BrandList` takes `cat` as an already converted integer. Django's conversion of the query string, and the error it raises for a non-numeric value, are not modelled.
- Search, filter, ordering and pagination backends, and `ProductFilter` and `WithTotalPagesCountPagination`: they are library code, and the two classes are not part of this model. So is the `DenyListAllowCreate` permission; `OrdersOf` takes the requester as an authenticated user's key.
- Image URLs, thumbnails and the reviews link. They depend on request URIs and model methods that are not part of this model.
- The price-with-currency formatting, `qty_rev`, the review date format and the recursive `children` of the category serializer. These are library formatting or plain counts. The remaining product and category fields are copied columns.
- The order-status label (`get_order_status` is not part of this model). The status is kept as the stored choice.
- `total_price` columns are floats. They are carried as opaque `real` values and nothing computes on them.
- `ProductAvailableListView` only echoes its input. It and every `print` call are I/O only.
- Request payload values are modelled as strings or absent. Non-string JSON values in a registration or user payload are not modelled.
- The user serializer's field validation and the order serializer's nested validation happen before the modelled code. Their results are the inputs (`UserInput`, `OrderInput`).
- `set_password` draws a random salt. The hash is the parameter `makePassword` of `UserRegister`.
- `Order.customer` is NOT NULL in migration 0002. The code leaves it unset for an anonymous requester, which the database would reject. The model keeps the customer optional so that this path is stated, and it does not model the integrity error.
- Cascade and SET_NULL deletion, transactions and concurrent requests. No modelled operation deletes rows, and the code adds no guarantees of its own.
- Models.Family: django-mptt orders siblings by title (`order_insertion_by`). The model lists siblings in table order. The parent walk is bounded by the number of categories; `Models.AncestorsBoundOnlyOnCycle` proves the bound is reached only on a cycle, so on a tree the family starts at a root. The descendants are stated as a set, not in tree order.
- JSON objects are maps, so the key order of the rendered dicts is not modelled.
- Views.ProductDetail: a digits-only token beyond the range of the integer key column makes some database backends raise an overflow error; the model answers Http404 for it.
- Views.UserRegister: a username over 150 characters or a phone number over 60 makes `save()` fail on backends that enforce `max_length`; the model registers the user and answers 201.
- Views.RootCategories: the descending order is derived from the ascending-key invariant of the store, not from a sort.

