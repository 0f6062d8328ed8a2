/**
 * The four SQLite tables of the shop (main.py:60-63) as maps keyed by their primary keys, and each
 * SQL statement the handlers run as one function over those maps.
 *
 * The queries have no ORDER BY; rows are taken in ascending primary-key order, the order SQLite's
 * plans for these statements produce (Ascending).
 */
module Tables {
  import opened Wrappers

  /** A row of users: balance REAL DEFAULT 0.0, email TEXT (NULL until set). */
  datatype User = User(balance: int, email: Option<string>)

  /** A row of products (its id is the map key). */
  datatype Product = Product(categoryId: int, name: string, description: string, price: int)

  /** The composite primary key (user_id, product_id) of cart. */
  datatype CartKey = CartKey(user: int, product: int)

  /** cart: quantity per (user_id, product_id). */
  type Cart = map<CartKey, int>

  /**
   * The ints the sqlite3 driver binds as an INTEGER parameter: the signed 64-bit range. Any other int
   * makes the statement raise OverflowError before it runs.
   */
  predicate IsSqlInteger(n: int) {
    -0x8000_0000_0000_0000 <= n < 0x8000_0000_0000_0000
  }

  /** The invariants the handlers keep: AUTOINCREMENT ids below the next one, products in existing
      categories, cart quantities of at least one. */
  predicate WellFormed(categories: map<int, string>, products: map<int, Product>, nextProductId: int, cart: Cart) {
    && nextProductId >= 1
    && (forall p :: p in products ==> 1 <= p < nextProductId)
    && (forall p :: p in products ==> products[p].categoryId in categories)
    && (forall k :: k in cart ==> cart[k] >= 1)
  }

  // ---------------------------------------------------------------------------
  // Ascending primary-key order

  /** A set other than {} has an element. */
  lemma HasElement(s: set<int>)
    requires s != {}
    ensures exists x :: x in s
  {
    if forall x :: x !in s {
      assert false;
    }
  }

  lemma {:induction false} HasMinimum(s: set<int>)
    requires s != {}
    ensures exists m :: m in s && forall x :: x in s ==> m <= x
    decreases s
  {
    HasElement(s);
    var y :| y in s;
    if s != {y} {
      HasMinimum(s - {y});
      var m :| m in s - {y} && forall x :: x in s - {y} ==> m <= x;
      var least := if y < m then y else m;
      forall x | x in s ensures least <= x {
        if x != y {
          assert x in s - {y};
        }
      }
    } else {
      forall x | x in s ensures y <= x {
        assert x in s - {y} || x == y;
      }
    }
  }

  function Min(s: set<int>): (m: int)
    requires s != {}
    ensures m in s && forall x :: x in s ==> m <= x
  {
    HasMinimum(s);
    var m :| m in s && forall x :: x in s ==> m <= x;
    m
  }

  /** The keys of s in strictly ascending order. */
  function Ascending(s: set<int>): (xs: seq<int>)
    ensures |xs| == |s|
    ensures forall x :: x in xs <==> x in s
    ensures forall i :: 0 <= i < |xs| ==> xs[i] in s
    ensures forall i, j :: 0 <= i < j < |xs| ==> xs[i] < xs[j]
    decreases |s|
  {
    if s == {} then []
    else
      var m := Min(s);
      var rest := Ascending(s - {m});
      PrependLeast(s, m, rest);
      [m] + rest
  }

  /** The least key of s put in front of the other keys in ascending order lists s in ascending order. */
  lemma PrependLeast(s: set<int>, m: int, rest: seq<int>)
    requires m in s && forall x :: x in s ==> m <= x
    requires |rest| == |s - {m}|
    requires forall x :: x in rest <==> x in s - {m}
    requires forall i :: 0 <= i < |rest| ==> rest[i] in s - {m}
    requires forall i, j :: 0 <= i < j < |rest| ==> rest[i] < rest[j]
    ensures |[m] + rest| == |s|
    ensures forall x :: x in [m] + rest <==> x in s
    ensures forall i :: 0 <= i < |[m] + rest| ==> ([m] + rest)[i] in s
    ensures forall i, j :: 0 <= i < j < |[m] + rest| ==> ([m] + rest)[i] < ([m] + rest)[j]
  {
    var xs := [m] + rest;
    forall i | 0 <= i < |rest| ensures m < rest[i] {
      assert rest[i] in s - {m};
    }
    forall i | 0 <= i < |xs| ensures xs[i] in s {
      if i > 0 { assert xs[i] == rest[i - 1]; }
    }
    forall i, j | 0 <= i < j < |xs| ensures xs[i] < xs[j] {
      assert xs[j] == rest[j - 1];
      if i > 0 { assert xs[i] == rest[i - 1]; }
    }
    forall x ensures x in xs <==> x in s {
      assert x in xs <==> x == m || x in rest;
    }
  }

  // ---------------------------------------------------------------------------
  // users

  /** INSERT OR IGNORE INTO users (user_id) VALUES (u). */
  function InsertUser(users: map<int, User>, u: int): (r: map<int, User>)
    ensures r.Keys == users.Keys + {u}
    ensures forall v :: v in users ==> r[v] == users[v]
    ensures u !in users ==> r[u] == User(0, None)
  {
    if u in users then users else users[u := User(0, None)]
  }

  /** /start run twice leaves the table as after once. */
  lemma InsertUserIdempotent(users: map<int, User>, u: int)
    ensures InsertUser(InsertUser(users, u), u) == InsertUser(users, u)
  {
  }

  datatype Profile = Profile(balance: int, email: string)

  /** What profile shows for an email that is NULL or empty. */
  const NoEmail: string := "не указана"

  /** SELECT balance, email FROM users WHERE user_id = u, with the handler's defaults for a missing row or email. */
  function ProfileOf(users: map<int, User>, u: int): (p: Profile)
    ensures u !in users ==> p == Profile(0, NoEmail)
    ensures u in users ==> p.balance == users[u].balance
    ensures u in users && users[u].email.Some? && users[u].email.value != [] ==> p.email == users[u].email.value
    ensures u in users && (users[u].email.None? || users[u].email.value == []) ==> p.email == NoEmail
  {
    if u !in users then Profile(0, NoEmail)
    else
      var row := users[u];
      Profile(row.balance, if row.email.Some? && row.email.value != [] then row.email.value else NoEmail)
  }

  /** The defaults of the profile lookup are exactly what a fresh /start row shows. */
  lemma ProfileDefaultsMatchNewUser(users: map<int, User>, u: int)
    ensures ProfileOf(InsertUser(users, u), u) == ProfileOf(users, u)
  {
  }

  // ---------------------------------------------------------------------------
  // categories and products

  /** SELECT id, name FROM categories. */
  function CategoryList(categories: map<int, string>): (rows: seq<(int, string)>)
    ensures |rows| == |categories|
  {
    var ids := Ascending(categories.Keys);
    seq(|ids|, i requires 0 <= i < |ids| => (ids[i], categories[ids[i]]))
  }

  /** The catalog lists every category once, with its own name, in ascending id order. */
  lemma CategoryListRows(categories: map<int, string>)
    ensures var rows := CategoryList(categories);
            && (forall i :: 0 <= i < |rows| ==> rows[i].0 in categories && rows[i].1 == categories[rows[i].0])
            && (forall c :: c in categories ==> (c, categories[c]) in rows)
            && (forall i, j :: 0 <= i < j < |rows| ==> rows[i].0 < rows[j].0)
  {
    var rows := CategoryList(categories);
    forall c | c in categories ensures (c, categories[c]) in rows {
      var i := AscendingIndex(categories.Keys, c);
      assert rows[i] == (c, categories[c]);
    }
  }

  /** Every key of s has a position in Ascending(s). */
  lemma AscendingIndex(s: set<int>, x: int) returns (i: nat)
    requires x in s
    ensures i < |Ascending(s)| && Ascending(s)[i] == x
  {
    var xs := Ascending(s);
    assert x in xs;
    i :| 0 <= i < |xs| && xs[i] == x;
  }

  /** SELECT id, name FROM products WHERE category_id = c. */
  function ProductsOf(products: map<int, Product>, c: int): (rows: seq<(int, string)>)
    ensures |rows| == |InCategory(products, c)|
  {
    var ids := Ascending(InCategory(products, c));
    seq(|ids|, i requires 0 <= i < |ids| => (ids[i], products[ids[i]].name))
  }

  /** The buttons of category c: exactly its products, each with its own name, in ascending id order. */
  lemma ProductsOfCategory(products: map<int, Product>, c: int)
    ensures var rows := ProductsOf(products, c);
            forall i :: 0 <= i < |rows| ==>
              rows[i].0 in products && products[rows[i].0].categoryId == c && rows[i].1 == products[rows[i].0].name
    ensures var rows := ProductsOf(products, c);
            forall p :: p in products && products[p].categoryId == c ==> (p, products[p].name) in rows
    ensures var rows := ProductsOf(products, c);
            forall i, j :: 0 <= i < j < |rows| ==> rows[i].0 < rows[j].0
  {
    var ids := Ascending(InCategory(products, c));
    var rows := ProductsOf(products, c);
    assert forall i :: 0 <= i < |rows| ==> rows[i] == (ids[i], products[ids[i]].name);
    forall p | p in products && products[p].categoryId == c ensures (p, products[p].name) in rows {
      var i :| 0 <= i < |ids| && ids[i] == p;
      assert rows[i] == (p, products[p].name);
    }
  }

  /** The ids of the products in category c. */
  function InCategory(products: map<int, Product>, c: int): (ps: set<int>)
    ensures forall p :: p in ps <==> p in products && products[p].categoryId == c
  {
    set p | p in products && products[p].categoryId == c
  }

  /** SELECT id FROM categories WHERE name = ?, first row: the smallest id with exactly that name. */
  function FirstCategoryNamed(categories: map<int, string>, name: string): (r: Option<int>)
    ensures r.None? <==> forall c :: c in categories ==> categories[c] != name
    ensures r.Some? ==> r.value in categories && categories[r.value] == name
    ensures r.Some? ==> forall c :: c in categories && categories[c] == name ==> r.value <= c
  {
    var named := set c | c in categories && categories[c] == name;
    if named == {} then
      assert forall c :: c in categories ==> categories[c] != name by {
        forall c | c in categories ensures categories[c] != name {
          assert c in named <==> categories[c] == name;
        }
      }
      None
    else
      var m := Min(named);
      assert forall c :: c in categories && categories[c] == name ==> m <= c by {
        forall c | c in categories && categories[c] == name ensures m <= c {
          assert c in named;
        }
      }
      Some(m)
  }

  datatype ListedProduct = ListedProduct(id: int, name: string, price: int, categoryName: string)

  /** SELECT p.id, p.name, p.price, c.name FROM products p JOIN categories c ON p.category_id = c.id. */
  function ProductListing(products: map<int, Product>, categories: map<int, string>): (rows: seq<ListedProduct>)
    ensures forall i :: 0 <= i < |rows| ==>
              && rows[i].id in products
              && var p := products[rows[i].id];
              && p.categoryId in categories
              && rows[i] == ListedProduct(rows[i].id, p.name, p.price, categories[p.categoryId])
    ensures forall i, j :: 0 <= i < j < |rows| ==> rows[i].id < rows[j].id
    ensures |rows| == |set p | p in products && products[p].categoryId in categories|
  {
    var ids := Ascending(set p | p in products && products[p].categoryId in categories);
    seq(|ids|, i requires 0 <= i < |ids| =>
      var p := products[ids[i]];
      ListedProduct(ids[i], p.name, p.price, categories[p.categoryId]))
  }

  /** With every product in an existing category the join drops nothing: one row per product. */
  lemma ListingIsComplete(categories: map<int, string>, products: map<int, Product>, nextProductId: int, cart: Cart)
    requires WellFormed(categories, products, nextProductId, cart)
    ensures |ProductListing(products, categories)| == |products|
  {
    var joined := set p | p in products && products[p].categoryId in categories;
    forall p | p in products ensures p in joined {
      assert products[p].categoryId in categories;
    }
    assert joined == products.Keys;
  }

  // ---------------------------------------------------------------------------
  // cart

  /** INSERT INTO cart (user_id, product_id) VALUES (u, p) ON CONFLICT DO UPDATE SET quantity = quantity + 1. */
  function AddLine(cart: Cart, u: int, p: int): (r: Cart)
    ensures r.Keys == cart.Keys + {CartKey(u, p)}
    ensures r[CartKey(u, p)] == if CartKey(u, p) in cart then cart[CartKey(u, p)] + 1 else 1
    ensures forall k :: k in cart && k != CartKey(u, p) ==> r[k] == cart[k]
  {
    var k := CartKey(u, p);
    cart[k := if k in cart then cart[k] + 1 else 1]
  }

  /** n presses of "add to cart" for the same product. */
  function AddTimes(cart: Cart, u: int, p: int, n: nat): Cart
    decreases n
  {
    if n == 0 then cart else AddLine(AddTimes(cart, u, p, n - 1), u, p)
  }

  /** After n adds there is still one line for (u, p), and its quantity went up by exactly n. */
  lemma {:induction false} QuantityCountsAdds(cart: Cart, u: int, p: int, n: nat)
    requires n > 0
    ensures AddTimes(cart, u, p, n).Keys == cart.Keys + {CartKey(u, p)}
    ensures AddTimes(cart, u, p, n)[CartKey(u, p)]
         == n + (if CartKey(u, p) in cart then cart[CartKey(u, p)] else 0)
    ensures forall k :: k in cart && k != CartKey(u, p) ==> AddTimes(cart, u, p, n)[k] == cart[k]
  {
    if n > 1 {
      QuantityCountsAdds(cart, u, p, n - 1);
    }
  }

  /** DELETE FROM cart WHERE user_id = u. */
  function ClearCartOf(cart: Cart, u: int): (r: Cart)
    ensures forall k :: k in r <==> k in cart && k.user != u
    ensures forall k :: k in r ==> r[k] == cart[k]
  {
    map k | k in cart && k.user != u :: cart[k]
  }

  /** Adding a line keeps every quantity at least one and touches no other table. */
  lemma AddLineKeepsWellFormed(categories: map<int, string>, products: map<int, Product>, nextProductId: int,
                               cart: Cart, u: int, p: int)
    requires WellFormed(categories, products, nextProductId, cart)
    ensures WellFormed(categories, products, nextProductId, AddLine(cart, u, p))
  {
  }

  /** Deleting a user's lines keeps every remaining quantity at least one. */
  lemma ClearCartKeepsWellFormed(categories: map<int, string>, products: map<int, Product>, nextProductId: int,
                                 cart: Cart, u: int)
    requires WellFormed(categories, products, nextProductId, cart)
    ensures WellFormed(categories, products, nextProductId, ClearCartOf(cart, u))
  {
  }

  /** Clearing an empty cart changes nothing. */
  lemma ClearEmptyCart(cart: Cart, u: int)
    requires forall k :: k in cart ==> k.user != u
    ensures ClearCartOf(cart, u) == cart
  {
  }

  datatype CartRow = CartRow(name: string, price: int, quantity: int)

  /** subtotal = price * qty of one joined line. */
  function Subtotal(row: CartRow): int {
    row.price * row.quantity
  }

  /** The product ids of u's cart lines that have a product row (the inner join). */
  function CartProducts(cart: Cart, products: map<int, Product>, u: int): (ps: set<int>)
    ensures forall p :: p in ps <==> CartKey(u, p) in cart && p in products
  {
    set k | k in cart && k.user == u && k.product in products :: k.product
  }

  /** SELECT p.name, p.price, c.quantity FROM cart c JOIN products p ON c.product_id = p.id WHERE c.user_id = u. */
  function CartRows(cart: Cart, products: map<int, Product>, u: int): (rows: seq<CartRow>)
    ensures |rows| == |CartProducts(cart, products, u)|
  {
    var ids := Ascending(CartProducts(cart, products, u));
    seq(|ids|, i requires 0 <= i < |ids| => RowOf(cart, products, u, ids[i]))
  }

  function RowOf(cart: Cart, products: map<int, Product>, u: int, p: int): CartRow
    requires CartKey(u, p) in cart && p in products
  {
    CartRow(products[p].name, products[p].price, cart[CartKey(u, p)])
  }

  /** The rows of CartRows are those of the ascending product ids of the join. */
  lemma CartRowsAt(cart: Cart, products: map<int, Product>, u: int, i: nat)
    requires i < |CartRows(cart, products, u)|
    ensures var ids := Ascending(CartProducts(cart, products, u));
            && i < |ids| && ids[i] in CartProducts(cart, products, u)
            && CartRows(cart, products, u)[i] == RowOf(cart, products, u, ids[i])
  {
  }

  // ---------------------------------------------------------------------------
  // The cart total, independent of row order

  ghost function Pick(s: set<int>): (x: int)
    requires s != {}
    ensures x in s
  {
    HasElement(s);
    var x :| x in s; x
  }

  /** Sum of w over the elements of s. */
  ghost function SetSum(s: set<int>, w: map<int, int>): int
    requires s <= w.Keys
    decreases s
  {
    if s == {} then 0 else var x := Pick(s); w[x] + SetSum(s - {x}, w)
  }

  /** Any element can be taken out of the sum first. */
  lemma {:induction false} SetSumRemove(s: set<int>, w: map<int, int>, q: int)
    requires s <= w.Keys && q in s
    ensures SetSum(s, w) == w[q] + SetSum(s - {q}, w)
    decreases s
  {
    var x := Pick(s);
    if x != q {
      SetSumRemove(s - {x}, w, q);
      SetSumRemove(s - {q}, w, x);
      assert s - {x} - {q} == s - {q} - {x};
    }
  }

  /** The sum only depends on the weights of the elements summed. */
  lemma {:induction false} SetSumAgree(s: set<int>, w1: map<int, int>, w2: map<int, int>)
    requires s <= w1.Keys && s <= w2.Keys
    requires forall x :: x in s ==> w1[x] == w2[x]
    ensures SetSum(s, w1) == SetSum(s, w2)
    decreases s
  {
    if s != {} {
      var x := Pick(s);
      SetSumAgree(s - {x}, w1, w2);
      SetSumRemove(s, w2, x);
    }
  }

  /** Sum of w over a sequence, last element last. */
  function SeqSum(xs: seq<int>, w: map<int, int>): int
    requires forall i :: 0 <= i < |xs| ==> xs[i] in w
    decreases |xs|
  {
    if xs == [] then 0 else SeqSum(xs[..|xs| - 1], w) + w[xs[|xs| - 1]]
  }

  /** Extending the summed prefix by one element adds its weight. */
  lemma SeqSumExtend(xs: seq<int>, w: map<int, int>, i: nat)
    requires i < |xs| && forall k :: 0 <= k < |xs| ==> xs[k] in w
    ensures SeqSum(xs[..i + 1], w) == SeqSum(xs[..i], w) + w[xs[i]]
  {
    assert xs[..i + 1][..i] == xs[..i];
  }

  /** Summing a duplicate-free sequence in its order equals the order-free sum over its elements. */
  lemma {:induction false} SeqSumIsSetSum(xs: seq<int>, w: map<int, int>)
    requires forall i :: 0 <= i < |xs| ==> xs[i] in w
    requires forall i, j :: 0 <= i < j < |xs| ==> xs[i] != xs[j]
    ensures (set x | x in xs) <= w.Keys
    ensures SeqSum(xs, w) == SetSum((set x | x in xs), w)
    decreases |xs|
  {
    var s := set x | x in xs;
    if xs != [] {
      var n := |xs| - 1;
      var front := xs[..n];
      SeqSumIsSetSum(front, w);
      assert s - {xs[n]} == set x | x in front by {
        forall x | x in s - {xs[n]} ensures x in front {
          var i :| 0 <= i < |xs| && xs[i] == x;
          assert i < n;
          assert front[i] == x;
        }
      }
      SetSumRemove(s, w, xs[n]);
    }
  }

  /** Subtotal of each joined line: price * quantity. */
  ghost function LineTotals(cart: Cart, products: map<int, Product>, u: int): map<int, int> {
    map p | p in CartProducts(cart, products, u) :: Subtotal(RowOf(cart, products, u, p))
  }

  /** The cart total: the sum of price * quantity over u's joined lines, in whatever order. */
  ghost function CartTotal(cart: Cart, products: map<int, Product>, u: int): int {
    SetSum(CartProducts(cart, products, u), LineTotals(cart, products, u))
  }

  /** Row i of the cart view carries the subtotal of the i-th joined product. */
  lemma LineTotalAt(cart: Cart, products: map<int, Product>, u: int, i: nat)
    requires i < |CartRows(cart, products, u)|
    ensures var ids := Ascending(CartProducts(cart, products, u));
            var row := CartRows(cart, products, u)[i];
            && i < |ids| && ids[i] in LineTotals(cart, products, u)
            && LineTotals(cart, products, u)[ids[i]] == Subtotal(row)
  {
    CartRowsAt(cart, products, u, i);
  }

  /** total += subtotal over the rows, first row first. */
  function RowsTotal(rows: seq<CartRow>): int
    decreases |rows|
  {
    if rows == [] then 0 else RowsTotal(rows[..|rows| - 1]) + Subtotal(rows[|rows| - 1])
  }

  /** Extending the summed prefix of rows by one row adds its subtotal. */
  lemma RowsTotalExtend(rows: seq<CartRow>, i: nat)
    requires i < |rows|
    ensures RowsTotal(rows[..i + 1]) == RowsTotal(rows[..i]) + Subtotal(rows[i])
  {
    assert rows[..i + 1][..i] == rows[..i];
  }

  /** Rows whose subtotals are the weights of ids, position by position, have the same running total. */
  lemma {:induction false} RowsTotalIsSeqSum(rows: seq<CartRow>, ids: seq<int>, w: map<int, int>, n: nat)
    requires n <= |rows| == |ids|
    requires forall i :: 0 <= i < |ids| ==> ids[i] in w && w[ids[i]] == Subtotal(rows[i])
    ensures RowsTotal(rows[..n]) == SeqSum(ids[..n], w)
    decreases n
  {
    if n > 0 {
      RowsTotalIsSeqSum(rows, ids, w, n - 1);
      RowsTotalExtend(rows, n - 1);
      SeqSumExtend(ids, w, n - 1);
    }
  }

  /** Summing the subtotals in row order, as the cart view does, gives the order-free total. */
  lemma CartTotalInRowOrder(cart: Cart, products: map<int, Product>, u: int)
    ensures RowsTotal(CartRows(cart, products, u)) == CartTotal(cart, products, u)
  {
    var rows := CartRows(cart, products, u);
    var s := CartProducts(cart, products, u);
    var ids := Ascending(s);
    var w := LineTotals(cart, products, u);
    RowWeights(cart, products, u);
    RowsTotalIsSeqSum(rows, ids, w, |rows|);
    assert rows[..|rows|] == rows && ids[..|rows|] == ids;
    SumInKeyOrder(s, w);
  }

  /** The weight of the i-th joined product is the subtotal of the i-th row. */
  lemma RowWeights(cart: Cart, products: map<int, Product>, u: int)
    ensures var ids := Ascending(CartProducts(cart, products, u));
            var rows := CartRows(cart, products, u);
            && |rows| == |ids|
            && forall i :: 0 <= i < |ids| ==>
                 ids[i] in LineTotals(cart, products, u) && LineTotals(cart, products, u)[ids[i]] == Subtotal(rows[i])
  {
    forall i | 0 <= i < |CartRows(cart, products, u)|
      ensures var ids := Ascending(CartProducts(cart, products, u));
              ids[i] in LineTotals(cart, products, u)
              && LineTotals(cart, products, u)[ids[i]] == Subtotal(CartRows(cart, products, u)[i])
    {
      LineTotalAt(cart, products, u, i);
    }
  }

  /** Summing in ascending key order equals the order-free sum. */
  lemma SumInKeyOrder(s: set<int>, w: map<int, int>)
    requires s <= w.Keys
    ensures forall i :: 0 <= i < |Ascending(s)| ==> Ascending(s)[i] in w
    ensures SeqSum(Ascending(s), w) == SetSum(s, w)
  {
    var ids := Ascending(s);
    AscendingElements(s);
    SeqSumIsSetSum(ids, w);
  }

  /** Ascending(s) lists s without repetition. */
  lemma AscendingElements(s: set<int>)
    ensures (set x | x in Ascending(s)) == s
    ensures forall i, j :: 0 <= i < j < |Ascending(s)| ==> Ascending(s)[i] != Ascending(s)[j]
  {
  }

  /** Adding a product to the cart raises the total by its price; a product without a row adds nothing. */
  lemma TotalAfterAdd(cart: Cart, products: map<int, Product>, u: int, p: int)
    ensures CartTotal(AddLine(cart, u, p), products, u)
         == CartTotal(cart, products, u) + (if p in products then products[p].price else 0)
  {
    var cart' := AddLine(cart, u, p);
    var s, s' := CartProducts(cart, products, u), CartProducts(cart', products, u);
    var w, w' := LineTotals(cart, products, u), LineTotals(cart', products, u);
    if p !in products {
      assert s' == s;
      SetSumAgree(s, w, w');
    } else {
      var before := if CartKey(u, p) in cart then cart[CartKey(u, p)] else 0;
      var price := products[p].price;
      assert s' == s + {p};
      assert w'[p] == price * (before + 1) == price * before + price;
      SetSumRemove(s', w', p);
      assert s' - {p} == s - {p};
      SetSumAgree(s - {p}, w, w');
      if p in s {
        SetSumRemove(s, w, p);
        assert w[p] == price * before;
      } else {
        assert s - {p} == s;
        assert before == 0;
      }
    }
  }

  /** A cart line for a product without a row is kept but never shown: the join hides it. */
  lemma DanglingLineHidden(cart: Cart, products: map<int, Product>, u: int, p: int)
    requires p !in products
    ensures CartRows(AddLine(cart, u, p), products, u) == CartRows(cart, products, u)
  {
    var cart' := AddLine(cart, u, p);
    assert CartProducts(cart', products, u) == CartProducts(cart, products, u);
    var ids := Ascending(CartProducts(cart, products, u));
    forall i | 0 <= i < |ids| ensures RowOf(cart', products, u, ids[i]) == RowOf(cart, products, u, ids[i]) {
      assert ids[i] != p;
    }
  }

  /** After clearing, u's cart shows no rows and totals zero, whatever it held before. */
  lemma ClearedCartIsEmpty(cart: Cart, products: map<int, Product>, u: int)
    ensures CartRows(ClearCartOf(cart, u), products, u) == []
    ensures CartTotal(ClearCartOf(cart, u), products, u) == 0
  {
    assert CartProducts(ClearCartOf(cart, u), products, u) == {};
  }

  /** One user's add or clear leaves every other user's cart view as it was. */
  lemma OtherCartsUntouched(cart: Cart, products: map<int, Product>, u: int, p: int, v: int)
    requires v != u
    ensures CartRows(AddLine(cart, u, p), products, v) == CartRows(cart, products, v)
    ensures CartRows(ClearCartOf(cart, u), products, v) == CartRows(cart, products, v)
  {
    var added, cleared := AddLine(cart, u, p), ClearCartOf(cart, u);
    assert CartProducts(added, products, v) == CartProducts(cart, products, v);
    assert CartProducts(cleared, products, v) == CartProducts(cart, products, v);
  }
}
