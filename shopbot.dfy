/**
 * The shop bot's state and handlers (main.py). A Shop holds the four tables and the users whose
 * waiting_for_price slot is armed; each handler is a method that runs its SQL statements as map updates
 * and returns what the reply carries. Keyboards, Markdown and currency formatting are not modelled.
 */
module ShopBot {
  import opened Wrappers
  import opened Access
  import opened Parsing
  import opened Tables
  import opened Admin

  /** One line of the cart reply: "• name × qty = subtotal ₽". */
  datatype CartLine = CartLine(name: string, quantity: int, subtotal: int)

  /** The reply line of one joined cart row. */
  function LineOf(row: CartRow): (line: CartLine)
    ensures line.subtotal == row.price * row.quantity
    ensures line.name == row.name && line.quantity == row.quantity
  {
    CartLine(row.name, row.quantity, Subtotal(row))
  }

  /** The loop of show_cart: one reply line per joined row, and the running total of the subtotals. */
  method RenderCart(rows: seq<CartRow>) returns (lines: seq<CartLine>, total: int)
    ensures |lines| == |rows|
    ensures forall i :: 0 <= i < |rows| ==> lines[i] == LineOf(rows[i])
    ensures total == RowsTotal(rows)
  {
    total := 0;
    lines := [];
    var i := 0;
    while i < |rows|
      invariant 0 <= i <= |rows|
      invariant |lines| == i
      invariant forall k :: 0 <= k < i ==> lines[k] == LineOf(rows[k])
      invariant total == RowsTotal(rows[..i])
    {
      var line := LineOf(rows[i]);
      RowsTotalExtend(rows, i);
      total := total + line.subtotal;
      lines := lines + [line];
      i := i + 1;
    }
    assert rows[..i] == rows;
  }

  /** The cart reply: "Корзина пуста." or the lines and "Итого: total". */
  datatype CartView = CartEmpty | CartContents(lines: seq<CartLine>, total: int)

  /** The reply of list_products: nothing for a non-admin, "Нет товаров.", or the listing. */
  datatype ListingReply = ListingSilent | NoProducts | ProductList(rows: seq<ListedProduct>)

  class Shop {
    var users: map<int, User>
    var categories: map<int, string>
    var products: map<int, Product>
    /** The next AUTOINCREMENT id of products. */
    var nextProductId: int
    var cart: Cart
    /**
     * Users in the FSM state AdminStates.waiting_for_price. aiogram keys the state by (chat, user);
     * keying it by user alone assumes each admin talks to the bot in a private chat.
     */
    var waiting: set<int>

    /** The tables' invariants, and only admins ever armed (change_price_start is the only arming step). */
    ghost predicate Valid()
      reads this
    {
      && WellFormed(categories, products, nextProductId, cart)
      && forall u :: u in waiting ==> IsAdmin(u)
    }

    /** The store as create_db leaves it: the given catalog, no users, empty carts, nobody armed. */
    constructor (categories0: map<int, string>, products0: map<int, Product>, nextProductId0: int)
      requires WellFormed(categories0, products0, nextProductId0, map[])
      ensures Valid()
      ensures users == map[] && cart == map[] && waiting == {}
      ensures categories == categories0 && products == products0 && nextProductId == nextProductId0
    {
      users := map[];
      categories := categories0;
      products := products0;
      nextProductId := nextProductId0;
      cart := map[];
      waiting := {};
    }

    /** /start: INSERT OR IGNORE the user. */
    method Start(u: int)
      requires Valid()
      modifies this`users
      ensures Valid()
      ensures users == InsertUser(old(users), u)
    {
      users := InsertUser(users, u);
    }

    /**
     * add_N: one more of product N in u's cart; nothing when the token has no readable id or the id
     * does not fit the driver's 64-bit binding (the handler raises before the upsert).
     */
    method AddToCart(u: int, data: string) returns (added: bool)
      requires Valid()
      modifies this`cart
      ensures Valid()
      ensures added <==> CallbackId(data).Some? && IsSqlInteger(CallbackId(data).value)
      ensures cart == if added then AddLine(old(cart), u, CallbackId(data).value) else old(cart)
    {
      match CallbackId(data)
      case None =>
        added := false;
      case Some(p) =>
        if !IsSqlInteger(p) {
          return false;
        }
        AddLineKeepsWellFormed(categories, products, nextProductId, cart, u, p);
        cart := AddLine(cart, u, p);
        added := true;
    }

    /** "Корзина": the joined lines with their subtotals, and their running total. */
    method ShowCart(u: int) returns (view: CartView)
      ensures view.CartEmpty? <==> CartProducts(cart, products, u) == {}
      ensures view.CartContents? ==>
                var rows := CartRows(cart, products, u);
                && |view.lines| == |rows|
                && (forall i :: 0 <= i < |rows| ==>
                      view.lines[i] == LineOf(rows[i]))
                && view.total == RowsTotal(rows)
    {
      var rows := CartRows(cart, products, u);
      if |rows| == 0 {
        return CartEmpty;
      }
      var lines, total := RenderCart(rows);
      view := CartContents(lines, total);
    }

    /** clear_cart: DELETE all of u's lines. */
    method ClearCart(u: int)
      requires Valid()
      modifies this`cart
      ensures Valid()
      ensures cart == ClearCartOf(old(cart), u)
    {
      ClearCartKeepsWellFormed(categories, products, nextProductId, cart, u);
      cart := ClearCartOf(cart, u);
    }

    /** "Профиль": balance and email, with the defaults for a missing row or email. */
    method ShowProfile(u: int) returns (p: Profile)
      ensures p == ProfileOf(users, u)
    {
      p := ProfileOf(users, u);
    }

    /** "Каталог" and back_to_cat: one button per category. */
    method Catalog() returns (rows: seq<(int, string)>)
      ensures rows == CategoryList(categories)
    {
      rows := CategoryList(categories);
    }

    /** cat_N: one button per product of category N; nothing when the token has no readable, bindable id. */
    method ShowProducts(data: string) returns (rows: Option<seq<(int, string)>>)
      ensures rows.Some? <==> CallbackId(data).Some? && IsSqlInteger(CallbackId(data).value)
      ensures rows.Some? ==> rows.value == ProductsOf(products, CallbackId(data).value)
    {
      rows := None;
      match CallbackId(data)
      case None =>
      case Some(c) =>
        if IsSqlInteger(c) {
          rows := Some(ProductsOf(products, c));
        }
    }

    /** prod_N: the card of product N; nothing for an unreadable or unbindable id, or an id without a row. */
    method ShowProduct(data: string) returns (card: Option<Product>)
      ensures card.Some? <==>
                CallbackId(data).Some? && IsSqlInteger(CallbackId(data).value) && CallbackId(data).value in products
      ensures card.Some? ==> card.value == products[CallbackId(data).value]
    {
      card := None;
      match CallbackId(data)
      case None =>
      case Some(p) =>
        if IsSqlInteger(p) && p in products {
          card := Some(products[p]);
        }
    }

    /** "Админка": the admin keyboard for an admin, silence for anyone else. */
    method AdminPanel(u: int) returns (shown: bool)
      ensures shown <==> IsAdmin(u)
    {
      shown := IsAdmin(u);
    }

    /** "Товары": the products joined with their categories, for an admin only. */
    method ListProducts(u: int) returns (reply: ListingReply)
      ensures !IsAdmin(u) ==> reply == ListingSilent
      ensures IsAdmin(u) && ProductListing(products, categories) == [] ==> reply == NoProducts
      ensures IsAdmin(u) && ProductListing(products, categories) != [] ==>
                reply == ProductList(ProductListing(products, categories))
    {
      if !IsAdmin(u) {
        return ListingSilent;
      }
      var rows := ProductListing(products, categories);
      if rows == [] {
        reply := NoProducts;
      } else {
        reply := ProductList(rows);
      }
    }

    /** "Изменить цену": an admin's slot is armed and the prompt sent; anyone else gets silence. */
    method ChangePriceStart(u: int) returns (prompted: bool)
      requires Valid()
      modifies this`waiting
      ensures Valid()
      ensures prompted <==> IsAdmin(u)
      ensures waiting == if prompted then old(waiting) + {u} else old(waiting)
    {
      if !IsAdmin(u) {
        return false;
      }
      waiting := waiting + {u};
      prompted := true;
    }

    /**
     * The next message of an armed user (change_price_process). The slot is cleared after a price
     * change or a format error, but not after "Товар не найден.", whose early return skips
     * state.clear(). There is no admin check here: only admins can be armed (Valid).
     */
    method ChangePriceProcess(u: int, text: Option<string>) returns (reply: PriceReply)
      requires Valid() && u in waiting
      modifies this`products, this`waiting
      ensures Valid()
      ensures IsAdmin(u)
      ensures reply == ProcessPriceAsWritten(old(products), text).reply
      ensures products == ProcessPriceAsWritten(old(products), text).products
      ensures waiting == if reply == ProductNotFound then old(waiting) else old(waiting) - {u}
    {
      PriceChangeKeepsWellFormed(categories, products, nextProductId, cart, text);
      var o := ProcessPriceAsWritten(products, text);
      products := o.products;
      reply := o.reply;
      if !o.stillWaiting {
        waiting := waiting - {u};
      }
    }

    /** "Добавить товар": the command format for an admin, silence for anyone else. */
    method AddProductStart(u: int) returns (shown: bool)
      ensures shown <==> IsAdmin(u)
    {
      shown := IsAdmin(u);
    }

    /** /addprod: for an admin, parse, resolve the category and insert; anyone else gets silence. */
    method AddProduct(u: int, text: string) returns (reply: Option<AddReply>)
      requires Valid()
      modifies this`products, this`nextProductId
      ensures Valid()
      ensures !IsAdmin(u) ==> reply == None && products == old(products) && nextProductId == old(nextProductId)
      ensures IsAdmin(u) ==>
                var o := ProcessAddProduct(categories, old(products), old(nextProductId), text);
                reply == Some(o.reply) && products == o.products && nextProductId == o.nextProductId
    {
      if !IsAdmin(u) {
        return None;
      }
      AddKeepsWellFormed(categories, products, nextProductId, cart, text);
      var o := ProcessAddProduct(categories, products, nextProductId, text);
      assert WellFormed(categories, o.products, o.nextProductId, cart);
      products, nextProductId, reply := o.products, o.nextProductId, Some(o.reply);
    }
  }
}
