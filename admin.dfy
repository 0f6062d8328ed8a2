/**
 * The two admin store operations of main.py as steps over the tables:
 *  - change_price_process (main.py:242-258): read "<id> <price>", UPDATE the price, clear the
 *    waiting_for_price slot;
 *  - add_product (main.py:270-288): read "/addprod Category | Name | Description | Price", resolve the
 *    category by exact name, INSERT a product under the next AUTOINCREMENT id.
 * The admin check in front of them lives with the handlers (ShopBot).
 */
module Admin {
  import opened Wrappers
  import opened PyText
  import opened Parsing
  import opened Tables

  // ---------------------------------------------------------------------------
  // Price change

  /** The three replies of change_price_process. */
  datatype PriceReply =
    | PriceFormatError                               // "Неверный формат. Пример: `7 99990`"
    | ProductNotFound                                // "Товар не найден."
    | PriceChanged(name: string, newPrice: int)      // "Цена товара *name* изменена на *price ₽*."

  /** What one payload does: the reply, the products table after it, and whether the slot stays armed. */
  datatype PriceOutcome = PriceOutcome(reply: PriceReply, products: map<int, Product>, stillWaiting: bool)

  /**
   * change_price_process as written: a payload that does not parse, or whose id the driver cannot bind
   * (OverflowError at the SELECT), ends in the bare except and is a format error; an id without a row
   * replies "not found" and returns before state.clear(), so the slot stays armed; otherwise the
   * product's price is set (no sign check) and the slot is cleared.
   */
  function ProcessPriceAsWritten(products: map<int, Product>, text: Option<string>): (o: PriceOutcome)
    ensures o.products.Keys == products.Keys
    ensures o.reply == PriceFormatError <==>
              ParsePriceChange(text).None? || !IsSqlInteger(ParsePriceChange(text).value.productId)
    ensures o.reply == ProductNotFound <==>
              && ParsePriceChange(text).Some?
              && IsSqlInteger(ParsePriceChange(text).value.productId)
              && ParsePriceChange(text).value.productId !in products
    ensures o.reply.PriceChanged? ==>
              var c := ParsePriceChange(text).value;
              && IsSqlInteger(c.productId)
              && c.productId in products
              && o.reply == PriceChanged(products[c.productId].name, c.newPrice)
              && o.products[c.productId] == products[c.productId].(price := c.newPrice)
              && forall p :: p in products && p != c.productId ==> o.products[p] == products[p]
    ensures !o.reply.PriceChanged? ==> o.products == products
    ensures o.stillWaiting <==> o.reply == ProductNotFound
  {
    match ParsePriceChange(text)
    case None => PriceOutcome(PriceFormatError, products, false)
    case Some(c) =>
      if !IsSqlInteger(c.productId) then PriceOutcome(PriceFormatError, products, false)
      else if c.productId !in products then PriceOutcome(ProductNotFound, products, true)
      else
        var row := products[c.productId];
        PriceOutcome(PriceChanged(row.name, c.newPrice), products[c.productId := row.(price := c.newPrice)], false)
  }

  /** The step as intended: the same reply and table, and the slot cleared on every path. */
  function ProcessPrice(products: map<int, Product>, text: Option<string>): (o: PriceOutcome)
    ensures !o.stillWaiting
    ensures o.reply == ProcessPriceAsWritten(products, text).reply
    ensures o.products == ProcessPriceAsWritten(products, text).products
  {
    ProcessPriceAsWritten(products, text).(stillWaiting := false)
  }

  /** The prompt's example format "<id> <price>" for a known id sets exactly that price and disarms. */
  lemma PriceChangeApplied(products: map<int, Product>, id: int, price: int)
    requires id in products && IsSqlInteger(id)
    ensures var o := ProcessPrice(products, Some(ShowInt(id) + " " + ShowInt(price)));
            && o.reply == PriceChanged(products[id].name, price)
            && o.products == products[id := products[id].(price := price)]
  {
    PriceChangeRoundTrip(id, price);
  }

  /** As written, a well-formed payload for an id without a row changes nothing and leaves the slot armed. */
  lemma NotFoundLeavesSlotArmed(products: map<int, Product>, id: int, price: int)
    requires id !in products && IsSqlInteger(id)
    ensures var o := ProcessPriceAsWritten(products, Some(ShowInt(id) + " " + ShowInt(price)));
            o == PriceOutcome(ProductNotFound, products, true)
  {
    PriceChangeRoundTrip(id, price);
  }

  /** An id outside the 64-bit range raises in the driver: the bare except answers with the format error and disarms. */
  lemma OversizedIdIsFormatError(products: map<int, Product>, id: int, price: int)
    requires !IsSqlInteger(id)
    ensures ProcessPriceAsWritten(products, Some(ShowInt(id) + " " + ShowInt(price)))
         == PriceOutcome(PriceFormatError, products, false)
  {
    PriceChangeRoundTrip(id, price);
  }

  /** A price change keeps the tables' invariants: the set of ids and every category link are untouched. */
  lemma PriceChangeKeepsWellFormed(categories: map<int, string>, products: map<int, Product>, nextProductId: int,
                                   cart: Cart, text: Option<string>)
    requires WellFormed(categories, products, nextProductId, cart)
    ensures WellFormed(categories, ProcessPriceAsWritten(products, text).products, nextProductId, cart)
  {
    var o := ProcessPriceAsWritten(products, text);
    forall p | p in o.products ensures o.products[p].categoryId == products[p].categoryId {
    }
  }

  // ---------------------------------------------------------------------------
  // /addprod

  /** The three replies of add_product for an admin. */
  datatype AddReply =
    | AddFormatError                            // "Формат: /addprod Категория | Название | Описание | Цена"
    | CategoryNotFound                          // "Категория не найдена! ..."
    | ProductAdded(id: int, name: string, price: int)   // "Товар *name* добавлен за price ₽!"; id is not shown
                                                        // and is carried only so contracts can name the row

  datatype AddOutcome = AddOutcome(reply: AddReply, products: map<int, Product>, nextProductId: int)

  /**
   * add_product for an admin: parse the command, take the first category with exactly that name, and
   * INSERT the product under the next AUTOINCREMENT id. A parse failure or an unknown category changes
   * nothing.
   */
  function ProcessAddProduct(categories: map<int, string>, products: map<int, Product>, nextProductId: int,
                             text: string): (o: AddOutcome)
    requires forall p :: p in products ==> p < nextProductId
    ensures o.reply == AddFormatError <==> ParseNewProduct(text).None?
    ensures o.reply == CategoryNotFound <==>
              && ParseNewProduct(text).Some?
              && forall c :: c in categories ==> categories[c] != ParseNewProduct(text).value.category
    ensures !o.reply.ProductAdded? ==> o.products == products && o.nextProductId == nextProductId
    ensures o.reply.ProductAdded? ==> Inserted(categories, products, nextProductId, ParseNewProduct(text).value, o)
  {
    InsertParsed(categories, products, nextProductId, ParseNewProduct(text))
  }

  /** The product row o adds for f: the next id, the first category named f.category, f's fields. */
  ghost predicate Inserted(categories: map<int, string>, products: map<int, Product>, nextProductId: int,
                           f: NewProduct, o: AddOutcome)
  {
    && o.reply == ProductAdded(nextProductId, f.name, f.price)
    && nextProductId !in products
    && o.products.Keys == products.Keys + {nextProductId}
    && (forall p :: p in products ==> o.products[p] == products[p])
    && var added := o.products[nextProductId];
    && added.categoryId in categories && categories[added.categoryId] == f.category
    && (forall c :: c in categories && categories[c] == f.category ==> added.categoryId <= c)
    && added == Product(added.categoryId, f.name, f.description, f.price)
    && o.nextProductId == nextProductId + 1
  }

  /** The part of add_product after the parse: the category lookup and the INSERT. */
  function InsertParsed(categories: map<int, string>, products: map<int, Product>, nextProductId: int,
                        parsed: Option<NewProduct>): (o: AddOutcome)
    requires forall p :: p in products ==> p < nextProductId
    ensures o.reply == AddFormatError <==> parsed.None?
    ensures o.reply == CategoryNotFound <==>
              parsed.Some? && forall c :: c in categories ==> categories[c] != parsed.value.category
    ensures !o.reply.ProductAdded? ==> o.products == products && o.nextProductId == nextProductId
    ensures o.reply.ProductAdded? ==> parsed.Some? && Inserted(categories, products, nextProductId, parsed.value, o)
  {
    match parsed
    case None => AddOutcome(AddFormatError, products, nextProductId)
    case Some(f) =>
      match FirstCategoryNamed(categories, f.category)
      case None => AddOutcome(CategoryNotFound, products, nextProductId)
      case Some(c) =>
        AddOutcome(ProductAdded(nextProductId, f.name, f.price),
                   products[nextProductId := Product(c, f.name, f.description, f.price)],
                   nextProductId + 1)
  }

  /** The command the help text describes, for a category that exists, inserts exactly that product. */
  lemma AddProductRoundTrip(categories: map<int, string>, products: map<int, Product>, nextProductId: int,
                            f: NewProduct, extra: string, c: int)
    requires forall p :: p in products ==> p < nextProductId
    requires f.category != [] && !IsSpace(f.category[0])
    requires PlainField(f.category) && PlainField(f.name) && PlainField(f.description)
    requires TrailingFields(extra)
    requires c in categories && categories[c] == f.category
    requires forall d :: d in categories && categories[d] == f.category ==> c <= d
    ensures ProcessAddProduct(categories, products, nextProductId, AddProductCommand(f, extra))
         == AddOutcome(ProductAdded(nextProductId, f.name, f.price),
                       products[nextProductId := Product(c, f.name, f.description, f.price)],
                       nextProductId + 1)
  {
    NewProductRoundTrip(f, extra);
    AddParsed(categories, products, nextProductId, AddProductCommand(f, extra), f, c);
  }

  lemma AddParsed(categories: map<int, string>, products: map<int, Product>, nextProductId: int,
                  text: string, f: NewProduct, c: int)
    requires forall p :: p in products ==> p < nextProductId
    requires ParseNewProduct(text) == Some(f)
    requires c in categories && categories[c] == f.category
    requires forall d :: d in categories && categories[d] == f.category ==> c <= d
    ensures ProcessAddProduct(categories, products, nextProductId, text)
         == AddOutcome(ProductAdded(nextProductId, f.name, f.price),
                       products[nextProductId := Product(c, f.name, f.description, f.price)],
                       nextProductId + 1)
  {
    var r := FirstCategoryNamed(categories, f.category);
    assert r.Some? && r.value <= c && c <= r.value;
  }

  /** An insert keeps the tables' invariants: the new id is fresh and its category exists. */
  lemma AddKeepsWellFormed(categories: map<int, string>, products: map<int, Product>, nextProductId: int,
                           cart: Cart, text: string)
    requires WellFormed(categories, products, nextProductId, cart)
    ensures var o := ProcessAddProduct(categories, products, nextProductId, text);
            WellFormed(categories, o.products, o.nextProductId, cart)
  {
  }
}
