/**
 * Which handler of main.py an update reaches.
 *
 * This module rests on an assumption about the dispatcher: message handlers are tried in the order
 * they are registered, the first whose filters all pass takes the update, and a handler registered
 * without a state filter matches whatever state the user is in. Only change_price_process
 * (main.py:242) carries a state filter (waiting_for_price, "armed" here). The FSM state is taken to
 * be per user: aiogram keys it by (chat, user), and the two agree in a private chat with the bot.
 */
module Routing {
  import opened Wrappers
  import opened PyText
  import opened Parsing
  import opened Tables
  import opened Admin

  /** The message handlers of main.py, in registration order, and "no handler". */
  datatype MessageHandler =
    | Start | ShopMenu | BackToMain | Catalog | ShowCart | Support | ShowProfile
    | AdminPanel | ListProducts | ChangePriceStart | ChangePriceProcess | AddProductStart | AddProduct
    | Unhandled

  /**
   * The Command(cmd) filter on a message text: the first whitespace-separated word starts with '/',
   * and what follows splits at the first '@' into the command name and a mention that is empty or
   * the bot's own name.
   */
  predicate IsCommand(text: string, cmd: string, botName: string) {
    var words := Words(text);
    && |words| > 0
    && words[0][0] == '/'
    && var (name, mention) := Partition(words[0][1..], "@");
    && name == cmd
    && (mention == [] || mention == botName)
  }

  /** A text without '/' is never a command. */
  lemma LabelIsNotCommand(text: string, cmd: string, botName: string)
    requires '/' !in text
    ensures !IsCommand(text, cmd, botName)
  {
    if Words(text) != [] {
      FirstWordFromText(text);
    }
  }

  /** A command text contains '/', so it is none of the menu labels. */
  lemma CommandHasSlash(text: string, cmd: string, botName: string)
    requires IsCommand(text, cmd, botName)
    ensures '/' in text
  {
    FirstWordFromText(text);
  }

  /** The first registered handler whose filters pass a message with this text (None: no text). */
  function RouteMessage(text: Option<string>, armed: bool, botName: string): (h: MessageHandler)
    ensures text.None? ==> h == (if armed then ChangePriceProcess else Unhandled)
    ensures h == ChangePriceProcess ==> armed
  {
    match text
    case None => if armed then ChangePriceProcess else Unhandled
    case Some(t) =>
      if IsCommand(t, "start", botName) then Start
      else if t == "Магазин" then ShopMenu
      else if t == "Назад" then BackToMain
      else if t == "Каталог" then Catalog
      else if t == "Корзина" then ShowCart
      else if t == "Поддержка" then Support
      else if t == "Профиль" then ShowProfile
      else if t == "Админка" then AdminPanel
      else if t == "Товары" then ListProducts
      else if t == "Изменить цену" then ChangePriceStart
      else if armed then ChangePriceProcess
      else if t == "Добавить товар" then AddProductStart
      else if IsCommand(t, "addprod", botName) then AddProduct
      else Unhandled
  }

  /** The reply-keyboard buttons registered before the armed handler reach their own handlers whether or not the slot is armed. */
  lemma MenuButtonsBeatArmedSlot(text: string, armed: bool, botName: string)
    requires '/' !in text
    ensures text == "Магазин" ==> RouteMessage(Some(text), armed, botName) == ShopMenu
    ensures text == "Назад" ==> RouteMessage(Some(text), armed, botName) == BackToMain
    ensures text == "Каталог" ==> RouteMessage(Some(text), armed, botName) == Catalog
    ensures text == "Корзина" ==> RouteMessage(Some(text), armed, botName) == ShowCart
    ensures text == "Поддержка" ==> RouteMessage(Some(text), armed, botName) == Support
    ensures text == "Профиль" ==> RouteMessage(Some(text), armed, botName) == ShowProfile
    ensures text == "Админка" ==> RouteMessage(Some(text), armed, botName) == AdminPanel
    ensures text == "Товары" ==> RouteMessage(Some(text), armed, botName) == ListProducts
    ensures text == "Изменить цену" ==> RouteMessage(Some(text), armed, botName) == ChangePriceStart
  {
    LabelIsNotCommand(text, "start", botName);
  }

  /** The add-product button reaches its handler only while the slot is not armed. */
  lemma AddProductButtonRoute(text: string, armed: bool, botName: string)
    requires text == "Добавить товар"
    ensures RouteMessage(Some(text), armed, botName) == if armed then ChangePriceProcess else AddProductStart
  {
    // 14 characters, a length no label registered before it has.
    assert |text| == 14;
    LabelIsNotCommand(text, "start", botName);
  }

  /** Every /addprod command reaches add_product only while the slot is not armed. */
  lemma AddProductCommandRoute(text: string, armed: bool, botName: string)
    requires IsCommand(text, "addprod", botName)
    ensures RouteMessage(Some(text), armed, botName) == if armed then ChangePriceProcess else AddProduct
  {
    CommandHasSlash(text, "addprod", botName);
    SlashIsNoLabel(text);
    assert !IsCommand(text, "start", botName);
  }

  /** A text holding '/' is none of the reply-keyboard buttons. */
  lemma SlashIsNoLabel(text: string)
    requires '/' in text
    ensures text != "Магазин" && text != "Назад" && text != "Каталог" && text != "Корзина"
    ensures text != "Поддержка" && text != "Профиль" && text != "Админка" && text != "Товары"
    ensures text != "Изменить цену" && text != "Добавить товар"
  {
  }

  /**
   * As written, an unknown product id leaves the slot armed, so the admin's next "Добавить товар" is
   * read as a price payload instead of opening the add-product help.
   */
  lemma StuckSlotSwallowsAddProduct(products: map<int, Product>, id: int, price: int, botName: string)
    requires id !in products && IsSqlInteger(id)
    ensures var o := ProcessPriceAsWritten(products, Some(ShowInt(id) + " " + ShowInt(price)));
            && o.stillWaiting
            && RouteMessage(Some("Добавить товар"), o.stillWaiting, botName) == ChangePriceProcess
  {
    NotFoundLeavesSlotArmed(products, id, price);
    AddProductButtonRoute("Добавить товар", true, botName);
  }

  /** With the slot cleared on every path, whatever payload came before, the next button works. */
  lemma ClearedSlotRoutesAddProduct(products: map<int, Product>, payload: Option<string>, next: string, botName: string)
    requires next == "Добавить товар" || IsCommand(next, "addprod", botName)
    ensures RouteMessage(Some(next), ProcessPrice(products, payload).stillWaiting, botName)
         == (if next == "Добавить товар" then AddProductStart else AddProduct)
  {
    if next == "Добавить товар" {
      AddProductButtonRoute(next, false, botName);
    } else {
      AddProductCommandRoute(next, false, botName);
    }
  }

  // ---------------------------------------------------------------------------
  // Inline-button callbacks (no state filter on any of them)

  datatype CallbackHandler =
    | ShowProducts | BackToCatalog | ShowProduct | AddToCart | ClearCart | BackToShop | NoCallbackHandler

  /** The first registered callback handler whose filter passes this callback data. */
  function RouteCallback(data: string): (h: CallbackHandler)
    ensures h == ShowProducts <==> StartsWith(data, "cat_")
  {
    if StartsWith(data, "cat_") then ShowProducts
    else if data == "back_to_cat" then BackToCatalog
    else if StartsWith(data, "prod_") then ShowProduct
    else if StartsWith(data, "add_") then AddToCart
    else if data == "clear_cart" then ClearCart
    else if data == "back_to_shop" then BackToShop
    else NoCallbackHandler
  }

  /** A token "cat_N" reaches show_products, which reads back N. */
  lemma CategoryTokenRoute(data: string, id: int)
    requires data == Token("cat", id)
    ensures RouteCallback(data) == ShowProducts && CallbackId(data) == Some(id)
  {
    CallbackIdOfToken("cat", id);
    TokenStartsWith("cat", id);
  }

  /** A token "prod_N" reaches show_product, which reads back N. */
  lemma ProductTokenRoute(data: string, id: int)
    requires data == Token("prod", id)
    ensures RouteCallback(data) == ShowProduct && CallbackId(data) == Some(id)
  {
    CallbackIdOfToken("prod", id);
    TokenStartsWith("prod", id);
    StartsWithDiffers(data, "prod_", "cat_");
  }

  /** A token "add_N" reaches add_to_cart, which reads back N. */
  lemma AddTokenRoute(data: string, id: int)
    requires data == Token("add", id)
    ensures RouteCallback(data) == AddToCart && CallbackId(data) == Some(id)
  {
    CallbackIdOfToken("add", id);
    TokenStartsWith("add", id);
    StartsWithDiffers(data, "add_", "cat_");
    StartsWithDiffers(data, "add_", "prod_");
  }
}
