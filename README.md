# Shop bot store, admin workflow and parsers

This project models the core of a Telegram shop bot (`main.py`). The bot keeps four SQLite tables:
`users`, `categories`, `products` and `cart`. Customers browse categories and products through inline
buttons, add products to a cart, view the cart with its total, clear it, and view their profile.
Admins, listed in `ADMIN_IDS`, can list products. They can change a price through a one-message
pending state (`AdminStates.waiting_for_price`) and add a product with `/addprod`.

The model has these modules:

- `Wrappers`: the `Option` type.
- `PyText`: the Python string builtins the handlers rely on. This covers `str.split(sep)`,
  `str.replace`, `str.strip`, `str.split()` with no argument, `str.partition` and integer numerals.
- `Access`: `is_admin`.
- `Parsing`: the callback tokens `cat_N` / `prod_N` / `add_N`, the price payload `"<id> <price>"` and
  the `/addprod Category | Name | Description | Price` command.
- `Tables`: the four tables as maps, their invariant, and each SQL statement as a function on the maps.
  Query results are sequences in ascending primary-key order.
- `Admin`: the price-change step and the add-product step as functions from the tables to an outcome.
  The price-change step exists both as written and as corrected.
- `ShopBot`: class `Shop`, whose fields are the tables and the set of users whose price slot is armed.
  Each handler is a method. `show_cart`'s accumulation loop is the method `RenderCart`.
- `Routing`: which handler a message or callback reaches.

Three things are assumed and stated rather than derived.

- **Dispatcher.** Handlers are tried in registration order. A handler without a state filter matches
  in every state. Only `change_price_process` has a state filter. The FSM state is kept per user. aiogram keys
  it by (chat, user), and the two agree when each admin talks to the bot in a private chat.
- **Row order.** The queries have no `ORDER BY`. The model returns rows in ascending primary-key order.
- **Numbers.** Prices and balances are whole numbers.

Where the code does something other than what one might expect of it, the model follows the code:

- `add_to_cart` does not check that the product exists. Any readable id gets a cart line, and the
  inner join of the cart view hides lines whose product has no row.
- `change_price_process` does not check `is_admin` again. The class invariant `Shop.Valid` shows that
  only admins are ever armed, because `change_price_start` is the only arming step and it is gated.
- The SQLite driver binds only integers in the signed 64-bit range. A larger id read from a callback
  or a price payload makes the query raise. add_to_cart and the catalog handlers then do nothing, and
  change_price_process answers with the format error.

## Model

| member | source | states |
|---|---|---|
| Access.IsAdmin | main.py:14-27 | a user is an admin exactly when their id is listed in ADMIN_IDS |
| Parsing.CallbackId | main.py:111 | `int(data.split("_")[1])`, as also at main.py:127 and main.py:141; no id where Python raises (no `_`, or a second field that is not a numeral); its read-back is stated by Parsing.CallbackIdOfToken and its failure case by Parsing.CallbackIdNeedsSeparator |
| Parsing.CallbackIdOfToken | main.py:105-111 | reading back `int(data.split("_")[1])` from a token `prefix_N` built by a keyboard gives N, for every id (negative ids too) and every prefix without `_` |
| Parsing.CallbackIdNeedsSeparator | main.py:111 | callback data without `_` has no second field, so no id is read |
| Parsing.ParsePriceChange | main.py:245-246 | a payload is accepted exactly when it has two whitespace-separated tokens and both are numerals, and then the id is the first and the price the second |
| Parsing.PriceChangeRoundTrip | main.py:240-246 | the prompt's example format `"<id> <price>"` is read back as exactly that id and price, for every id and price, negative prices included |
| Parsing.ParseNewProduct | main.py:275-276 | `text.replace("/addprod ", "").strip().split(" \| ")`, the first three fields and `float(parts[3])`; no product where Python raises (fewer than four fields, or a fourth field that is not a numeral); its properties are stated by Parsing.NewProductRoundTrip and Parsing.TrailingSpaceBreaksRoundTrip |
| Parsing.NewProductRoundTrip | main.py:264-276 | the command the help text describes is parsed back to the same category, name, description and price, for fields without `\|` and without "/addprod" (a `/` alone is fine) and a category that is non-empty and does not start with whitespace; fields after the fourth are ignored |
| Parsing.TrailingSpaceBreaksRoundTrip | main.py:275-276 | for every product whose fields the command carries, a single space as trailing field makes the command fail: `strip()` also eats the space after the last `\|`, the price field becomes "<price> \|" and the parse is rejected |
| Parsing.SeededDescriptionIsPlain | main.py:71 | the seeded description "8 ГБ / 256 ГБ, серебристый" is a field the command carries unchanged |
| PyText.Split | main.py:275 | `str.split(sep)` gives at least one piece and no piece holds sep; PyText.JoinSplit states that the pieces make up the string |
| PyText.ReplaceAll | main.py:275 | `str.replace(pat, rep)`; its meaning is stated by PyText.ReplaceIsJoinOfSplit |
| PyText.Strip | main.py:275 | `str.strip()`: the result neither starts nor ends with whitespace and only whitespace is removed, through the contracts of TrimStart and TrimEnd; PyText.StripNoop states that text without surrounding whitespace is unchanged |
| PyText.ParseInteger | main.py:245-246 | `int()` / `float()` on an integer numeral after stripping whitespace; a number is read only from a non-blank string; PyText.ParseShowInt states that every integer's numeral reads back |
| PyText.JoinSplit | main.py:275 | `sep.join(s.split(sep)) == s`: splitting loses nothing |
| PyText.ReplaceIsJoinOfSplit | main.py:275 | `s.replace(pat, rep)` replaces every occurrence, left to right, without overlaps |
| PyText.Words | main.py:245 | `str.split()` yields non-empty tokens without whitespace |
| PyText.WordsSplitAtSpace | main.py:245 | `str.split()` cuts at every whitespace character: the words of a, a whitespace character, b are the words of a followed by those of b |
| PyText.WordsSkipSpaces | main.py:245 | leading whitespace does not change `str.split()`, and a string of whitespace only has no words |
| PyText.WordsSingle | main.py:245 | a non-empty run without whitespace splits into itself; with the two rows above this determines `str.split()` on every string |
| PyText.ParseShowInt | main.py:245 | the numeral of every integer is read back as that integer |
| Tables.Ascending | main.py:102 | the rows of a query list every key of the table once, in strictly ascending order |
| Tables.InsertUser | main.py:80 | INSERT OR IGNORE adds a user who is missing, with balance 0 and no email, and leaves existing rows unchanged |
| Tables.InsertUserIdempotent | main.py:80 | running /start twice leaves the users table as running it once |
| Tables.ProfileOf | main.py:205-208 | the profile shows a missing user as balance 0 and "не указана"; it shows a NULL or empty email as "не указана"; otherwise it shows the stored values |
| Tables.ProfileDefaultsMatchNewUser | main.py:205-208 | the profile of a user is the same before and after /start inserts their row |
| Tables.CategoryList | main.py:102 | `SELECT id, name FROM categories`: one row per category; the row contents are stated by Tables.CategoryListRows |
| Tables.CategoryListRows | main.py:102-105 | the catalog lists every category once, each with its own name, in ascending id order |
| Tables.ProductsOf | main.py:114 | `SELECT id, name FROM products WHERE category_id = ?`: one row per product of the category; the row contents are stated by Tables.ProductsOfCategory |
| Tables.ProductsOfCategory | main.py:114-117 | the buttons of category c are exactly the products of c, each with its own name, in ascending id order |
| Tables.FirstCategoryNamed | main.py:278-283 | a category is found exactly when some category has that exact name; the one found has the least id among them |
| Tables.ProductListing | main.py:225-232 | each listed row is a product with its own name and price and the name of its category, in ascending id order, one row per product whose category exists |
| Tables.ListingIsComplete | main.py:225 | when every product's category exists, the join drops nothing: one row per product |
| Tables.AddLine | main.py:144-149 | the upsert creates a line with quantity 1 when none exists, otherwise adds 1; no other line changes |
| Tables.QuantityCountsAdds | main.py:63 | after n adds there is exactly one line for the pair, and its quantity grew by n |
| Tables.ClearCartOf | main.py:186 | the delete removes exactly the user's lines and keeps every other line unchanged |
| Tables.ClearEmptyCart | main.py:182-187 | clearing a cart with no lines for the user changes nothing |
| Tables.AddLineKeepsWellFormed | main.py:144-149 | the upsert keeps every quantity at least 1 |
| Tables.ClearCartKeepsWellFormed | main.py:186 | the delete keeps every quantity at least 1 |
| Tables.CartRows | main.py:158-163 | the cart JOIN: one row per line of the user whose product exists; its total is stated by Tables.CartTotalInRowOrder and the join by Tables.DanglingLineHidden |
| Tables.CartTotalInRowOrder | main.py:170-176 | the running total over the joined rows equals the order-free sum of price × quantity over the user's joined lines |
| Tables.TotalAfterAdd | main.py:144-174 | adding a product raises the cart total by its price; an id without a product row adds nothing |
| Tables.DanglingLineHidden | main.py:139-163 | a cart line for an id without a product row leaves the cart view unchanged |
| Tables.ClearedCartIsEmpty | main.py:182-186 | after clear_cart the user's cart view is empty and the total is 0 |
| Tables.OtherCartsUntouched | main.py:144-186 | one user's add or clear leaves every other user's cart view unchanged |
| Admin.ProcessPriceAsWritten | main.py:242-258 | an unparsable payload, or an id outside the driver's 64-bit range, is a format error and changes nothing; a parsed id in range without a row is "not found", changes nothing and leaves the slot armed; otherwise only that product's price is set, unsigned, and the slot is cleared |
| Admin.ProcessPrice | main.py:242-258 | the corrected step: the same reply and products table as written, and the slot cleared on every path |
| Admin.PriceChangeApplied | main.py:245-255 | a payload `"<id> <price>"` for a known id changes exactly that price and replies with the product's name and the new price |
| Admin.OversizedIdIsFormatError | main.py:245-257 | an id outside the signed 64-bit range makes the SELECT raise; the bare except answers with the format error, nothing changes and the slot is cleared |
| Admin.NotFoundLeavesSlotArmed | main.py:248-252 | as written, a well-formed payload for an unknown id changes nothing and the slot stays armed |
| Admin.PriceChangeKeepsWellFormed | main.py:253 | a price update keeps the tables' invariant |
| Admin.ProcessAddProduct | main.py:274-288 | a parse failure and an unknown category are each an error that inserts nothing; otherwise exactly one product is inserted under a fresh id, with the first category of that name and the parsed fields, and existing products are unchanged |
| Admin.InsertParsed | main.py:277-286 | after the parse: no category of that name inserts nothing; otherwise exactly one row is added under the next id, with the least category id of that name and the parsed fields |
| Admin.AddProductRoundTrip | main.py:264-286 | the help text's command for an existing category inserts exactly that product under the next id, for fields without `\|` and without "/addprod" and a category that is non-empty and does not start with whitespace |
| Admin.AddKeepsWellFormed | main.py:284 | an insert keeps the tables' invariant: the id is fresh and the category exists |
| Routing.IsCommand | main.py:76 | the `Command` filter of main.py:76 and main.py:270: the first word starts with '/', names the command and mentions no other bot; Routing.LabelIsNotCommand and Routing.AddProductCommandRoute state its consequences |
| Routing.LabelIsNotCommand | main.py:76 | a text without `/` is never a command |
| Routing.RouteMessage | main.py:76-271 | with no text, only the armed price handler can take the message; the price handler is reached only when the slot is armed |
| Routing.MenuButtonsBeatArmedSlot | main.py:89-242 | every menu button registered before the price handler reaches its own handler, armed or not |
| Routing.AddProductButtonRoute | main.py:242-261 | "Добавить товар" reaches add_product_start only while the slot is not armed; while armed it reaches the price handler |
| Routing.AddProductCommandRoute | main.py:242-271 | every /addprod command reaches add_product only while the slot is not armed; while armed it reaches the price handler |
| Routing.StuckSlotSwallowsAddProduct | main.py:248-261 | as written, after a "not found" payload the admin's next "Добавить товар" is taken as a price payload |
| Routing.ClearedSlotRoutesAddProduct | main.py:258-271 | with the corrected step, after any payload the next "Добавить товар" or /addprod reaches its own handler |
| Routing.RouteCallback | main.py:109-110 | callback data reaches show_products exactly when it starts with `cat_` |
| Routing.CategoryTokenRoute | main.py:105-111 | a `cat_N` button reaches show_products, which reads back N |
| Routing.ProductTokenRoute | main.py:117-127 | a `prod_N` button reaches show_product, which reads back N |
| Routing.AddTokenRoute | main.py:134-141 | an `add_N` button reaches add_to_cart, which reads back N |
| ShopBot.LineOf | main.py:172-175 | a cart line shows the product's name and quantity and the subtotal price × quantity |
| ShopBot.RenderCart | main.py:170-176 | the loop produces one line per joined row, in row order, and the running total of the subtotals |
| ShopBot.Shop.constructor | main.py:58-63 | a new store holds the given catalog, no users, no cart lines and no armed slot |
| ShopBot.Shop.Start | main.py:76-81 | /start inserts the user if missing; nothing else changes |
| ShopBot.Shop.AddToCart | main.py:139-151 | a readable id in the 64-bit range increments or creates the user's line, with no check that the product exists; an unreadable token or an id the driver cannot bind changes nothing |
| ShopBot.Shop.ShowCart | main.py:154-180 | the reply is "Корзина пуста." exactly when the join is empty; otherwise there is one line per joined row, and the total is the sum of the subtotals |
| ShopBot.Shop.ClearCart | main.py:182-188 | all of the user's lines are deleted |
| ShopBot.Shop.ShowProfile | main.py:201-211 | the profile shows the stored values, with the defaults for a missing row or email |
| ShopBot.Shop.Catalog | main.py:98-107 | one button per category, from the categories table |
| ShopBot.Shop.ShowProducts | main.py:109-119 | a readable category id in the 64-bit range lists its products; any other token gives no reply |
| ShopBot.Shop.ShowProduct | main.py:125-137 | a card is shown exactly when the token is readable, the id is in the 64-bit range and the product exists, and it carries that product's row |
| ShopBot.Shop.AdminPanel | main.py:214-218 | the admin panel is shown exactly to admins |
| ShopBot.Shop.ListProducts | main.py:220-233 | a non-admin gets no reply; an admin gets "Нет товаров." for an empty join, otherwise the joined listing |
| ShopBot.Shop.ChangePriceStart | main.py:235-240 | exactly an admin is prompted and armed; anyone else leaves the slots unchanged; only admins stay armed |
| ShopBot.Shop.ChangePriceProcess | main.py:242-258 | an armed user is an admin; the reply and products are those of the price step as written; the user's slot is cleared, except after "Товар не найден.", when it stays armed |
| ShopBot.Shop.AddProductStart | main.py:260-268 | the format help is shown exactly to admins |
| ShopBot.Shop.AddProduct | main.py:270-288 | a non-admin gets no reply and changes nothing; for an admin, the reply, products and next id are those of the add-product step |

## Left out

- Floating point. `float()` also accepts `"1.5"`, `"1e3"`, `"inf"` and `"nan"`. The id is `int(float(tok))`, which truncates toward zero (main.py:245-246). The model reads only integer numerals: sign, digits and single underscores between digits. Prices, balances and subtotals are whole numbers. `float()` is also exact only up to 2^53: for the payload "9007199254740993 5" the code updates product 9007199254740992, while the model looks up 9007199254740993. Prices above 2^53 are rounded in the same way.
- Parsing.ParsePriceChange, Admin.ProcessPriceAsWritten: the model reads only the ASCII digits '0'-'9'. Python's `int()` and `float()` also accept other Unicode decimal digits (category Nd), such as fullwidth digits, so a payload like "７ ９９９９０" changes a price in the code but is a format error in the model. The same holds for the id of a callback token, though the keyboards only build ASCII ids.
- `Command` filter details. The model does not cover the case-insensitive comparison of the bot mention or commands in captions. The bot's own name is a parameter.
- Keyboards, Markdown, `message.answer` / `edit_text` and the currency formatting `:,.0f` with `.replace(",", " ")` (main.py:30-55, 136, 175-176, 209, 232). A reply is modelled by what it carries.
- Admin.ProcessPriceAsWritten, Admin.ProcessAddProduct, ShopBot.Shop.ChangePriceProcess, ShopBot.Shop.AddProduct: a Markdown reply that Telegram rejects is not modelled. An example is a product name with an unpaired `*`. The success replies at main.py:255 and main.py:286 are sent inside the `try`, after the commit. Such a rejection sends the format-error reply even though the change is stored, and change_price_process then clears the slot. The model assumes every reply is delivered.
- Admin.ProcessPriceAsWritten: the 64-bit bound is checked on the integer the model reads. In Python the id passes through `float` first, so ids within about 1024 of 2^63 round across the bound.
- Admin.ProcessAddProduct: an AUTOINCREMENT id past 2^63 - 1 (SQLITE_FULL) is not modelled. The next id is an unbounded integer.
- Parsing.NewProductRoundTrip, Admin.AddProductRoundTrip: the round trip is stated for fields without "/addprod" and for a category that is non-empty and does not start with whitespace. `strip()` removes leading whitespace of the category, and an empty category leaves only three fields. The bare `replace("/addprod ", "")` would also cut such text out of a field. The trailing fields are also required to end in a non-space, which is stronger than the code needs. `strip()` only removes trailing whitespace, so the round trip breaks only when the trailing field is whitespace only, as Parsing.TrailingSpaceBreaksRoundTrip shows.
- The static screens shop_menu, back_to_main, support, back_to_catalog and back_to_shop (main.py:89-95, 121-123, 190-198). They change no state. The model covers only their routing.
- `create_db` seeding (main.py:65-73). This is startup work. The categories table has no unique name, so a re-seed does not deduplicate. The model's constructor takes any well-formed catalog.
- The `/addcat` command. It is named in a reply (main.py:281) but not implemented in main.py.
- aiosqlite connections, `async`/`await` and the polling loop (main.py:291-297). Each SQL statement is one atomic map update, and the handlers run one at a time.
- Row order. No query has `ORDER BY`. The model fixes ascending primary-key order.
- ShopBot.Shop.ShowCart: states the total as the sum in row order. Tables.CartTotalInRowOrder proves that this equals the order-free sum.
- Routing.RouteMessage: registration-order dispatch is an assumption about the framework, not something read from main.py.

## Findings

| source | as written | input that shows it | evidently intended | confidence | as-written member | corrected member |
|---|---|---|---|---|---|---|
| main.py:250-258 | on "Товар не найден." the handler returns before `state.clear()`, so the price slot stays armed | an admin sends "Изменить цену", then `"999 100"` with no product 999, then "Добавить товар": the last message is taken as a price payload and answered with a format error | the slot is cleared after every reply, as on the success and format-error paths | not executed | Admin.ProcessPriceAsWritten, ShopBot.Shop.ChangePriceProcess, Routing.StuckSlotSwallowsAddProduct | Admin.ProcessPrice, Routing.ClearedSlotRoutesAddProduct |
