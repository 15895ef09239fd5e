# A verified model of the Heritage Crafts shop core

This project models, in Dafny, the logic of a small PHP shop. The shop is made of a
session cart, a JSON product catalogue, orders and their status, a single-use CSRF token
store, user roles merged from local users and newsletter subscribers, and a handful of
page scripts. The pages are: the cart page, the add-to-cart endpoint, the payment page,
product and user administration, the recruitment and support forms, the login page and
the forum. Each source file, or group of functions, becomes one module:

| module | file | what it holds |
|---|---|---|
| `Php` | php.dfy | the PHP library functions the core relies on (`trim`, `htmlspecialchars`, `strtolower`, `explode`/`implode`, `pathinfo`, `preg_replace('/\s+/', …)`, `substr_count`, `str_repeat`), written out |
| `Db` | db.dfy | a database table as a class whose rows an INSERT appends to, when the statement executes |
| `Catalog` | catalog.dfy | the product catalogue: the schema check, create/update/delete, `get_products`, `get_product` |
| `Cart` | cart.dfy | the session cart as a class over an insertion-ordered sequence of lines |
| `Csrf` | csrf.dfy | the token store: issue, then validate-and-consume |
| `Orders` | orders.dfy | `create_order`, `update_order_status`, `get_order_by_id`, `get_order_items` and its fallback |
| `Users` | users.dfy | roles, `update_user_role` and the `get_all_users` merge |
| `Paths` | paths.dfy | `split_full_name`, `relative_path`, `asset`, `site_url`, `media_url` |
| `CartPage`, `AddToCartApi`, `PaymentPage`, `AdminProducts`, `AdminUsers`, `Recruitment`, `Login`, `Forum`, `Support` | one file each | the POST handlers of the page scripts |

Imperative code stays imperative:
- The session cart, the token store, the catalogue file and the database tables are
  classes. Their methods carry `modifies` clauses.
- Each method is proved against a function on values (`Cart.AddLine`, `Csrf.Consume`,
  `Catalog.Created`, `Orders.SetStatus`, …). Lemmas prove the source's promises about
  those functions.
- Loops in the source are `while`/`for` loops with invariants. These include the common
  prefix in `relative_path`, the schema check, the seeding loop of the forum and the
  admin/other split of the user list.

Modelling choices:
- Prices are integers (cents), so subtotals are exact.
- Strings are sequences of characters, one per PHP byte.
- `filter_var(…, FILTER_VALIDATE_EMAIL)` is an `isEmail` parameter.
- `time()` is a `now` parameter, and a day of `strtotime` is 86400 seconds.
- The random CSRF token is a parameter (32 hexadecimal characters).
- `rawurlencode` is an `encode` parameter.
- `base_path()` and `SCRIPT_NAME` are parameters.
- Every database statement, file write, `move_uploaded_file` and `mail` call is
  represented by what happened: a parameter that says whether it was prepared, executed
  or written.
- The catalogue file is `Option<seq<Product>>`, where `None` means missing or
  unreadable. A save replaces the whole sequence or leaves the file as it was.
- MySQL's email comparison is modelled as exact equality.

Quirks of the code that are kept as written:
- `update_product` does not require an image, while `create_product` does.
- `delete_product` removes every duplicate of an id.
- A search of `"0"` disables filtering in `get_products`.
- When the read-back after a catalogue write fails, the new content stays written but
  the save reports failure.
- An order total uses the prices captured in the cart.
- The `get_order_items` fallback uses quantity 1 and the current catalogue price.
- The support form mails the request even when the insert failed.
- A payment marks the order `paid` whatever its status was.

## Model

| member | source | states |
|---|---|---|
| Php.Trim | ecommerce-project/includes/functions.php:360 | `trim` leaves no whitespace at either end and never lengthens the string |
| Php.TrimLeft | ecommerce-project/includes/functions.php:360 | the left half of `trim`: only whitespace is removed, and what remains starts with a non-space |
| Php.TrimRight | ecommerce-project/includes/functions.php:360 | the right half of `trim`: the result is a prefix, and everything cut off is whitespace |
| Php.TrimmedIsFixed | ecommerce-project/includes/functions.php:360 | a string with no whitespace at its ends is unchanged by `trim` |
| Php.LTrimChar | ecommerce-project/includes/functions.php:293 | `ltrim($s, c)` removes only leading `c`s, and what remains does not start with `c` |
| Php.RTrimChar | ecommerce-project/includes/functions.php:300 | the right half of `trim($s, c)`: a prefix remains, and only `c`s are cut off |
| Php.TrimChar | ecommerce-project/includes/functions.php:300 | `trim($s, c)` leaves no `c` at either end |
| Php.Lower | ecommerce-project/includes/functions.php:1225-1227 | `strtolower` keeps the length and lower-cases each ASCII letter in place |
| Php.LowerChar | ecommerce-project/includes/functions.php:1225 | an upper-case ASCII letter becomes lower case, and every other character is kept |
| Php.EscapeHtml | ecommerce-project/includes/functions.php:360 | `htmlspecialchars` is empty exactly for the empty string and never shortens |
| Php.Sanitize | ecommerce-project/includes/functions.php:348-361 | `sanitize` yields `''` exactly when the input is blank, which is the emptiness test every form uses |
| Php.Repeat | ecommerce-project/includes/functions.php:338 | `str_repeat` has length n times the piece |
| Php.IntToString | ecommerce-project/admin/products.php:50 | a rendered integer is non-empty and has no sign when non-negative |
| Php.NatToString | ecommerce-project/admin/products.php:50 | a rendered `time()` is non-empty and unsigned |
| Php.NatToStringDigits | ecommerce-project/admin/products.php:50 | a rendered `time()` is made of decimal digits only |
| Php.Count | ecommerce-project/includes/functions.php:48 | `substr_count` is 0 exactly when the character is absent, and at most the length |
| Php.LastIndexOf | ecommerce-project/admin/products.php:36 | the last position of a character, with no occurrence after it, or -1 |
| Php.Basename | ecommerce-project/includes/functions.php:342 | `basename` contains no `/` |
| Php.BasenameOfPlain | ecommerce-project/includes/functions.php:342 | `basename` of a name without `/` is the name |
| Php.Extension | ecommerce-project/admin/products.php:36 | `pathinfo(…, PATHINFO_EXTENSION)` contains no `.` and no `/` |
| Php.FileStem | ecommerce-project/admin/products.php:46 | `pathinfo(…, PATHINFO_FILENAME)` contains no `/` |
| Php.LastDotBeforeExtension | ecommerce-project/admin/products.php:50 | in `stem.ext` with a dot-free extension, the last dot is the one that was added |
| Php.NoSlashInJoined | ecommerce-project/admin/products.php:50 | joining a slash-free stem and extension with a dot adds no slash |
| Php.PathinfoOfJoined | ecommerce-project/admin/products.php:50 | `pathinfo` of `stem.ext` gives back the stem and the extension |
| Php.Split | ecommerce-project/includes/functions.php:224 | `explode` yields at least one part, and no part contains the separator |
| Php.SplitJoin | ecommerce-project/includes/functions.php:224-226 | `implode(sep, explode(sep, s)) == s` |
| Php.DropSpaces | ecommerce-project/includes/functions.php:368 | the skipped run of whitespace: what remains does not start with whitespace |
| Php.ReplaceSpaceRuns | ecommerce-project/includes/functions.php:368 | `preg_replace('/\s+/', sub, s)` never lengthens, and the only whitespace left is the substitute |
| Db.Table.Insert | ecommerce-project/support.php:31-54 | an INSERT appends exactly the row when it executes and changes nothing otherwise |
| Catalog.View | ecommerce-project/includes/functions.php:1269-1298 | the listed record keeps id, name, description, price and image path, and its image URL has no leading slash |
| Catalog.FirstIndex | ecommerce-project/includes/functions.php:1155-1170 | the position of the first product with the id, or -1 when none has it |
| Catalog.Lookup | ecommerce-project/includes/functions.php:1269-1298 | `get_product` finds a product exactly when one has the id, and returns the first one's view |
| Catalog.BadField | ecommerce-project/includes/functions.php:989-1010 | a record passes the schema check exactly when its id and price are positive and its name, description and image path are not blank |
| Catalog.FirstBad | ecommerce-project/includes/functions.php:989-1010 | the first record that fails the schema, every earlier one passing |
| Catalog.SchemaError | ecommerce-project/includes/functions.php:989-1010 | the schema error is absent exactly when every record passes, and otherwise names the first bad record and its field |
| Catalog.CheckSchema | ecommerce-project/includes/functions.php:989-1010 | the schema loop of `save_products_json` computes that first error |
| Catalog.SaveErrors | ecommerce-project/includes/functions.php:984-1059 | a save reports no error exactly when the schema passes and the file was written and read back |
| Catalog.SaveOutcome | ecommerce-project/includes/functions.php:984-1059 | a save succeeds exactly when the schema passes and the write succeeds; a failure carries one error |
| Catalog.AfterSave | ecommerce-project/includes/functions.php:1012-1058 | after a save the file holds the new sequence or the old content, and the new one when the save succeeded |
| Catalog.MaxId | ecommerce-project/includes/functions.php:1093-1099 | the largest id in the catalogue, or 0 for an empty one |
| Catalog.NextId | ecommerce-project/includes/functions.php:1093-1099 | a new id is above every existing id: the maximum plus one, or 1 for an empty catalogue |
| Catalog.WithLeadingSlash | ecommerce-project/includes/functions.php:1101-1104 | the stored image path starts with `/`, and a path that already does is kept |
| Catalog.Required | ecommerce-project/includes/functions.php:1068-1084 | a required field yields its error exactly when it is blank |
| Catalog.CreateErrors | ecommerce-project/includes/functions.php:1068-1084 | `create_product` has at most four field errors |
| Catalog.CreateErrorsReportEachField | ecommerce-project/includes/functions.php:1068-1084 | each of name, price, description and image is reported exactly when it fails, all collected together |
| Catalog.UpdateErrors | ecommerce-project/includes/functions.php:1133-1146 | `update_product` never asks for an image and has at most three errors |
| Catalog.UpdateErrorsReportEachField | ecommerce-project/includes/functions.php:1133-1146 | each of name, price and description is reported exactly when it fails |
| Catalog.AsCatalogErrors | ecommerce-project/includes/functions.php:1082-1084 | the field errors are returned one for one, in order |
| Catalog.Created | ecommerce-project/includes/functions.php:1061-1124 | creating appends exactly one new product at the end and leaves every existing product in place |
| Catalog.UpdateFirst | ecommerce-project/includes/functions.php:1155-1170 | an update replaces only the first product with the id, and changes nothing when no product has it |
| Catalog.ReplaceFirst | ecommerce-project/includes/functions.php:1155-1170 | the update loop finds the id exactly when a product has it, and produces that single replacement |
| Catalog.RemoveAll | ecommerce-project/includes/functions.php:1183-1209 | after a delete no product has the id |
| Catalog.RemoveAllKeepsOthers | ecommerce-project/includes/functions.php:1183-1209 | a delete keeps every product with another id and adds none |
| Catalog.RemoveAllShrinks | ecommerce-project/includes/functions.php:1183-1209 | a delete shrinks the catalogue exactly when some product has the id |
| Catalog.WithoutId | ecommerce-project/includes/functions.php:1183-1209 | the delete loop finds the id exactly when a product has it, and keeps all the others |
| Catalog.Matching | ecommerce-project/includes/functions.php:1224-1232 | every listed product matches the search in its lower-cased name or description |
| Catalog.MatchingSplits | ecommerce-project/includes/functions.php:1224-1232 | the filter keeps catalogue order: filtering a concatenation is concatenating the filtered parts |
| Catalog.MatchingIsComplete | ecommerce-project/includes/functions.php:1224-1232 | every product that matches the search is listed |
| Catalog.Listing | ecommerce-project/includes/functions.php:1262-1264 | a positive limit keeps the first `limit` matches, and no limit keeps them all |
| Catalog.UnfilteredIsEverything | ecommerce-project/includes/functions.php:1224 | a falsy search (null, `""`, `"0"`) lists every product in catalogue order |
| Catalog.ListProducts | ecommerce-project/includes/functions.php:1211-1267 | the listing loop computes exactly that filtered and truncated listing |
| Catalog.SanitizedNotBlank | ecommerce-project/includes/functions.php:1068-1084 | a field that passed the not-blank check is still not blank once sanitized |
| Catalog.SlashedNotBlank | ecommerce-project/includes/functions.php:1101-1104 | the sanitized and slashed image path of a valid form is not blank |
| Catalog.CreatedIsWellFormed | ecommerce-project/includes/functions.php:1061-1124 | a product created from a form without errors passes the schema check |
| Catalog.CreatedIsFound | ecommerce-project/includes/functions.php:1061-1124 | `get_product` finds the product that was just created under its new id |
| Catalog.ListingAfterCreate | ecommerce-project/includes/functions.php:1211-1267 | after a create, the unfiltered listing is the old listing plus the new product at the end |
| Catalog.Store.constructor | ecommerce-project/includes/functions.php:984-1059 | the store starts with the given file content |
| Catalog.Store.Get | ecommerce-project/includes/functions.php:1269-1298 | `get_product` finds a product exactly when the file is readable and holds the id |
| Catalog.Store.Save | ecommerce-project/includes/functions.php:984-1059 | `save_products_json`: the outcome and the new file content |
| Catalog.Store.CreateProduct | ecommerce-project/includes/functions.php:1061-1124 | field errors write nothing; otherwise the catalogue with the new product appended is saved |
| Catalog.Store.NewRecord | ecommerce-project/includes/functions.php:1093-1111 | the new record: next id, sanitized fields and the slashed image path |
| Catalog.Store.UpdateProduct | ecommerce-project/includes/functions.php:1126-1181 | field errors, an unreadable file and a missing id (`Product not found.`) write nothing; otherwise the first match is replaced and saved |
| Catalog.Store.DeleteProduct | ecommerce-project/includes/functions.php:1183-1209 | an unreadable file or a missing id returns false and writes nothing; otherwise every entry with the id is removed and saved |
| Catalog.Store.GetProducts | ecommerce-project/includes/functions.php:1211-1267 | `get_products` is the filtered and limited listing, or nothing when the file is unreadable |
| Cart.Ids | ecommerce-project/includes/functions.php:1303-1307 | the set of product ids that have a line |
| Cart.IndexOf | ecommerce-project/includes/functions.php:1319 | `isset($cart[$id])`: the position of the line for the id, or -1 exactly when there is none |
| Cart.RemoveId | ecommerce-project/includes/functions.php:1351-1355 | `unset` keeps exactly the lines of other products |
| Cart.SubtotalAppend | ecommerce-project/includes/functions.php:1363-1374 | appending a line adds its price times quantity to the subtotal |
| Cart.SubtotalUpdate | ecommerce-project/includes/functions.php:1363-1374 | changing one line changes the subtotal by the difference of its amounts |
| Cart.SubtotalRemove | ecommerce-project/includes/functions.php:1363-1374 | removing a product's line subtracts exactly that line's amount |
| Cart.NotThereRemovesNothing | ecommerce-project/includes/functions.php:1351-1355 | removing a product that has no line changes nothing |
| Cart.RemoveIdempotent | ecommerce-project/includes/functions.php:1351-1355 | `remove_from_cart` is idempotent |
| Cart.RemoveKeepsDistinct | ecommerce-project/includes/functions.php:1351-1355 | removing keeps the cart keyed by distinct ids |
| Cart.RemoveKeepsValid | ecommerce-project/includes/functions.php:1351-1355 | removing keeps the invariant: distinct ids, every quantity at least 1 |
| Cart.AddKeepsValid | ecommerce-project/includes/functions.php:1309-1336 | `add_to_cart` keeps the invariant, because a line that falls below 1 is unset |
| Cart.SetKeepsValid | ecommerce-project/includes/functions.php:1338-1349 | `update_cart_quantity` keeps the invariant |
| Cart.AddToExisting | ecommerce-project/includes/functions.php:1319-1320 | adding to an existing line increases only its quantity, and name, price, image and the other lines stay |
| Cart.AddNew | ecommerce-project/includes/functions.php:1321-1329 | a new product is appended with the catalogue's name and price and the given quantity |
| Cart.SetNeverInserts | ecommerce-project/includes/functions.php:1338-1349 | `update_cart_quantity` never inserts a line |
| Cart.SetTouchesOnlyItsLine | ecommerce-project/includes/functions.php:1338-1349 | the lines of other products survive an update untouched |
| Cart.IndexOfDistinct | ecommerce-project/includes/functions.php:1319 | in a cart with distinct ids, the lookup of a line's id finds that line |
| Cart.SetChangesSubtotal | ecommerce-project/includes/functions.php:1338-1349 | setting a positive quantity changes the subtotal by the price times the quantity difference |
| Cart.SessionCart.constructor | ecommerce-project/includes/functions.php:1303-1307 | a session without a cart has an empty one |
| Cart.SessionCart.Add | ecommerce-project/includes/functions.php:1309-1336 | `add_to_cart` on the session; an unknown product leaves the cart unchanged, and the invariant is kept |
| Cart.SessionCart.UpdateQuantity | ecommerce-project/includes/functions.php:1338-1349 | `update_cart_quantity`; a quantity of 0 or less is the same as `remove_from_cart` |
| Cart.SessionCart.Remove | ecommerce-project/includes/functions.php:1351-1355 | `remove_from_cart`: afterwards the product has no line |
| Cart.SessionCart.Clear | ecommerce-project/includes/functions.php:1357-1361 | `clear_cart` empties the cart |
| Cart.SessionCart.Totals | ecommerce-project/includes/functions.php:1363-1374 | `items` counts distinct lines, not quantities, and `subtotal` is the sum of price times quantity |
| Csrf.Issue | ecommerce-project/includes/functions.php:451-460 | issuing stores the token under its form with its time and leaves every other form's tokens as they were |
| Csrf.Consume | ecommerce-project/includes/functions.php:468-471 | consuming removes exactly that token, drops the form when none remain, and leaves other forms alone |
| Csrf.IssuedIsAccepted | ecommerce-project/includes/functions.php:451-473 | a freshly issued token validates for its form |
| Csrf.SingleUse | ecommerce-project/includes/functions.php:462-473 | a token that validated once does not validate again |
| Csrf.ConsumeKeepsOthers | ecommerce-project/includes/functions.php:462-473 | consuming one token leaves every other accepted token accepted |
| Csrf.IssueOpensOnlyItsForm | ecommerce-project/includes/functions.php:451-460 | issuing makes only the new token newly acceptable |
| Csrf.IssueKeepsNoEmptyForms | ecommerce-project/includes/functions.php:451-460 | after issuing, no form key has an empty token list |
| Csrf.ConsumeKeepsNoEmptyForms | ecommerce-project/includes/functions.php:468-471 | after consuming, no form key has an empty token list |
| Csrf.TokenStore.constructor | ecommerce-project/includes/functions.php:451-460 | a new session has no tokens |
| Csrf.TokenStore.Generate | ecommerce-project/includes/functions.php:451-460 | `generate_csrf_token` returns the token it stored, which then validates |
| Csrf.TokenStore.Validate | ecommerce-project/includes/functions.php:462-473 | validation succeeds exactly for a stored token of the form, consumes it, and rejects a null or empty token without change |
| Orders.ParseStatus | ecommerce-project/includes/functions.php:1692 | only the five status literals are accepted, each as itself |
| Orders.ParseName | ecommerce-project/includes/functions.php:1692 | every status is accepted under its own name |
| Orders.CustomerEmail | ecommerce-project/includes/functions.php:1397-1422 | the session email when valid, else the form's valid email, else the stored account email |
| Orders.Required | ecommerce-project/includes/functions.php:1424-1440 | a required field yields its error exactly when it is blank |
| Orders.FormErrors | ecommerce-project/includes/functions.php:1424-1440 | the checkout form has at most four errors, never the empty-cart one |
| Orders.FormErrorsReportEachField | ecommerce-project/includes/functions.php:1424-1440 | name, phone, address and email are each reported exactly when they fail, all collected together |
| Orders.ProductIds | ecommerce-project/includes/functions.php:1442-1499 | `product_ids` lists the cart line ids in cart order |
| Orders.ItemRows | ecommerce-project/includes/functions.php:1501-1536 | each written item row belongs to the new order, at most one per line |
| Orders.RowsMatchTotal | ecommerce-project/includes/functions.php:1501-1536 | when every item insert runs, there is one row per line and the rows sum to the cart subtotal |
| Orders.SetStatus | ecommerce-project/includes/functions.php:1690-1707 | the UPDATE gives the new status to the order's rows only |
| Orders.SetStatusIdempotent | ecommerce-project/includes/functions.php:1690-1707 | setting the same status twice is the same as once |
| Orders.FindOrder | ecommerce-project/includes/functions.php:1591-1610 | `get_order_by_id` finds an order with the id, or there is none |
| Orders.RowsOf | ecommerce-project/includes/functions.php:1614-1623 | the item rows of the order, taken from the table |
| Orders.NameMap | ecommerce-project/includes/functions.php:1627-1638 | the id-to-name map has at most one key per product |
| Orders.NameMapKeys | ecommerce-project/includes/functions.php:1627-1638 | the map has a name exactly for the ids in the catalogue |
| Orders.NameMapLastWins | ecommerce-project/includes/functions.php:1627-1638 | for duplicate ids the last product's name wins, as in a PHP array |
| Orders.Fallback | ecommerce-project/includes/functions.php:1642-1661 | the fallback items come from `product_ids` and all have quantity 1 |
| Orders.FallbackUsesCatalogue | ecommerce-project/includes/functions.php:1642-1661 | every fallback item is a catalogue product, with its current name and price |
| Orders.FallbackSplits | ecommerce-project/includes/functions.php:1642-1661 | the fallback keeps the order of `product_ids`: the items of a concatenation are the concatenated items |
| Orders.FallbackIsComplete | ecommerce-project/includes/functions.php:1642-1661 | every id of `product_ids` that the catalogue knows gives an item with its name, price and quantity 1 |
| Orders.OrderDb.constructor | ecommerce-project/includes/functions.php:1442-1499 | an empty order database |
| Orders.OrderDb.CreateOrder | ecommerce-project/includes/functions.php:1384-1560 | an empty cart gives only `Your cart is empty.`; form errors are all returned; otherwise one pending header with the cart subtotal and the cart's ids is written; failed item rows do not undo it; the cart is untouched |
| Orders.OrderDb.Place | ecommerce-project/includes/functions.php:1442-1536 | a missing table or failed header insert writes nothing; otherwise exactly one header and its item rows are added |
| Orders.OrderDb.AppendHeader | ecommerce-project/includes/functions.php:1442-1499 | the header gets the next id and is the only change |
| Orders.OrderDb.InsertItems | ecommerce-project/includes/functions.php:1501-1536 | the item loop appends the rows that executed and touches no header |
| Orders.OrderDb.UpdateOrderStatus | ecommerce-project/includes/functions.php:1690-1707 | `update_order_status` succeeds exactly for a known status whose UPDATE runs, and only then changes the order; the next id stays above every order id |
| Orders.OrderDb.GetOrder | ecommerce-project/includes/functions.php:1591-1610 | a returned order has the id; an existing order is found when the query is prepared |
| Orders.OrderDb.GetOrderItems | ecommerce-project/includes/functions.php:1612-1662 | stored item rows are named from the catalogue; without rows, the fallback from the order's product ids |
| Orders.BuildNameMap | ecommerce-project/includes/functions.php:1627-1638 | the map-building loop computes the id-to-name map |
| Orders.NameRows | ecommerce-project/includes/functions.php:1632-1636 | each stored row gets its name from the map, one for one |
| Orders.FallbackItems | ecommerce-project/includes/functions.php:1642-1661 | the fallback loop computes the fallback items |
| Users.ParseRole | ecommerce-project/includes/functions.php:873 | only the three role names are accepted, each as itself |
| Users.ParseRoleName | ecommerce-project/includes/functions.php:873 | every role is accepted under its own name |
| Users.LocalEntry | ecommerce-project/includes/functions.php:800-814 | a local user is listed under its id with its role, `customer` when absent |
| Users.LocalEntries | ecommerce-project/includes/functions.php:800-814 | the local users are listed one for one in query order |
| Users.SeenHasLocalEmails | ecommerce-project/includes/functions.php:800-814 | every non-empty local email is remembered in lower case |
| Users.SubscriberEntry | ecommerce-project/includes/functions.php:835-864 | a subscriber is listed under the negated id, as a customer from FluentCRM |
| Users.Imported | ecommerce-project/includes/functions.php:835-864 | the merge adds no more entries than there are subscriber rows |
| Users.ImportedIsNew | ecommerce-project/includes/functions.php:835-864 | every added subscriber has an email not seen before and a name |
| Users.KeptEntryIsNew | ecommerce-project/includes/functions.php:835-864 | a kept subscriber's entry is a named FluentCRM customer whose email is not among the seen ones |
| Users.ImportedFromKept | ecommerce-project/includes/functions.php:835-864 | every added entry comes from a subscriber row that passed the filter |
| Users.ImportedSplits | ecommerce-project/includes/functions.php:835-864 | the merge keeps query order: the entries of a concatenation are the concatenated entries |
| Users.ImportedIsComplete | ecommerce-project/includes/functions.php:835-864 | every subscriber with an email not yet seen is added |
| Users.MergeKeepsLocalFirst | ecommerce-project/includes/functions.php:791-869 | the merged list starts with all local users in order |
| Users.MergeAddsOnlyNewEmails | ecommerce-project/includes/functions.php:791-869 | every entry after the local users is a subscriber whose email, ignoring case, matches no local user |
| Users.ImportedIsNotLocal | ecommerce-project/includes/functions.php:835-864 | every added entry comes from FluentCRM and has an email no local user has, ignoring letter case |
| Users.NotLocalEmail | ecommerce-project/includes/functions.php:835-864 | an email outside the seen set belongs to no local user |
| Users.GetAllUsers | ecommerce-project/includes/functions.php:791-869 | `get_all_users` computes the merged list |
| Users.NormalizeLocal | ecommerce-project/includes/functions.php:800-814 | the local loop computes the entries and the seen emails |
| Users.NormalizeStep | ecommerce-project/includes/functions.php:800-814 | one more local user adds its entry and its lower-cased email |
| Users.MergeSubscribers | ecommerce-project/includes/functions.php:835-864 | the subscriber loop computes the added entries |
| Users.SetRole | ecommerce-project/includes/functions.php:871-884 | the UPDATE gives the role to the user with the id and changes no one else |
| Users.FindByEmail | ecommerce-project/admin/users.php:50-62 | the lookup returns a user with that email, or none exists |
| Users.UserDb.constructor | ecommerce-project/admin/users.php:64-80 | the user table with its next id, which is above every stored id |
| Users.UserDb.UpdateUserRole | ecommerce-project/includes/functions.php:871-884 | `update_user_role` succeeds exactly for one of the three roles when the UPDATE runs, and only then changes the table; the next id stays above every id |
| Users.UserDb.InsertUser | ecommerce-project/admin/users.php:64-80 | an executed insert appends the user under the next id, which no stored user has, and a failed one changes nothing |
| Paths.SplitFullName | ecommerce-project/includes/functions.php:366-376 | the first name has no space |
| Paths.SplitFullNameRejoins | ecommerce-project/includes/functions.php:366-376 | first and last name joined by a space give back the normalised name; the first name is empty exactly when the name is blank |
| Paths.JoinFront | ecommerce-project/includes/functions.php:374-375 | `implode` of two or more parts is the first part, the separator and the rest |
| Paths.Slashes | ecommerce-project/includes/functions.php:296 | backslashes become slashes, length kept |
| Paths.ScriptDir | ecommerce-project/includes/functions.php:294-297 | the script directory has no slash at either end |
| Paths.TargetDir | ecommerce-project/includes/functions.php:299-303 | the target directory is never `.` |
| Paths.SegmentsAreSlashesPlusOne | ecommerce-project/includes/functions.php:48 | counting slashes plus one equals the number of path segments |
| Paths.CountSplitAt | ecommerce-project/includes/functions.php:48 | the slash count splits at the last slash |
| Paths.CountAppend | ecommerce-project/includes/functions.php:48 | the count of a concatenation is the sum of the counts |
| Paths.Asset | ecommerce-project/includes/functions.php:143-197 | an asset link ends with `assets/` and the path without leading slashes |
| Paths.AssetFromDocumentRoot | ecommerce-project/includes/functions.php:143-197 | at the document root, a script k segments deep climbs exactly k levels, and one at the top none |
| Paths.AssetFromProjectDir | ecommerce-project/includes/functions.php:143-197 | in a project directory, a script below it climbs exactly the segments between the two |
| Paths.HomeUrl | ecommerce-project/includes/functions.php:42-63 | the home link ends with `index.php` |
| Paths.SiteUrl | ecommerce-project/includes/functions.php:30-141 | a path that names no file links to `index.php` |
| Paths.SiteUrlClimbsFromDocumentRoot | ecommerce-project/includes/functions.php:65-140 | a link to a file outside the script's tree climbs exactly the script's depth, then names the file's full path |
| Paths.HomeFromDocumentRoot | ecommerce-project/includes/functions.php:42-63 | the home link from k segments deep climbs exactly k levels |
| Paths.MediaUrl | ecommerce-project/includes/functions.php:199-230 | an empty path gives the logo, and an http(s) link is returned as it is |
| Paths.EncodeIdentity | ecommerce-project/includes/functions.php:224-226 | encoding segment by segment with an identity encoder gives back the path |
| Paths.CommonPrefix | ecommerce-project/includes/functions.php:325-333 | the common prefix is shared, and the next segments differ |
| Paths.RelativeLinkReachesTarget | ecommerce-project/includes/functions.php:336-345 | climbing out of the script's extra segments and going down the rest reaches the target directory |
| Paths.CommonLength | ecommerce-project/includes/functions.php:325-333 | the counting loop computes the common prefix length |
| Paths.ScriptDirOfAdminPage | ecommerce-project/includes/functions.php:294-297 | the directory of `/admin/users.php` is `admin` |
| Paths.TopLevelTarget | ecommerce-project/includes/functions.php:299-303 | `index.php` has target directory `""` and is its own basename |
| Paths.RelativePathDoubleSlash | ecommerce-project/includes/functions.php:321-342 | as written, the link from `/admin/users.php` to `index.php` is `..//index.php`; corrected, it is `../index.php` |
| Paths.LinksFromAdmin | ecommerce-project/includes/functions.php:336-345 | the link builder from `admin` yields `..//index.php` with the exploded empty directory and `../index.php` without |
| Paths.TopLevelTargetLink | ecommerce-project/includes/functions.php:291-346 | a link from any non-top script to a top-level file climbs the script's depth; corrected it then names the file, as written it adds a stray `/` |
| Paths.LinkToTop | ecommerce-project/includes/functions.php:336-345 | with no target segments the link is one `../` per script segment, then the file |
| Paths.LinkToTopAsWritten | ecommerce-project/includes/functions.php:336-345 | with the single empty target segment the link gets an extra `/` before the file |
| CartPage.AtLeastOne | ecommerce-project/cart/index.php:19 | `max(1, q)` is at least 1 and at least q, and is q or 1 |
| CartPage.Messages | ecommerce-project/cart/index.php:16-33 | each known action adds one message, and an unknown action adds none |
| CartPage.UpdateKeepsEveryLine | ecommerce-project/cart/index.php:18-22 | an update from this page never removes a line; only the product's quantity changes |
| CartPage.ApplyKeepsValid | ecommerce-project/cart/index.php:16-33 | every action keeps the cart invariant |
| CartPage.RemoveLeavesNone | ecommerce-project/cart/index.php:24-27 | after `remove` the product has no line, and removing again changes nothing |
| CartPage.HandlePost | ecommerce-project/cart/index.php:9-34 | a bad token adds one error and leaves the cart; a good one is consumed, applies the action and adds its message |
| AddToCartApi.AddedProductIsInCart | ecommerce-project/api/add-to-cart.php:20-43 | with the clamped quantity the product is in the cart afterwards, and no other product is added or dropped |
| AddToCartApi.Handle | ecommerce-project/api/add-to-cart.php:13-43 | 405 for non-POST, 400 for an id of 0 or less, 404 for an unknown product, all leaving the cart; otherwise one add and `cart_total` is the number of lines |
| PaymentPage.PaidWhateverBefore | ecommerce-project/cart/payment.php:40-53 | the order's rows become `paid` whatever they were, others are untouched, and paying again changes nothing |
| PaymentPage.Pay | ecommerce-project/cart/payment.php:8-56 | order 0 or an order not owned redirects and changes nothing; a bad token changes nothing and a missing method changes nothing but consume the token; otherwise the order is paid and the cart is cleared only when the UPDATE ran; order items and the next order id never change |
| AdminProducts.CheckUpload | ecommerce-project/admin/products.php:33-43 | the upload checks in order: missing file, extension outside jpg/jpeg/png/gif, then an upload error code |
| AdminProducts.KeepSafe | ecommerce-project/admin/products.php:48 | after stripping, only `[a-z0-9-_.]` remains |
| AdminProducts.Cut200 | ecommerce-project/admin/products.php:49 | `substr(…, 0, 200)` is a prefix of at most 200 characters, the whole string when short enough |
| AdminProducts.SafeBaseName | ecommerce-project/admin/products.php:45-49 | the reassignments of `$baseName` build the safe base name |
| AdminProducts.SafeBase | ecommerce-project/admin/products.php:45-49 | the safe base name has only `[a-z0-9-_.]` and at most 200 characters |
| AdminProducts.KeepSafeOfSafe | ecommerce-project/admin/products.php:48 | stripping a safe name changes nothing |
| AdminProducts.NoSpaceRunsOfSafe | ecommerce-project/admin/products.php:47 | a safe name has no whitespace to replace |
| AdminProducts.SafeBaseIdempotent | ecommerce-project/admin/products.php:45-49 | cleaning a cleaned name changes nothing |
| AdminProducts.StoredNameKeepsExtension | ecommerce-project/admin/products.php:50 | the stored name `base_time.ext` keeps the allowed extension and has stem `base_time` |
| AdminProducts.Upload | ecommerce-project/admin/products.php:26-60 | a refused upload names the first failed check, or the failed move; a stored one is under `/assets/images/products/` with an allowed extension |
| AdminProducts.HandleUpload | ecommerce-project/admin/products.php:26-60 | the upload branch computes that outcome |
| AdminProducts.Messages | ecommerce-project/admin/products.php:70 | catalogue errors become their messages one for one |
| AdminProducts.UploadRefusal | ecommerce-project/admin/products.php:26-60 | an upload is refused exactly when a file was sent and a check or the move failed |
| AdminProducts.ApplyUpload | ecommerce-project/admin/products.php:26-60 | a refused upload adds its one message; a stored one replaces the form's image |
| AdminProducts.UploadedInput | ecommerce-project/admin/products.php:26-60 | a stored image replaces the form's image with a path under the image directory; the other fields are kept |
| AdminProducts.Written | ecommerce-project/admin/products.php:63-95 | which list a create, update or delete writes: none for an unknown action, refused input or a missing id; one more product after a create, the same count after an update, no product with the id after a delete |
| AdminProducts.ActionErrors | ecommerce-project/admin/products.php:63-95 | the messages shown after the form action: none exactly after a successful save or for an unknown action; a failed delete shows its one message |
| AdminProducts.HandlePost | ecommerce-project/admin/products.php:16-97 | a bad token or an upload error skips create, update and delete, leaving the catalogue; otherwise the catalogue file holds what the action wrote when the save succeeded, and the page shows the action's exact messages; an accepted token is consumed |
| AdminProducts.Dispatch | ecommerce-project/admin/products.php:63-95 | an unknown action changes nothing; a create, update or delete that writes nothing reports an error; otherwise the file holds the written list exactly when the save succeeded, which is exactly when no error is shown; the errors shown are exactly the action's messages; a failed update shows `edit` |
| AdminProducts.Create | ecommerce-project/admin/products.php:64-72 | success is exactly no errors and returns to the list; field errors leave the file and show `create_product`'s field messages; otherwise the appended catalogue is saved, and a failed save shows its message |
| AdminProducts.Update | ecommerce-project/admin/products.php:74-84 | a failed update shows `edit`; field errors, an unreadable file or an unknown id leave the file and show `update_product`'s field messages, "Failed to load products." or "Product not found."; otherwise the first match is replaced and saved, and a failed save shows its message |
| AdminProducts.Delete | ecommerce-project/admin/products.php:86-94 | a delete always returns to the list; an unknown id leaves the file; otherwise every entry with the id is removed and saved |
| AdminUsers.FindSubscriber | ecommerce-project/admin/users.php:24-36 | the subscriber with the id, or none has it |
| Php.FirstWhere | ecommerce-project/admin/users.php:24-36 | the first row that passes the lookup's test, every earlier row failing it; none when no row passes |
| AdminUsers.FirstWithId | ecommerce-project/admin/users.php:24-36 | the first row with the id, or none has it |
| AdminUsers.Existing | ecommerce-project/admin/users.php:50-62 | a reused local user has the subscriber's email and a non-zero id; without such a user there is none to reuse |
| AdminUsers.ChangeRole | ecommerce-project/admin/users.php:14-101 | a bad token changes nothing; an accepted token is consumed; a positive id calls `update_user_role` and keeps the next id; an id of 0 or less takes the import path by the negated id; the next id stays above every user id |
| AdminUsers.ChangeExternalRole | ecommerce-project/admin/users.php:23-92 | a missing subscriber or email changes nothing; otherwise the local user with that email, or a newly inserted customer under a fresh id, gets the role; only the insert moves the next id on |
| AdminUsers.Admins | ecommerce-project/admin/users.php:107-116 | the admin group holds only administrators |
| AdminUsers.Others | ecommerce-project/admin/users.php:107-116 | the other group holds no administrator |
| AdminUsers.GroupsPartition | ecommerce-project/admin/users.php:107-116 | the two groups together are a permutation of the list |
| AdminUsers.GroupsKeepListOrder | ecommerce-project/admin/users.php:107-116 | each group keeps list order: splitting the list splits each group the same way |
| AdminUsers.DisplayOrderIsAdminsFirst | ecommerce-project/admin/users.php:107-116 | the display order is a permutation with every administrator before every other user |
| AdminUsers.OrderForDisplay | ecommerce-project/admin/users.php:107-116 | the `foreach` and `array_merge` compute that order |
| AdminUsers.Number | ecommerce-project/admin/users.php:117 | the display index runs 1, 2, … in display order |
| Recruitment.FieldErrors | ecommerce-project/recruitment.php:19-27 | name, email and position are each reported exactly when they fail, all collected together |
| Recruitment.DropNonAlnum | ecommerce-project/recruitment.php:46 | what remains after a run of non-alphanumerics starts with an alphanumeric |
| Recruitment.UnderscoreRuns | ecommerce-project/recruitment.php:46 | each run of non-alphanumerics becomes a single `_` |
| Recruitment.LTrimCharIsSuffix | ecommerce-project/recruitment.php:47 | trimming from the left leaves a suffix |
| Recruitment.TrimUnderscoresKeepsShape | ecommerce-project/recruitment.php:47 | trimming `_` keeps alphanumerics with single underscores |
| Recruitment.LowerKeepsShape | ecommerce-project/recruitment.php:47 | lower-casing yields `[a-z0-9_]` and keeps the underscores in place |
| Recruitment.DefaultBaseIsClean | ecommerce-project/recruitment.php:48-50 | `applicant` is a clean name |
| Recruitment.CleanBaseIsClean | ecommerce-project/recruitment.php:45-50 | the cleaned base is non-empty, only `[a-z0-9_]`, with no `_` at either end |
| Recruitment.TrimmedLoweredIsClean | ecommerce-project/recruitment.php:46-47 | the trimmed and lowered runs are empty or clean |
| Recruitment.CleanBaseSteps | ecommerce-project/recruitment.php:45-50 | the reassignments of `$baseClean` compute the cleaned base |
| Recruitment.CvFileNameKeepsExtension | ecommerce-project/recruitment.php:51 | the CV file name `base_cv_time.ext` keeps the allowed extension and has stem `base_cv_time` |
| Recruitment.HandleCv | ecommerce-project/recruitment.php:29-61 | a CV is refused exactly for an extension outside pdf/doc/docx or a failed move; a stored one is under the CV upload directory |
| Recruitment.Checked | ecommerce-project/recruitment.php:13-61 | the field errors plus at most one CV error, and no CV handling without a CV |
| Recruitment.StoreErrors | ecommerce-project/recruitment.php:63-97 | the insert reports no error exactly when the table exists and the statement is prepared and executed |
| Recruitment.Submit | ecommerce-project/recruitment.php:9-99 | a bad token gives one error and no insert; an accepted token is consumed; the insert is attempted only when there are no errors |
| Recruitment.Save | ecommerce-project/recruitment.php:63-97 | success exactly when no store error, and the row is appended only then |
| Login.NormalizeRedirect | ecommerce-project/auth/login.php:31-35 | a falsy target becomes `../index.php`, one starting with `../` or `/` is kept, any other gets `../` in front |
| Login.RedirectPath | ecommerce-project/auth/login.php:31-35 | the reassignments of `$redirectPath` compute that target |
| Login.NormalizeRedirectIdempotent | ecommerce-project/auth/login.php:31-35 | normalising a normalised target changes nothing |
| Login.Handle | ecommerce-project/auth/login.php:6-42 | a logged-in visitor is sent home without processing; a POST consumes an accepted token; a successful login redirects to the normalised target |
| Login.Submit | ecommerce-project/auth/login.php:14-42 | a bad token gives one error and no login; an accepted token is consumed; an empty email gives only its error, then an empty phone only its error; only then is `login_user` called |
| Forum.SeedCount | ecommerce-project/forum.php:77-131 | seeding happens only with no posts and at least 20 subscribers, and then inserts min(20, samples, subscribers) posts |
| Forum.SeedPost | ecommerce-project/forum.php:117-127 | post i has subscriber i as author, sample i as text, and is dated 20 − i days ago |
| Forum.SeedRows | ecommerce-project/forum.php:117-127 | at most one post per iteration |
| Forum.SeedRowsAllWritten | ecommerce-project/forum.php:117-127 | when every insert runs, post i is exactly the i-th seed post |
| Forum.SeedDatesOneDayApart | ecommerce-project/forum.php:123 | consecutive seed posts are one day apart |
| Forum.SeedRowsInThePast | ecommerce-project/forum.php:123 | every seed post is dated at least a day ago |
| Forum.Seed | ecommerce-project/forum.php:69-131 | the seeding step runs the counted iterations and appends the posts that were written |
| Forum.InsertSamples | ecommerce-project/forum.php:117-127 | the loop runs min(20, samples, subscribers) times |
| Forum.ReplyErrors | ecommerce-project/forum.php:140-147 | an id of 0 or less and an empty body are each reported, collected together |
| Forum.PostErrors | ecommerce-project/forum.php:191-199 | an empty title and an empty body are each reported, collected together |
| Forum.CheckReply | ecommerce-project/forum.php:140-147 | the reply checks append their errors to the setup errors |
| Forum.CheckPost | ecommerce-project/forum.php:191-199 | the post checks append their errors to the setup errors |
| Forum.SubmitReply | ecommerce-project/forum.php:136-186 | a bad token gives one error and no insert; an accepted token is consumed; any error prevents the insert |
| Forum.ReplySaveOutcome | ecommerce-project/forum.php:149-185 | a saved reply redirects to its thread |
| Forum.SaveReply | ecommerce-project/forum.php:149-185 | the reply is stored exactly when the insert ran |
| Forum.SubmitPost | ecommerce-project/forum.php:187-224 | a bad token gives one error and no insert; an accepted token is consumed; any error prevents the insert |
| Forum.PostSaveOutcome | ecommerce-project/forum.php:201-222 | a saved post redirects to the forum and never to a thread |
| Forum.SavePost | ecommerce-project/forum.php:201-222 | the post is stored exactly when the insert ran |
| Forum.HandlePost | ecommerce-project/forum.php:134-225 | `form_action=reply` runs the reply form and anything else the post form, each with its token, outcome and insert; a reply never adds a post, and a new post never adds a reply |
| Forum.Preview | ecommerce-project/forum.php:320 | the first 220 characters, with `...` appended exactly when the body is longer |
| Support.TicketErrors | ecommerce-project/support.php:18-29 | name, email, subject and message are each reported exactly when they fail, all collected together |
| Support.Notification | ecommerce-project/support.php:56-59 | the notification goes to the shop inbox, from the requester's email |
| Support.CollectErrors | ecommerce-project/support.php:18-29 | the page's appends compute those errors |
| Support.Submit | ecommerce-project/support.php:9-61 | a bad token gives one error, no insert and no mail; an accepted token is consumed; the insert runs only without errors, and success only when it executed |
| Support.Save | ecommerce-project/support.php:31-54 | success exactly when the statement is prepared and executed, and the ticket is stored only then |

## Left out

- Database access: the `mysqli` connections, the SQL text, table creation and migrations are not modelled. Each table is a sequence of rows, and each statement's fate (prepared, executed, its error text) is a parameter. The model assumes that `mysqli` reports a failed prepare or execute by its return value, the `if (!$stmt)` style the pages test; under PHP 8.1's default strict reporting such a failure throws instead, and the `try`/`catch` blocks that then skip the remaining statements are covered only through the per-statement parameters.
- Catalogue file I/O: the JSON encoding and decoding, the backup, write, re-read and restore sequence, and the cached `load_products_json` are not modelled. A save either replaces the whole sequence or leaves it, with the read-back quirk kept.
- `get_user_orders`, `get_all_orders`, `order_statistics`, `ensure_sample_products` and `get_product_image_map`: these are SQL reads and aggregates, not core logic.
- `login_user`, `register_user` and `login_admin` internals: their answer is a parameter of the login page; `logout_user` and the session helpers are not modelled.
- `filter_var` email validation, `rawurlencode`, `random_bytes`, `time`, `date`/`strtotime`, `move_uploaded_file` and `mail` are library or system calls. They are taken as parameters, as described above.
- HTML rendering, redirects via `header()`, `mkdir` of upload directories and the page templates are not modelled. A redirect is an outcome value.
- Floating-point prices and `number_format` are not modelled; prices are integer cents.
- Php.EscapeHtml: models `htmlspecialchars` with `ENT_QUOTES` on single-byte characters; invalid UTF-8 handling is not modelled.
- Php.Lower: lower-cases ASCII letters only, like `strtolower` in PHP 8; locale-dependent behaviour is not modelled.
- Paths.MediaUrl: its contract covers the empty and http(s) cases; other paths are only described by the function, because the encoder is a parameter.
- Paths.SiteUrl: its contract covers the home link; the file links are stated by Paths.SiteUrlClimbsFromDocumentRoot for a project at the document root only.
- Catalog.BadField: the `isset` test that refuses a record missing one of its five fields ("Invalid product structure at index N") and the `is_int`, `is_string` and `is_numeric` type tests of `save_products_json` are not modelled, because the typed `Product` record always has every field with its type; the field checks are modelled only for well-typed records.
- Catalog.SchemaError: for the same reason it never yields the structure error or a type error; a record read back from a hand-edited JSON file with a missing or mistyped field is outside the model.
- Forum.Seed: the subscriber query, the name join of the author and the sample texts are parameters; the foreign-key clean-up before seeding is not modelled.

## Findings

| source | as written | input that shows it | evidently intended | confidence | as-written member | corrected member |
|---|---|---|---|---|---|---|
| ecommerce-project/includes/functions.php:299-342 | `relative_path` keeps `$targetDir` as `''` for a top-level file, and `explode('/', '')` gives one empty segment, which is then imploded and followed by `/` | target `index.php` from script `/admin/users.php` gives `..//index.php` | `../index.php`: the link climbs one level and names the file | not executed | Paths.RelativePathDoubleSlash | Paths.TopLevelTargetLink |
