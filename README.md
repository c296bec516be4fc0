# A verified model of the shop's stores: orders, products, categories, customers

The shop keeps four JSON documents: products, orders, categories and
customers. The `functions/` modules load a whole document, change the list in
memory and save it back. This project models that in-memory logic in Dafny
and proves what it promises. Each document is a `seq` of typed records, and
each module that changes a document is a class whose field holds the loaded
list. Loading and saving are the boundary of the model.

- `common.dfy` (`Common`): the shared vocabulary.
  - `Option`, `Result` and `Status`.
  - ASCII `strip`, `casefold` and `isdigit`.
  - Decimal text of a number.
  - Python's order on `str`.
  - A stable `sorted()` with its permutation and ordering proofs.
  - A first-failure traversal.
  - The "largest id plus one" allocation loop that every store repeats.
- `records.dfy` (`Records`): the product, order-line, order and category
  records.
  - The id index `_index_products_by_id` builds. Later products overwrite
    earlier ones in it, so an id maps to the last product that has it.
- `products.dfy` (`Products`, functions/product_manager.py):
  - stock and price text;
  - id allocation;
  - `add_product`;
  - `delete_product`, which order lines can block;
  - keyed sorting;
  - the recount of each product's `order_tally`.
- `orders.dfy` (`Orders`, functions/order_manager.py):
  - item normalisation and id allocation;
  - the stock check and line pricing;
  - the stock bookkeeping of `add_order`, `edit_order` and `delete_order`;
  - the listings.
- `categories.dfy` (`Categories`, functions/category_manager.py):
  - the wrapped and bare document shapes and id allocation;
  - the listing sorted by casefolded name;
  - add and rename, with names unique up to case and surrounding
    whitespace;
  - propagation of a new name to products;
  - delete and delete-all, which products can block.
- `binder.dfy` (`Binder`, functions/product_categories.py):
  - the numbered category menu;
  - the 1-based selection, with an "add new" slot;
  - writing the choice into a product.
- `customers.dfy` (`Customers`, functions/customer_manager.py):
  - the email pattern;
  - the Luhn check digit (ISO/IEC 7812-1, Annex B);
  - card brands;
  - masking of payment methods;
  - `add_customer`, lookup and the name-ordered listing.

Money is in integer pence. Python's `float()` is a parameter of the price
conversion.

## What the model follows from the code

- **The order engine's stock keys.** The engine reads and writes only
  `product_stock` and `product_total_ordered`. An absent key reads as 0.
  `add_product`, however, writes the stock under `stock`, and the tally
  recount writes `order_tally`. The model keeps these fields apart.
  `Orders.FreshProductCannotBeOrdered` proves the consequence: a product just
  created by `add_product` cannot be ordered unless negative stock is
  allowed, whatever stock it was given.
- **Per-line stock check.** Each item is checked against stock on its own.
  Repeated ids are not added up first. `Orders.PerLineCheckAdmitsOversell`
  proves that two lines that each fit, but not together, are admitted, and
  the product's stock then goes negative.
- **Duplicate product ids.** The id index keeps the last product with each
  id. All stock moves land on that product; earlier duplicates are never
  touched.
- **Flat categories.** A category carries only an id and a name. There is no
  parent and no display code. A rename is checked against every name,
  including the target's own, so a rename that only changes letter case is
  refused.
- **Email and a final newline.** `validate_email` uses `re.match` with `$`.
  That accepts a final newline after an otherwise valid address.
  `Customers.Body` models this.

## Model

| member | source | states |
|---|---|---|
| Common.NextId | functions/order_manager.py:36-43 | the allocated id is at least 1, above every existing id, and one more than the largest id when that is positive |
| Common.Trim | functions/category_manager.py:76 | `strip()` returns text no longer than its input with no whitespace at either end; it is empty exactly when the text is all whitespace |
| Common.Casefold | functions/category_manager.py:76 | `casefold()` keeps the length, leaves no capital letter in the result and leaves every character that is not a capital as it was |
| Common.CasefoldIdempotent | functions/category_manager.py:76 | folding folded text changes nothing, so a stored key folds to itself |
| Common.CasefoldSameUpToCase | functions/category_manager.py:76-80 | two names fold to the same key exactly when they have the same length and agree character by character up to ASCII case |
| Common.TrimIdempotent | functions/category_manager.py:83 | stripping an already stripped name changes nothing |
| Common.TrimKeeps | functions/product_manager.py:62-63 | `strip()` removes only whitespace, so every other character survives it |
| Common.NatText | functions/product_categories.py:12 | `str()` of a number is a non-empty run of digits whose decimal value is that number |
| Common.StrLeTotal | functions/category_manager.py:68 | any two strings compare under Python's `<=` |
| Common.StrLeTransitive | functions/category_manager.py:68 | Python's `<=` on strings is transitive |
| Common.StrLeAntisymmetric | functions/category_manager.py:68 | two strings that are each `<=` the other are equal |
| Common.SortBy | functions/category_manager.py:68 | `sorted()` returns a permutation of its input: the same multiset of elements |
| Common.SortBySorted | functions/category_manager.py:68 | the stable sort orders its result by any total preorder; `SortBy` keeps the multiset, so the result is a sorted permutation |
| Common.InsertSorted | functions/category_manager.py:68 | inserting into a sorted list keeps it sorted |
| Common.SortByStable | functions/category_manager.py:68 | `sorted()` is stable: for any value, the elements that tie with it come out in the order they went in |
| Common.InsertStable | functions/category_manager.py:68 | inserting an element never moves it past an element it ties with |
| Common.Traverse | functions/customer_manager.py:101-140 | the payment loop succeeds exactly when every method passes; it then holds one result per method, in order |
| Common.TraverseFirstFailure | functions/customer_manager.py:102-136 | a refusal is the first failing method's refusal; later methods do not matter |
| Records.CategoryIdOf | functions/category_manager.py:120 | a category's id is read under `category_id`, else `id`; it is absent exactly when the category has neither key |
| Records.FindProduct | functions/order_manager.py:65-72 | the index position for an id holds that id, and no later product has it; there is none exactly when no product has the id |
| Records.FindProductSameIds | functions/order_manager.py:158-161 | changing only stock fields leaves every id's index entry unchanged, so the dictionary stays valid while products are updated through it |
| Records.IndexProducts | functions/order_manager.py:65-72 | the loop builds a map that agrees with `FindProduct` on every id |
| Products.ConvertStockShape | functions/product_manager.py:56-65 | accepted stock text is whitespace, then a non-empty run of digits (leading zeros allowed) whose decimal value is the stock, then whitespace; the converse of `StockTextRoundTrip` |
| Products.ConvertStockOnlyDigits | functions/product_manager.py:62-64 | any character other than a digit or whitespace makes the stock text invalid |
| Products.ConvertStockRejects | functions/product_manager.py:56-65 | "", whitespace only, "-1" and "1.5" are all refused |
| Products.StockTextRoundTrip | functions/product_manager.py:62-65 | the decimal text of any n, with any whitespace around it, converts back to n |
| Products.RemoveCommas | functions/product_manager.py:42 | no comma survives, and text without commas is unchanged |
| Products.PreprocessPrice | functions/product_manager.py:42-47 | the text that reaches `float()` holds no comma |
| Products.PreprocessCleanText | functions/product_manager.py:42 | already stripped text without commas passes the strip and comma steps unchanged |
| Products.PreprocessOneSymbol | functions/product_manager.py:44-47 | one leading £, $ or € is dropped |
| Products.PreprocessTwoSymbols | functions/product_manager.py:44-47 | only the first of two leading symbols is dropped (the loop breaks) |
| Products.PreprocessPriceSymbols | functions/product_manager.py:42-47 | text without a symbol reaches `float()` as typed, text with one symbol reaches it without the symbol, and a doubled symbol keeps its second copy |
| Products.Pence | functions/product_manager.py:52 | a non-negative price becomes the non-negative whole number of pence nearest to it (within half a penny) |
| Products.ConvertPrice | functions/product_manager.py:36-54 | no price exactly when `float()` refuses the preprocessed text or gives a negative value; otherwise the value `float()` read, times 100, to the nearest penny |
| Products.ConvertPriceExamples | functions/product_manager.py:36-54 | "£12.50" is 1250 pence, and "1,250" is 125000 pence because the comma is read as a thousands separator |
| Products.PreprocessCommaAfterFirst | functions/product_manager.py:42-47 | a comma after the first character of clean text is dropped and the rest reaches `float()` unchanged |
| Products.CheckNewProduct | functions/product_manager.py:79-94 | accepted exactly when the name is not blank and price and stock both convert; a blank name is reported first, then the price; when name and price pass but the stock does not, the error is the stock's; an accepted product has the stripped name, exactly the price `ConvertPrice` gives and the converted stock |
| Products.NextProductId | functions/product_manager.py:25-33 | at least 1, above every product id, and one more than the largest when that is positive |
| Products.Without | functions/product_manager.py:157-166 | no kept product has the id; the length is kept exactly when no product had it |
| Products.WithoutMembers | functions/product_manager.py:157-166 | the kept products are exactly those with another id |
| Products.WithoutAppend | functions/product_manager.py:157-166 | the filter keeps the original order: filtering a concatenation concatenates the filtered parts |
| Products.KeepOthers | functions/product_manager.py:157-170 | the `kept` loop computes `Without`; `removed` is set exactly when some product had the id |
| Products.LineRefsSpec | functions/product_manager.py:143-148 | an order's blocking entries all carry its id, and there is one exactly when one of its lines names the product |
| Products.OrderRefsSpec | functions/product_manager.py:135-150 | an id is among the blockers exactly when it is the id of an order with a line for the product |
| Products.FindBlockers | functions/product_manager.py:135-150 | the scan lists each blocking order once per line that names the product, in file order |
| Products.KeyLeTotalPreorder | functions/product_manager.py:193-204 | each sort key (id, casefolded name, price, order tally, stock) gives a total preorder |
| Products.SortProducts | functions/product_manager.py:177-206 | the result is a permutation sorted ascending by the chosen key (unknown keys sort by id), or descending when the direction is "desc" in any case; products with equal keys keep their file order |
| Products.Max0 | functions/product_manager.py:252 | `max(0, qty)` is at least `qty` |
| Products.TallyAppend | functions/product_manager.py:246-252 | the tally over the order file adds up over any split of the file |
| Products.TallyIgnoresOtherProducts | functions/product_manager.py:246-252 | orders without a line for the product add nothing to its tally |
| Products.LinesTallyZero | functions/product_manager.py:247-252 | lines for other products add nothing |
| Products.OrderTotals | functions/product_manager.py:240-256 | there is one total per indexed id, and it equals the sum of `max(0, qty)` over that id's lines; lines for unknown ids are skipped |
| Products.Retallied | functions/product_manager.py:258-264 | the indexed product of each id gets that id's tally; stock and every other field stay as they were, and so do shadowed duplicates |
| Products.WrittenBack | functions/product_manager.py:258-264 | the write-back keeps the length and every id |
| Products.WriteBack | functions/product_manager.py:258-265 | the loop computes `WrittenBack`; `changed` is set exactly when some stored tally differed |
| Products.WrittenBackRetallies | functions/product_manager.py:231-264 | with the index and the computed totals, the write-back is exactly the recount |
| Products.ProductStore.AddProduct | functions/product_manager.py:79-108 | any refusal writes nothing; otherwise exactly one product is appended with the stripped name, no category and the next id: one more than the largest id, or 1 when there is none |
| Products.ProductStore.DeleteProduct | functions/product_manager.py:129-174 | refused on an empty file, on order references (reported as the set of order ids) or on an unknown id, leaving the products unchanged; otherwise every product with the id goes and the rest keep their order |
| Products.ProductStore.RecalculateTally | functions/product_manager.py:217-270 | the products become the recount, and `changed` says whether anything differed |
| Orders.NormalizeEntries | functions/order_manager.py:53-63 | a result exactly when every entry converts with both fields at least 1; it then has the same ids and quantities, in order |
| Orders.Normalize | functions/order_manager.py:47-63 | None for anything other than a non-empty list of good entries; otherwise the same length and order, with ids and quantities at least 1 |
| Orders.NormalizeItems | functions/order_manager.py:47-63 | the loop, which returns at the first bad entry, computes `Normalize` |
| Orders.Shift | functions/order_manager.py:158-161 | one stock move keeps every product id in place |
| Orders.Apply | functions/order_manager.py:158-161 | any sequence of stock moves keeps every product id in place |
| Orders.MoveAdditive | functions/order_manager.py:160-161 | two moves in the same direction are one move by the sum |
| Orders.ApplyIsMoved | functions/order_manager.py:158-161 | applying the lines one at a time moves each indexed product by its id's total quantity; every other product is untouched, whatever the order or repetition of the lines |
| Orders.MovedRoundTrip | functions/order_manager.py:200-207 | moving by the same amounts in the opposite direction gives back every product exactly |
| Orders.UndoRestores | functions/order_manager.py:200-233 | undoing lines with the opposite moves restores every product's stock and tally, for any lines and any product file (the rollback of `edit_order` and the restock of `delete_order`) |
| Orders.IndexesSameIds | functions/order_manager.py:197-207 | the index built before the restock stays valid after it |
| Orders.ApplyMoves | functions/order_manager.py:158-161 | the stock loop, through the index, computes `Apply` |
| Orders.ItemProblem | functions/order_manager.py:125-136 | an item passes only if its product exists and, unless negative stock is allowed, that product's stock covers the item's quantity |
| Orders.FirstProblem | functions/order_manager.py:125-136 | no problem exactly when every item passes on its own |
| Orders.CheckStock | functions/order_manager.py:125-136 | the validation loop reports the first item's problem, in item order |
| Orders.LinesFor | functions/order_manager.py:74-89 | one line per item, in order, with the item's id and quantity and subtotal = price × quantity |
| Orders.MovesOfLines | functions/order_manager.py:82-88 | the lines an order stores read back as exactly the items that were taken |
| Orders.ApplyKeepsCatalog | functions/order_manager.py:158-161 | stock moves never change a product's id, name or price |
| Orders.LinesForSameCatalog | functions/order_manager.py:235-243 | pricing after the stock update gives the same lines as pricing before it |
| Orders.CalcLines | functions/order_manager.py:74-89 | the loop yields `LinesFor`, and the total is the sum of the subtotals |
| Orders.DeleteUndoesAdd | functions/order_manager.py:259-285 | restocking an order's stored lines gives back exactly what adding it took |
| Orders.FindOrder | functions/order_manager.py:181-187 | the first order with the id; none exactly when no order has it |
| Orders.FindOrderIndex | functions/order_manager.py:259-267 | the search loop stops at `FindOrder` |
| Orders.NextOrderId | functions/order_manager.py:36-43 | at least 1, above every order id, and one more than the largest when that is positive |
| Orders.NextOrderIdUnique | functions/order_manager.py:36-43 | these conditions determine the id |
| Orders.AppendedOrderIsFound | functions/order_manager.py:146-154 | an order appended with the next id is the one that `edit_order` and `delete_order` find for that id |
| Orders.AdmitOrder | functions/order_manager.py:105-136 | accepted exactly when the items normalise, the customer id is positive, products exist and every item passes its own check; errors come in the source's order |
| Orders.PerLineCheckAdmitsOversell | functions/order_manager.py:125-136 | two lines for one product that each fit, but not together, are admitted, and its stock then goes negative |
| Orders.FreshProductCannotBeOrdered | functions/order_manager.py:128-136 | a product as `add_product` creates it has no `product_stock`, so any positive quantity is refused as insufficient stock (have 0) |
| Orders.OrderStore.AddOrder | functions/order_manager.py:105-162 | any refusal changes neither orders nor products; otherwise exactly one order is appended with the next id and the priced lines, and the products become `Apply(..., Take)` |
| Orders.OrderStore.EditOrder | functions/order_manager.py:179-248 | an unknown id, invalid items or a failed check leaves orders and products as they were; otherwise only that order's lines and total change, and products are restocked, then taken |
| Orders.OrderStore.DeleteOrder | functions/order_manager.py:259-287 | only the first order with the id is removed, the rest keep their order, and its lines are restocked |
| Orders.OrderStore.AddThenDelete | functions/order_manager.py:259-285 | adding an order and deleting it leaves both the orders and the products as they were |
| Orders.StampLeTotal | functions/order_manager.py:294-296 | any two `(created_at, order_id)` keys compare |
| Orders.StampLeTransitive | functions/order_manager.py:294-296 | the key order is transitive |
| Orders.OrderLeTotalPreorder | functions/order_manager.py:294-296 | ordering orders by the key is a total preorder |
| Orders.NewestFirst | functions/order_manager.py:296 | a permutation sorted descending by `(created_at, order_id)`; orders with equal keys keep their file order |
| Orders.ListOrders | functions/order_manager.py:291-296 | every order, as often as it occurs, most recent first |
| Orders.OfCustomer | functions/order_manager.py:299 | only the customer's orders are kept |
| Orders.OfCustomerCounts | functions/order_manager.py:299 | each of the customer's orders is kept as often as it occurs; no other order is kept |
| Orders.ListOrdersForCustomer | functions/order_manager.py:298-302 | exactly the customer's orders, most recent first (`get_customer_orders` in functions/customer_manager.py runs the same filter and sort) |
| Orders.LineRowsAreRefs | functions/order_manager.py:307-317 | one order's rows name that order once per line for the product |
| Orders.RowsAreBlockers | functions/order_manager.py:304-319 | the rows name the same orders, as often and in the same order, as the references that block `delete_product` |
| Orders.RowLeTotalPreorder | functions/order_manager.py:320-321 | ordering rows by the key is a total preorder |
| Orders.OrdersForProduct | functions/order_manager.py:304-322 | every line for the product, as a row, most recent first; rows with equal keys keep their file order |
| Categories.LoadAfterSave | functions/category_manager.py:36-54 | loading what was saved gives back the categories and the shape |
| Categories.SaveAfterLoad | functions/category_manager.py:36-54 | a wrapped or bare document is saved back as it was loaded; anything else loads as an empty bare list |
| Categories.NextCategoryId | functions/category_manager.py:56-64 | at least 1, above every id under either key, and one more than the largest when that is positive |
| Categories.NameClash | functions/category_manager.py:76-80 | the scan finds a clash exactly when some stored name has the same stripped, casefolded key |
| Categories.NameKeyOfStripped | functions/category_manager.py:76-83 | a stored (stripped) name has the key of the name typed |
| Categories.AddKeepsDistinct | functions/category_manager.py:76-84 | appending the stripped form of a name with a free key keeps names pairwise distinct |
| Categories.DistinctAppend | functions/category_manager.py:77-84 | appending a category whose key is free keeps names distinct |
| Categories.DistinctRename | functions/category_manager.py:112-133 | renaming to a key no category had keeps names distinct |
| Categories.NameLeTotalPreorder | functions/category_manager.py:68 | the casefolded name order is a total preorder |
| Categories.ListCategories | functions/category_manager.py:66-68 | a permutation of the categories sorted by casefolded name; equal names keep their file order |
| Categories.FindCategory | functions/category_manager.py:118-126 | the first category with the id under either key; none exactly when no category has it |
| Categories.FindCategoryIndex | functions/category_manager.py:118-130 | the search loop stops at `FindCategory` |
| Categories.WithoutCategory | functions/category_manager.py:186-196 | no kept category has the id; the length is kept exactly when none had it |
| Categories.WithoutCategoryMembers | functions/category_manager.py:186-196 | the kept categories are exactly those with another id or none |
| Categories.WithoutCategoryDistinct | functions/category_manager.py:186-202 | deleting keeps names distinct |
| Categories.KeepCategories | functions/category_manager.py:186-200 | the `kept` loop computes `WithoutCategory`; `removed` is set exactly when some category had the id |
| Categories.RenameOutcome | functions/category_manager.py:102-130 | a rename that goes ahead targets a category with the id |
| Categories.RenameOutcomeCases | functions/category_manager.py:102-130 | a rename is refused exactly when the name is blank, the store is empty, the key is taken (the target's own included) or no category has the id, with the first reason reported; otherwise it targets the first category with the id |
| Categories.RenameKeepsDistinct | functions/category_manager.py:111-134 | a rename that goes ahead keeps names distinct |
| Categories.CheckRename | functions/category_manager.py:102-130 | the checks, as the source runs them, give `RenameOutcome` |
| Categories.Users | functions/category_manager.py:169-176 | no blockers exactly when no product's category id is the id |
| Categories.FindUsers | functions/category_manager.py:169-176 | the blocker loop computes `Users` |
| Categories.AssignedProducts | functions/category_manager.py:222 | no blockers exactly when every product's category id is null or 0 |
| Categories.Relabel | functions/category_manager.py:137-145 | each product assigned to the id shows the new name; every other product, and every other field, is unchanged |
| Categories.RelabelProducts | functions/category_manager.py:137-147 | the loop computes `Relabel`; `changed` is set exactly when some product is assigned to the id |
| Categories.CategoryStore.constructor | functions/category_manager.py:36-49 | the store holds what `_load_categories` returns |
| Categories.CategoryStore.AddCategory | functions/category_manager.py:70-87 | a blank name or a key in use is refused with nothing changed; otherwise the stripped name is appended with the next id (one more than the largest id under either key, or 1 when there is none); names stay distinct |
| Categories.CategoryStore.UpdateName | functions/category_manager.py:91-150 | a refusal changes nothing; otherwise only the first matching category's name changes, every product assigned to the id shows it, and names stay distinct |
| Categories.CategoryStore.Delete | functions/category_manager.py:152-204 | refused on an empty store, on products that use the id (listed) or on an unknown id, changing nothing; otherwise every category with the id goes and the rest keep their order |
| Categories.CategoryStore.DeleteAll | functions/category_manager.py:206-233 | an empty store stays empty; refused while a product has a category other than null or 0; otherwise cleared; the shape is kept |
| Binder.CategoryMenu | functions/product_categories.py:7-15 | one line per category, plus the add line when adding is allowed |
| Binder.Choose | functions/product_categories.py:29-37 | a selection is out of range exactly when below 1 or beyond the last slot; an existing category exactly when it is 1..count; the add slot exactly when adding is allowed and it is count+1 |
| Binder.MenuLineNumber | functions/product_categories.py:12 | a category line starts with its own number |
| Binder.AddLineNumber | functions/product_categories.py:14 | the add line starts with its own number |
| Binder.MenuLineAt | functions/product_categories.py:11-15 | line n names the n-th category in name order, and the line after the categories is the add line |
| Binder.MenuAgreesWithChoice | functions/product_categories.py:11-36 | the number a menu line starts with is the selection that picks that line's category or add slot |
| Binder.ApplyCategoryChoice | functions/product_categories.py:17-48 | out of range, a missing name, a refused add or a category without an id leaves the product as it was; otherwise the product takes the chosen category's id and name, and a new category is added only for the add slot, with the next id (one more than the largest, or 1) |
| Binder.AssignCategoryByIndex | functions/product_categories.py:50-81 | a position outside the products is refused with nothing changed; otherwise it succeeds exactly when the choice does: an existing listed category with an id, or a non-blank free new name; the product at that position then carries the chosen category's id and name (a new category is appended to the store with the next id: one more than the largest, or 1), every other product is unchanged, and any refusal leaves the products as they were |
| Customers.Body | functions/customer_manager.py:38 | `$` matches at the end or before one final newline |
| Customers.EmailShape | functions/customer_manager.py:38-41 | a valid address has exactly one '@' and ends in '.' and two or more letters |
| Customers.LuhnTerm | functions/customer_manager.py:50-53 | a digit's share of the sum is at most 9 |
| Customers.LuhnSumAppend | functions/customer_manager.py:48-55 | the sum splits at any point, the left part starting doubled by the parity of the right part's length |
| Customers.LuhnTermInjective | functions/customer_manager.py:50-53 | doubling, minus 9 above 9, is one-to-one on digits |
| Customers.LuhnSumAround | functions/customer_manager.py:48-56 | one digit's term separates from the rest of the sum |
| Customers.LuhnSumsDiffer | functions/customer_manager.py:43-56 | two digit strings that differ in one digit never both have a sum divisible by 10 |
| Customers.DistinctDigitsApart | functions/customer_manager.py:56 | adding two different digits to the same number cannot make both results divisible by 10 |
| Customers.LuhnCatchesSingleDigitError | functions/customer_manager.py:43-56 | numbers that differ in one digit are never both accepted |
| Customers.LuhnStep | functions/customer_manager.py:48-55 | one step of the right-to-left scan adds that digit's term, doubled at odd distance from the end |
| Customers.LuhnCheck | functions/customer_manager.py:43-56 | the loop accepts exactly the numbers whose digits are non-empty with a Luhn sum divisible by 10 |
| Customers.BrandRules | functions/customer_manager.py:58-68 | AMEX, Mastercard, Visa and Discover each exactly by their own prefix and length rule; anything else is "Card" |
| Customers.CardIsMasked | functions/customer_manager.py:108-130 | a stored card has 12 or more digits and passed Luhn; only its last 4 digits are kept; the month is 1 to 12; a 2-digit year yy is stored as 20yy |
| Customers.SafePaymentKinds | functions/customer_manager.py:103-108 | a method is refused for its type exactly when the stripped, lower-cased type is unknown; card types go through the card checks, "paypal" through the address check |
| Customers.SafePaymentMasks | functions/customer_manager.py:101-140 | whatever is stored is masked: 4 digits and a valid month for a card, a valid address for PayPal |
| Customers.SafePayments | functions/customer_manager.py:101-140 | the loop gives the first refusal or every method masked, in order |
| Customers.Validate | functions/customer_manager.py:90-144 | accepted input keeps one stored method per given method |
| Customers.ValidateRefuses | functions/customer_manager.py:90-144 | refused exactly when a name is blank, the email is invalid, a method is refused or the preferred method is unknown; blank names are reported first, then an invalid email |
| Customers.ValidateAccepts | functions/customer_manager.py:90-144 | accepted input has both names, a known preferred method and every method passing |
| Customers.PaymentsMasked | functions/customer_manager.py:101-140 | every card the loop keeps has 4 digits and a valid month |
| Customers.AcceptedCustomer | functions/customer_manager.py:146-177 | the stored customer has non-empty names, a known preferred method and only masked cards |
| Customers.NextCustomerId | functions/customer_manager.py:27-34 | at least 1, above every customer id, and one more than the largest when that is positive |
| Customers.FindCustomer | functions/customer_manager.py:181-188 | the first customer with the id; none exactly when no customer has it |
| Customers.NameOrderTotalPreorder | functions/customer_manager.py:193 | ordering by (last name, first name), casefolded, is a total preorder |
| Customers.ListCustomersSorted | functions/customer_manager.py:190-194 | a permutation of the customers sorted by casefolded last name, then first name; equal names keep their file order |
| Customers.CustomerStore.AddCustomer | functions/customer_manager.py:72-179 | a refusal writes nothing; otherwise one cleaned customer with the masked methods and the next id (one more than the largest, or 1 when there is none) is appended |

## Left out

- **I/O and text output.**
  - Reading and writing the JSON files is not modelled, and neither is
    `path.exists()`.
  - A store is built from the loaded list, and saving is the new value of
    its field.
  - Printed messages become error values.
- **Time and random values.** `uuid.uuid4()` and `datetime.utcnow()` are
  parameters (`uuid`, `createdAt`).
- **Floating point.** Prices are whole pence.
  - `float()` in price parsing is the `toNumber` parameter of
    `Products.ConvertPrice`.
  - The float rounding of `round(..., 2)` is not modelled.
  - `float()` also accepts "inf" and "nan". `nan < 0` is false, so the
    source stores such a value as the price
    (functions/product_manager.py:48-52).
  - The `toNumber` parameter returns a real number or nothing, so it has no
    infinity and no NaN, and the model cannot express such a price.
- Products.Pence: rounds halves up, whereas Python's `round()` works on a
  binary float.
- Orders.CalcLines: prices are whole pence, so the subtotal and the running
  total are exact sums. The float rounding of
  `round(price * qty, 2)` and of the running total is not modelled.
- **Unicode.** `strip`, `casefold`, `lower`, `isdigit` and the letters of the
  email pattern cover ASCII only.
  - Python's Unicode whitespace and digits are not modelled.
  - Neither are the Unicode case equivalents that `re.IGNORECASE` admits,
    such as the Kelvin sign matching "k".
- **Malformed fields.** Records are typed, so malformed values do not arise.
  - A non-numeric id or quantity, or `int(None)`, raises. Some loops catch
    that and skip the record: the id allocation, the product index and the
    order lookup of `edit_order` and `delete_order`.
  - Others do not catch it, so the whole call raises:
    - the restock of `edit_order` (functions/order_manager.py:202-203);
    - the restock of `delete_order` (functions/order_manager.py:276-277);
    - the sort keys and the customer filter of `list_orders` and
      `list_orders_for_customer` (functions/order_manager.py:295, 299, 301);
    - the sort key of `get_orders_for_product`
      (functions/order_manager.py:321);
    - `get_customer_orders` (functions/customer_manager.py:214, 217).
  - The model has no such records, so neither the skip nor the raise
    arises in it.
  - The exception is an `items` entry whose `product_id` or `qty` does not
    convert. `Orders.RawItem` models it with `None`.
- **Absent fields.**
  - An absent `product_stock`, `product_total_ordered` or `order_tally`
    reads as 0. The model stores that 0.
  - A `None` argument to the stock or price conversion, or a name that is
    not a string, is not modelled: the inputs are always text.
  - `exp_month` given as a number is modelled as its decimal text.
- **Alternate keys.** Sort-key fallbacks to other keys (`product_id or id`,
  `order_tally or total_ordered or orders`) are not modelled. A product's id
  and tally are single fields.
- **Category ids.** A category id stored as text, and the `""` value that
  `delete_all_categories` also treats as unassigned, are not modelled.
  Category ids on products are `Option<int>`.
  A product with no `category_id` key reads as -1 in the rename and the
  delete checks (functions/category_manager.py:141, 173), so it matches a
  category whose id is -1. In the model such a product has `None`, which
  matches no category.
- **The wrapped categories document.** The model holds only the
  `categories` list. Any other keys such an object has are dropped by the
  source on save; the model cannot express them.
- **Document shapes.** Product, order and customer documents that are not
  lists load as empty in the source. The model's stores are built from a
  list.
- Binder.ApplyCategoryChoice: a chosen category without an id makes the
  source raise `TypeError` from `int(None)`. The model reports it as the
  error `MissingCategoryId`, with the product unchanged.
- **Write-back order.** The recount writes tallies in dictionary order.
  Positions are distinct, so only the result is modelled.
- **Out of scope.** The interactive menus under `menus/`, `main.py`,
  and the unused scratch modules (`ll.py`, `models/`, `nodes/`, `test/`) are
  not part of this model.
