# Feel Fresh sales receipt generator — a Dafny model

This project models the logic of `receipt.py` in the Sales-Receipt-Generator
repository. That program is a small point-of-sale window. The cashier types
catalog item numbers, comma separated, into an entry field and clicks
"Add Items". Each valid number appends that catalog item's name and price to
the session's cart. The window lists the cart and its running total. "Generate
Receipt" checks that the cart is not empty and that a payment method was
chosen, then writes a PDF receipt named after a time-stamped receipt number.

The model has seven modules:

- `Text` covers ASCII digits, `str(n)` and `int()` on digit strings,
  zero-padded fields, Python's `str.strip()` with Python's whitespace set, and
  `str.split(",")`.
- `Money` covers the `{:,.2f}` rendering of an amount and a reader that inverts it.
- `Timestamp` covers the receipt number `SALE` + `%Y%m%d%H%M%S` and the
  purchase time `%d/%m/%Y %H:%M:%S`, each with a decoder.
- `Catalog` covers `item_data`, the 100 numbered items, and the range check.
- `Entry` covers how item numbers are read out of the entry text.
- `Receipt` covers the receipt file name, the receipt's text lines in order,
  and `generate_sales_receipt` as a method that emits them step by step.
- `Session` covers the session's cart as a class, with `add_items` as a loop
  that appends and can stop early, the item-list view, and the guards of
  `generate_receipt`.

Amounts are whole numbers of paise, hundredths of a rupee. Every catalog price
is a whole number of rupees, so the source's floats are exact at two decimals
and `{:,.2f}` is modelled exactly.

The session's functions and lemmas take the catalog as a parameter: any map
numbered 1 to its length (`Catalog.Numbered`), as `item_data` is. The cart
keeps `item_data` in a constant field, set by its constructor, and its
methods read the catalog from there, as `add_items` reads the global
`item_data`.

Adding items is not all-or-nothing. The loop at receipt.py:91-97 appends item
by item and raises at the first out-of-range number, so the entries added
before it stay in the cart. The list refresh and
the clearing of the entry field (receipt.py:99-100) are skipped in that case.
`Session.AddStopsAtFirstOutOfRange` and `Session.PartialAddExample` state this.

## Model

| member | source | states |
|---|---|---|
| `Text.Decimal` | receipt.py:93 | `str(n)`: a non-empty digit string whose value is `n`, with no leading zero unless it is "0" |
| `Text.DecimalOfValue` | receipt.py:85 | a digit string without a leading zero is `str` of its own `int` value (the converse round trip) |
| `Text.PadDigits` | receipt.py:11 | a zero-padded field of exactly `width` digits whose value is `n` |
| `Text.TrimStartShape` | receipt.py:85 | the left half of `strip()` removes only whitespace, keeps a suffix of the text, and leaves it empty or starting with a non-whitespace character |
| `Text.TrimEndShape` | receipt.py:85 | the right half of `strip()` removes only whitespace, keeps a prefix of the text, and leaves it empty or ending with a non-whitespace character |
| `Text.StripShape` | receipt.py:85 | `strip()` gives a slice of the text with only whitespace before and after it and no whitespace at either of its ends |
| `Text.StripSurrounded` | receipt.py:85 | stripping removes exactly the surrounding whitespace: any core without whitespace at its ends comes back unchanged |
| `Text.StripIdempotent` | receipt.py:85 | stripping twice is stripping once |
| `Text.SplitOnCommasShape` | receipt.py:84 | `split(",")` gives at least one piece, no piece contains a comma, and joining the pieces with commas gives the text back |
| `Text.SplitJoin` | receipt.py:84 | splitting comma-free pieces joined with commas gives exactly those pieces back |
| `Entry.NumberOf` | receipt.py:85 | one piece contributes at most one number |
| `Entry.KeptCore` | receipt.py:85 | a piece is kept exactly when it is a non-empty run of digits with only whitespace before and after it, and then it contributes that run's value |
| `Entry.KeepAppend` | receipt.py:85 | the numbers read from two runs of pieces are those of the first run followed by those of the second, so input order is kept |
| `Entry.KeptFromSomePiece` | receipt.py:85 | every number read comes from some kept piece, and is the value of that piece's stripped text |
| `Entry.ParseJoined` | receipt.py:84-85 | an entry written as comma-joined pieces is read piece by piece |
| `Entry.NumberOfPadded` | receipt.py:85 | whitespace around a piece does not change what it contributes |
| `Entry.DroppedAt` | receipt.py:85 | a piece with a non-digit character between its first and last non-whitespace characters is dropped whatever whitespace surrounds it, as "-3", " 1.5" and "x " are |
| `Entry.LeadingZeros` | receipt.py:85 | leading zeros do not change the value `int()` reads |
| `Entry.ParseExample` | receipt.py:84-85 | " 3 ,x,-3,1.5,,007" reads as [3, 7]: padding is ignored, and signs, points, letters and empty pieces are dropped |
| `Money.GroupThousands` | receipt.py:56 | the `,` grouping puts a comma before every group of three digits from the right except the leftmost, starts with a digit, and removing the commas gives the digits back |
| `Money.FormatMoney` | receipt.py:56 | `{:,.2f}` has at least four characters and a point third from the end |
| `Money.FormatMoneyCharacters` | receipt.py:56 | `{:,.2f}` of an amount contains only digits, commas and the point |
| `Money.MoneyRoundTrip` | receipt.py:61 | reading a printed amount gives back the amount that was printed |
| `Money.FormatMoneyInjective` | receipt.py:112 | different amounts print differently |
| `Money.FormatMoneyHundreds` | receipt.py:61 | 550 rupees prints as "550.00" |
| `Money.FormatMoneyThousands` | receipt.py:56 | 1234.50 rupees prints as "1,234.50" |
| `Timestamp.CompactStamp` | receipt.py:11 | `%Y%m%d%H%M%S` is fourteen digits |
| `Timestamp.StampRoundTrip` | receipt.py:11 | the clock reading can be read back from the fourteen-digit stamp |
| `Timestamp.ReceiptNumber` | receipt.py:11 | the receipt number has 18 characters: "SALE" then fourteen digits |
| `Timestamp.ReceiptNumberRoundTrip` | receipt.py:11 | the clock reading can be read back from the receipt number |
| `Timestamp.ReceiptNumberInjective` | receipt.py:11 | readings that differ in any field, down to the second, give different receipt numbers |
| `Timestamp.PurchaseTime` | receipt.py:14 | `%d/%m/%Y %H:%M:%S` has 19 characters |
| `Timestamp.TripleRoundTrip` | receipt.py:14 | three digit fields joined by a separator, as in `%d/%m/%Y` and `%H:%M:%S`, read back as the three values |
| `Timestamp.PurchaseTimeRoundTrip` | receipt.py:14 | the clock reading can be read back from the purchase time |
| `Timestamp.PurchaseTimeLayout` | receipt.py:14 | the purchase time has '/', '/', ' ', ':' and ':' at positions 2, 5, 10, 13 and 16, and a digit at every other position |
| `Catalog.CatalogName` | receipt.py:137-238 | every catalog entry has a non-empty name |
| `Catalog.ItemData` | receipt.py:137-238 | `item_data` has exactly the keys 1 to 100, so its length is 100, and key `n` maps to the `n`-th entry |
| `Catalog.InRangeIsPresent` | receipt.py:92-95 | in a catalog numbered 1 to its length, as `item_data` is, a number passes the range check exactly when it is a key, so the lookup after the check succeeds |
| `Catalog.WholeRupeePrices` | receipt.py:137-238 | every entry has a name and a whole-rupee price |
| `Catalog.CatalogEnds` | receipt.py:137-238 | item 1 is Rice at 500 rupees, item 4 is Salt at 50 rupees, and item 100 is Lemon Tea at 120 rupees |
| `Receipt.TotalAppend` | receipt.py:111 | the sum of prices is additive over appending entries |
| `Receipt.FileNameRoundTrip` | receipt.py:25 | the receipt number can be read back from the file name |
| `Receipt.FileNamesDiffer` | receipt.py:11-25 | in one directory, receipts from different seconds get different file names |
| `Receipt.TotalLineRoundTrip` | receipt.py:61 | the total line states exactly the total it was given |
| `Receipt.ItemLinesAt` | receipt.py:55-57 | there is one item line per cart entry, and line `i` is the line for entry `i` |
| `Receipt.ItemLinesSnoc` | receipt.py:55-57 | appending an entry appends its line |
| `Receipt.ReceiptLayout` | receipt.py:36-68 | a receipt for `n` entries has `n + 10` lines: vendor, title, number, purchase time, location, heading, the entries in order, total, payment method, status and the closing line |
| `Receipt.WriteItemLines` | receipt.py:55-57 | the loop writes the item lines after what was already written |
| `Receipt.GenerateSalesReceipt` | receipt.py:9-68 | the file is named after the receipt number taken from the first clock reading, and the lines are the receipt layout with the purchase time taken from the second reading |
| `Session.LinesFor` | receipt.py:95-97 | in-range item numbers give one cart entry each, in input order, made of that item's catalog name and price |
| `Session.LinesForSnoc` | receipt.py:95-97 | appending a number appends its entry |
| `Session.PrefixInRange` | receipt.py:91-93 | the loop passes exactly the in-range numbers at the front, and stops at the next one if there is one |
| `Session.PrefixInRangeAt` | receipt.py:91-93 | the first out-of-range number is the one after the in-range prefix |
| `Session.TotalLinesFor` | receipt.py:111 | the total of the entries made from item numbers is the sum of those items' catalog prices |
| `Session.AddSucceeds` | receipt.py:87-97 | adding succeeds exactly when some number was read and all pass the range check, and then every number read is appended |
| `Session.AddWithoutNumbers` | receipt.py:87-88 | an entry yielding no numbers reports "Please enter valid item numbers." and appends nothing |
| `Session.AddStopsAtFirstOutOfRange` | receipt.py:91-97 | the first out-of-range number is reported, and the entries for the numbers before it stay in the cart |
| `Session.AddedTotal` | receipt.py:97 | after adding, failed adds included, the cart total grows by the catalog prices of what was appended |
| `Session.PartialAddExample` | receipt.py:91-97 | entering 1 and 101 appends Rice and then reports 101 as out of range |
| `Session.Cart.constructor` | receipt.py:134-138 | the cart starts empty and reads the `item_data` catalog |
| `Session.Cart.AddItems` | receipt.py:81-102 | the cart becomes the old cart plus the entries for the in-range prefix of the numbers read, and the outcome is the verdict for those numbers |
| `Session.Cart.AppendNumbers` | receipt.py:91-97 | the loop appends the entries of the in-range prefix in order and reports the first out-of-range number, if any |
| `Session.Cart.ItemListView` | receipt.py:105-112 | one row "name - price Rs." per entry in cart order, and the total label for the cart total |
| `Session.Cart.GenerateReceipt` | receipt.py:115-127 | an empty cart is refused first, then a missing payment method; a receipt is produced exactly when neither applies, and it covers the whole cart and its total |
| `Session.ReceiptChargesCart` | receipt.py:126-127 | the receipt has `n + 10` lines, its total line reads back as the cart total, it lists every entry in cart order, and it names the payment method |
| `Session.ExampleTotal` | receipt.py:111-112 | in any numbered catalog with Rice at 1 and Salt at 4, those two together show as "Total Amount: 550.00 Rs." |
| `Session.CatalogExampleTotal` | receipt.py:111-112 | items 1 and 4 of `item_data`, Rice and Salt, together show as "Total Amount: 550.00 Rs." |

## Left out

- Window construction, layout, the option menu and `mainloop` (receipt.py:129-269) are not modelled. The entry text and the chosen payment method are parameters. A dialog is a returned outcome carrying its message.
- The item list and total label are not kept as widget state; `Session.Cart.ItemListView` computes what they show. The refresh and the entry clear after a successful add (receipt.py:99-100) appear only as the `Added` outcome.
- The initial total label "Total Amount: 0 Rs." (receipt.py:255) is not modelled. It is written differently from the refreshed "Total Amount: 0.00 Rs.".
- PDF creation, fonts, spacing, saving, opening the viewer and its dialogs (receipt.py:27-78) are not modelled. The receipt is its file name and its text lines.
- `os.path.expanduser("~/Downloads")` and the directory creation (receipt.py:20-22) are not modelled. The save directory is a parameter.
- The wall clock is not modelled. Its two `datetime.now()` readings (receipt.py:11, 14) are two separate `DateTime` parameters, so they may differ as in the source.
- Timestamp.ValidDateTime: years are limited to 1000-9999, because `%Y` pads years below 1000 differently across platforms. Calendar validity of the day is not checked, since the clock supplies only real dates.
- Floating point is not modelled. Prices and totals are integer paise, which is exact for this catalog's prices.
- Text.IsDigit: `str.isdigit()` and `int()` are modelled for ASCII digits only. The extra Unicode digit characters Python accepts are not modelled.
- `datetime` failures, PDF errors, and exceptions other than the two `ValueError`s raised in `add_items` are not modelled.
