/** What a sales receipt holds: the file it is saved under and its text lines
    from top to bottom. Fonts, cell widths, spacing and the PDF encoding are
    not part of the model. */
module Receipt {
  import opened Text
  import opened Money
  import opened Timestamp

  /** One cart entry: the name and the price copied from the catalog. */
  datatype CartLine = CartLine(name: string, price: nat)

  /** A generated receipt: where it is saved and the lines written into it. */
  datatype Document = Document(fileName: string, lines: seq<string>)

  const LOCATION := "Department Store, Kevin Mall, Avinashi, India"
  const FILE_STEM := "/sales_receipt_"
  const FILE_EXTENSION := ".pdf"

  /** `sum(item[1] for item in items)`: the sum of the prices in the cart. */
  function Total(items: seq<CartLine>): nat
  {
    if items == [] then 0 else items[0].price + Total(items[1..])
  }

  /** Summing is additive over concatenation, so the total after appending
      entries is the old total plus the total of what was appended. */
  lemma {:induction false} TotalAppend(a: seq<CartLine>, b: seq<CartLine>)
    ensures Total(a + b) == Total(a) + Total(b)
    decreases |a|
  {
    if a == [] {
      assert a + b == b;
    } else {
      TotalAppend(a[1..], b);
      assert (a + b)[1..] == a[1..] + b;
    }
  }

  /** `f"{save_directory}/sales_receipt_{receipt_number}.pdf"`. */
  function FileName(saveDirectory: string, receiptNumber: string): string
  {
    saveDirectory + FILE_STEM + receiptNumber + FILE_EXTENSION
  }

  /** Reads the receipt number back out of a file name under `saveDirectory`. */
  function NumberInFileName(saveDirectory: string, fileName: string): Option<string>
  {
    var head := saveDirectory + FILE_STEM;
    if |fileName| >= |head| + |FILE_EXTENSION| && fileName[..|head|] == head
       && fileName[|fileName| - |FILE_EXTENSION|..] == FILE_EXTENSION
    then Some(fileName[|head|..|fileName| - |FILE_EXTENSION|])
    else None
  }

  lemma FileNameRoundTrip(saveDirectory: string, receiptNumber: string)
    ensures NumberInFileName(saveDirectory, FileName(saveDirectory, receiptNumber)) == Some(receiptNumber)
  {
    var head := saveDirectory + FILE_STEM;
    var f := FileName(saveDirectory, receiptNumber);
    assert f == head + receiptNumber + FILE_EXTENSION;
    assert f[..|head|] == head;
    assert f[|f| - |FILE_EXTENSION|..] == FILE_EXTENSION;
    assert f[|head|..|f| - |FILE_EXTENSION|] == receiptNumber;
  }

  /** Receipts taken at different seconds are saved to different files in the
      same directory; two taken within one second share a file name. */
  lemma FileNamesDiffer(saveDirectory: string, t1: DateTime, t2: DateTime)
    requires ValidDateTime(t1) && ValidDateTime(t2) && t1 != t2
    ensures FileName(saveDirectory, ReceiptNumber(t1)) != FileName(saveDirectory, ReceiptNumber(t2))
  {
    FileNameRoundTrip(saveDirectory, ReceiptNumber(t1));
    FileNameRoundTrip(saveDirectory, ReceiptNumber(t2));
    if ReceiptNumber(t1) == ReceiptNumber(t2) {
      ReceiptNumberInjective(t1, t2);
    }
  }

  /** `f"- {item[0]}: {item[1]:,.2f} Rs."`: one line of the itemised list. */
  function ItemLine(item: CartLine): string
  {
    "- " + item.name + ": " + FormatMoney(item.price) + " Rs."
  }

  const TOTAL_LABEL := "Total Amount: "
  const RUPEES := " Rs."

  /** `f"Total Amount: {total_amount:,.2f} Rs."`, both on the receipt and on
      the total label of the window. */
  function TotalLine(total: nat): string
  {
    TOTAL_LABEL + FormatMoney(total) + RUPEES
  }

  /** Reads the amount back out of a total line. */
  function ReadTotalLine(line: string): Option<nat>
  {
    if |line| >= |TOTAL_LABEL| + |RUPEES| && line[..|TOTAL_LABEL|] == TOTAL_LABEL
       && line[|line| - |RUPEES|..] == RUPEES
    then ParseMoney(line[|TOTAL_LABEL|..|line| - |RUPEES|])
    else None
  }

  /** The total line states exactly the amount it was given. */
  lemma TotalLineRoundTrip(total: nat)
    ensures ReadTotalLine(TotalLine(total)) == Some(total)
  {
    var line := TotalLine(total);
    assert line[..|TOTAL_LABEL|] == TOTAL_LABEL;
    assert line[|line| - |RUPEES|..] == RUPEES;
    assert line[|TOTAL_LABEL|..|line| - |RUPEES|] == FormatMoney(total);
    MoneyRoundTrip(total);
  }

  /** `f` applied to each element of `s`, in order. */
  function Each<T, U>(f: T -> U, s: seq<T>): (r: seq<U>)
    ensures |r| == |s|
  {
    if s == [] then [] else [f(s[0])] + Each(f, s[1..])
  }

  lemma {:induction false} EachAt<T, U>(f: T -> U, s: seq<T>)
    ensures forall i :: 0 <= i < |s| ==> Each(f, s)[i] == f(s[i])
    decreases |s|
  {
    if s != [] {
      EachAt(f, s[1..]);
      assert forall i :: 1 <= i < |s| ==> Each(f, s)[i] == Each(f, s[1..])[i - 1];
    }
  }

  lemma EachSnoc<T, U>(f: T -> U, s: seq<T>, x: T)
    ensures Each(f, s + [x]) == Each(f, s) + [f(x)]
  {
    var longer := s + [x];
    EachAt(f, longer);
    EachAt(f, s);
    assert forall i :: 0 <= i < |s| ==> longer[i] == s[i];
    var a, b := Each(f, longer), Each(f, s) + [f(x)];
    assert forall i :: 0 <= i < |a| ==> a[i] == b[i];
  }

  /** The itemised list: one line per cart entry, in cart order (ItemLinesAt). */
  function ItemLines(items: seq<CartLine>): seq<string>
  {
    Each(ItemLine, items)
  }

  lemma ItemLinesAt(items: seq<CartLine>)
    ensures |ItemLines(items)| == |items|
    ensures forall i :: 0 <= i < |items| ==> ItemLines(items)[i] == ItemLine(items[i])
  {
    EachAt(ItemLine, items);
  }

  lemma ItemLinesSnoc(items: seq<CartLine>, item: CartLine)
    ensures ItemLines(items + [item]) == ItemLines(items) + [ItemLine(item)]
  {
    EachSnoc(ItemLine, items, item);
  }

  const HEADER_LINES := 6
  const FOOTER_LINES := 4

  /** The lines `generate_sales_receipt` writes, in order (ReceiptLayout). */
  function ReceiptLines(vendorName: string, receiptNumber: string, purchaseDateTime: string,
                        items: seq<CartLine>, totalAmount: nat, paymentMethod: string): seq<string>
  {
    Header(vendorName, receiptNumber, purchaseDateTime) + ItemLines(items)
      + Footer(totalAmount, paymentMethod)
  }

  /** The receipt layout: vendor, title, receipt number, purchase time,
      location, list heading, one line per cart entry in cart order, total,
      payment method, status and the closing line; `n + 10` lines for `n`
      entries. */
  lemma ReceiptLayout(vendorName: string, receiptNumber: string, purchaseDateTime: string,
                      items: seq<CartLine>, totalAmount: nat, paymentMethod: string)
    ensures var lines := ReceiptLines(vendorName, receiptNumber, purchaseDateTime, items, totalAmount, paymentMethod);
      && |lines| == |items| + HEADER_LINES + FOOTER_LINES
      && lines[0] == vendorName && lines[1] == "Sales Receipt"
      && lines[2] == "Receipt Number: " + receiptNumber
      && lines[3] == "Purchase Date & Time: " + purchaseDateTime
      && lines[4] == "Location: " + LOCATION && lines[5] == "Items Purchased:"
      && (forall i :: 0 <= i < |items| ==> lines[HEADER_LINES + i] == ItemLine(items[i]))
      && var n := |items| + HEADER_LINES;
      && lines[n] == TotalLine(totalAmount) && lines[n + 1] == "Payment Method: " + paymentMethod
      && lines[n + 2] == "Status: Successful" && lines[n + 3] == "Thank you for your purchase!"
  {
    var h := Header(vendorName, receiptNumber, purchaseDateTime);
    var m := ItemLines(items);
    var f := Footer(totalAmount, paymentMethod);
    ItemLinesAt(items);
    PartsAt(h, m, f);
  }

  /** Where a six-line header, a body and a four-line footer end up. */
  lemma PartsAt<T>(h: seq<T>, m: seq<T>, f: seq<T>)
    requires |h| == HEADER_LINES && |f| == FOOTER_LINES
    ensures var s := h + m + f;
      && |s| == |m| + HEADER_LINES + FOOTER_LINES
      && s[0] == h[0] && s[1] == h[1] && s[2] == h[2] && s[3] == h[3] && s[4] == h[4] && s[5] == h[5]
      && (forall i :: 0 <= i < |m| ==> s[HEADER_LINES + i] == m[i])
      && var n := |m| + HEADER_LINES;
      && s[n] == f[0] && s[n + 1] == f[1] && s[n + 2] == f[2] && s[n + 3] == f[3]
  {
    ConcatAt(h, m, f);
  }

  /** Where the elements of the three parts of `a + b + c` end up. */
  lemma ConcatAt<T>(a: seq<T>, b: seq<T>, c: seq<T>)
    ensures forall i :: 0 <= i < |a| ==> (a + b + c)[i] == a[i]
    ensures forall i :: 0 <= i < |b| ==> (a + b + c)[|a| + i] == b[i]
    ensures forall i :: 0 <= i < |c| ==> (a + b + c)[|a| + |b| + i] == c[i]
  {
  }

  function Header(vendorName: string, receiptNumber: string, purchaseDateTime: string): (lines: seq<string>)
    ensures |lines| == HEADER_LINES
  {
    [ vendorName, "Sales Receipt", "Receipt Number: " + receiptNumber,
      "Purchase Date & Time: " + purchaseDateTime, "Location: " + LOCATION, "Items Purchased:" ]
  }

  function Footer(totalAmount: nat, paymentMethod: string): (lines: seq<string>)
    ensures |lines| == FOOTER_LINES
  {
    [ TotalLine(totalAmount), "Payment Method: " + paymentMethod,
      "Status: Successful", "Thank you for your purchase!" ]
  }

  /** `generate_sales_receipt`: names the file after the receipt number and
      writes the header, one line per entry of `items` in a loop, and the
      footer. The two clock readings are the two calls of `datetime.now()`. */
  method GenerateSalesReceipt(vendorName: string, items: seq<CartLine>, totalAmount: nat,
                              paymentMethod: string, numberClock: DateTime,
                              purchaseClock: DateTime, saveDirectory: string)
    returns (doc: Document)
    requires ValidDateTime(numberClock) && ValidDateTime(purchaseClock)
    ensures doc.fileName == FileName(saveDirectory, ReceiptNumber(numberClock))
    ensures doc.lines == ReceiptLines(vendorName, ReceiptNumber(numberClock),
                                      PurchaseTime(purchaseClock), items, totalAmount, paymentMethod)
  {
    var receiptNumber := ReceiptNumber(numberClock);
    var purchaseDateTime := PurchaseTime(purchaseClock);
    var fileName := saveDirectory + FILE_STEM + receiptNumber + FILE_EXTENSION;
    var lines := [vendorName, "Sales Receipt"];
    lines := lines + ["Receipt Number: " + receiptNumber];
    lines := lines + ["Purchase Date & Time: " + purchaseDateTime];
    lines := lines + ["Location: " + LOCATION];
    lines := lines + ["Items Purchased:"];
    AppendFour([vendorName, "Sales Receipt"], "Receipt Number: " + receiptNumber,
               "Purchase Date & Time: " + purchaseDateTime, "Location: " + LOCATION, "Items Purchased:");
    assert lines == Header(vendorName, receiptNumber, purchaseDateTime);
    lines := WriteItemLines(lines, items);
    ghost var body := lines;
    lines := lines + [TotalLine(totalAmount)];
    lines := lines + ["Payment Method: " + paymentMethod];
    lines := lines + ["Status: Successful"];
    lines := lines + ["Thank you for your purchase!"];
    AppendFour(body, TotalLine(totalAmount), "Payment Method: " + paymentMethod,
               "Status: Successful", "Thank you for your purchase!");
    assert lines == body + Footer(totalAmount, paymentMethod);
    doc := Document(fileName, lines);
  }

  /** The loop of `generate_sales_receipt` over the cart: one line per entry
      written after `lines`, in cart order. */
  method WriteItemLines(lines: seq<string>, items: seq<CartLine>) returns (written: seq<string>)
    ensures written == lines + ItemLines(items)
  {
    written := lines;
    for i := 0 to |items|
      invariant written == lines + ItemLines(items[..i])
    {
      TakeOneMore(items, i);
      ItemLinesSnoc(items[..i], items[i]);
      written := written + [ItemLine(items[i])];
    }
    TakeAll(items);
  }

  lemma AppendFour<T>(s: seq<T>, a: T, b: T, c: T, d: T)
    ensures s + [a] + [b] + [c] + [d] == s + [a, b, c, d]
  {
  }
}
