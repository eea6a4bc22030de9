/** The sales session: the cart the "Add Items" button fills from the entry
    field, the item list and total shown beside it, and the "Generate Receipt"
    button's checks before a receipt is produced. Dialogs become returned
    outcomes carrying their message text. */
module Session {
  import opened Text
  import opened Money
  import opened Timestamp
  import opened Catalog
  import opened Receipt
  import opened Entry

  /** The cart entry for item number `n`: its catalog name and price. */
  function LineFor(catalog: map<int, Item>, n: int): CartLine
    requires Numbered(catalog) && InRange(catalog, n)
  {
    var item := catalog[n];
    CartLine(item.name, item.price)
  }

  /** Every number in `nums` passes the range check. */
  predicate AllInRange(catalog: map<int, Item>, nums: seq<nat>)
  {
    forall j :: 0 <= j < |nums| ==> InRange(catalog, nums[j])
  }

  /** The cart entries for a run of item numbers that all pass the range
      check: one per number, in order. */
  function LinesFor(catalog: map<int, Item>, nums: seq<nat>): (lines: seq<CartLine>)
    requires Numbered(catalog) && AllInRange(catalog, nums)
    ensures |lines| == |nums|
    ensures forall j :: 0 <= j < |nums| ==> lines[j] == LineFor(catalog, nums[j])
  {
    if nums == [] then [] else [LineFor(catalog, nums[0])] + LinesFor(catalog, nums[1..])
  }

  lemma LinesForSnoc(catalog: map<int, Item>, nums: seq<nat>, n: int)
    requires Numbered(catalog) && AllInRange(catalog, nums) && InRange(catalog, n)
    ensures AllInRange(catalog, nums + [n])
    ensures LinesFor(catalog, nums + [n]) == LinesFor(catalog, nums) + [LineFor(catalog, n)]
  {
    assert forall j :: 0 <= j < |nums| ==> (nums + [n])[j] == nums[j];
    var a, b := LinesFor(catalog, nums + [n]), LinesFor(catalog, nums) + [LineFor(catalog, n)];
    assert forall j :: 0 <= j < |a| ==> a[j] == b[j];
  }

  /** How many item numbers at the front pass the range check: the loop of
      `add_items` appends these and stops at the next one. */
  function PrefixInRange(catalog: map<int, Item>, nums: seq<nat>): (k: nat)
    ensures k <= |nums|
    ensures AllInRange(catalog, nums[..k])
    ensures k < |nums| ==> !InRange(catalog, nums[k])
  {
    if nums == [] || !InRange(catalog, nums[0]) then 0
    else
      var k := 1 + PrefixInRange(catalog, nums[1..]);
      assert forall j :: 1 <= j < k ==> nums[..k][j] == nums[1..][..k - 1][j - 1];
      k
  }

  /** The first item number that fails the range check is the one after the in-range prefix. */
  lemma {:induction false} PrefixInRangeAt(catalog: map<int, Item>, nums: seq<nat>, i: nat)
    requires i < |nums| && !InRange(catalog, nums[i])
    requires AllInRange(catalog, nums[..i])
    ensures PrefixInRange(catalog, nums) == i
    decreases i
  {
    if i > 0 {
      assert InRange(catalog, nums[..i][0]);
      assert nums[1..][..i - 1] == nums[..i][1..];
      PrefixInRangeAt(catalog, nums[1..], i - 1);
    }
  }

  /** What a click on "Add Items" reports: success, or the error dialog's text. */
  datatype AddOutcome = Added | AddFailed(message: string)

  const NO_VALID_NUMBERS := "Please enter valid item numbers."

  function OutOfRangeMessage(n: nat): string
  {
    "Item number " + Decimal(n) + " is out of range."
  }

  /** The outcome of adding the item numbers `nums`: no numbers at all is one
      error; otherwise the first out-of-range number is reported. */
  function AddVerdict(catalog: map<int, Item>, nums: seq<nat>): AddOutcome
  {
    if nums == [] then AddFailed(NO_VALID_NUMBERS)
    else
      var k := PrefixInRange(catalog, nums);
      if k < |nums| then AddFailed(OutOfRangeMessage(nums[k])) else Added
  }

  /** The cart entries adding `nums` leaves behind: those of the in-range
      prefix, appended before the loop stops. */
  function Appended(catalog: map<int, Item>, nums: seq<nat>): seq<CartLine>
    requires Numbered(catalog)
  {
    LinesFor(catalog, nums[..PrefixInRange(catalog, nums)])
  }

  /** The sum of the catalog prices of a run of in-range item numbers. */
  function PriceSum(catalog: map<int, Item>, nums: seq<nat>): nat
    requires Numbered(catalog) && AllInRange(catalog, nums)
  {
    if nums == [] then 0
    else
      assert InRange(catalog, nums[0]);
      catalog[nums[0]].price + PriceSum(catalog, nums[1..])
  }

  /** `sum(item[1] for item in items)` over entries made from item numbers is
      the sum of those items' catalog prices. */
  lemma {:induction false} TotalLinesFor(catalog: map<int, Item>, nums: seq<nat>)
    requires Numbered(catalog) && AllInRange(catalog, nums)
    ensures Total(LinesFor(catalog, nums)) == PriceSum(catalog, nums)
    decreases |nums|
  {
    if nums != [] {
      TotalLinesFor(catalog, nums[1..]);
      assert LinesFor(catalog, nums)[1..] == LinesFor(catalog, nums[1..]);
    }
  }

  /** Adding succeeds exactly when some number was read and every number
      read passes the range check; then every number read is appended. */
  lemma AddSucceeds(catalog: map<int, Item>, nums: seq<nat>)
    requires Numbered(catalog)
    ensures AddVerdict(catalog, nums) == Added <==> nums != [] && AllInRange(catalog, nums)
    ensures AddVerdict(catalog, nums) == Added ==> Appended(catalog, nums) == LinesFor(catalog, nums)
  {
    assert nums[..|nums|] == nums;
  }

  /** An entry from which no number is read appends nothing. */
  lemma AddWithoutNumbers(catalog: map<int, Item>, entry: string)
    requires Numbered(catalog) && ParseItemNumbers(entry) == []
    ensures AddVerdict(catalog, ParseItemNumbers(entry)) == AddFailed(NO_VALID_NUMBERS)
    ensures Appended(catalog, ParseItemNumbers(entry)) == []
  {
  }

  /** Adding is not all-or-nothing: when the number at position `k` is the
      first out of range, that number is reported and the entries for the
      numbers before it stay in the cart. */
  lemma AddStopsAtFirstOutOfRange(catalog: map<int, Item>, nums: seq<nat>, k: nat)
    requires Numbered(catalog)
    requires k < |nums| && !InRange(catalog, nums[k])
    requires AllInRange(catalog, nums[..k])
    ensures AddVerdict(catalog, nums) == AddFailed(OutOfRangeMessage(nums[k]))
    ensures Appended(catalog, nums) == LinesFor(catalog, nums[..k])
  {
    PrefixInRangeAt(catalog, nums, k);
  }

  /** After adding, the cart total has grown by the catalog prices of the
      entries appended, failed adds included. */
  lemma AddedTotal(catalog: map<int, Item>, cart: seq<CartLine>, nums: seq<nat>)
    requires Numbered(catalog)
    ensures var k := PrefixInRange(catalog, nums);
      Total(cart + Appended(catalog, nums)) == Total(cart) + PriceSum(catalog, nums[..k])
  {
    TotalAppend(cart, Appended(catalog, nums));
    TotalLinesFor(catalog, nums[..PrefixInRange(catalog, nums)]);
  }

  /** Entering "1,101" appends Rice (item 1) and then reports 101. */
  lemma PartialAddExample()
    ensures AddVerdict(ItemData(), [1, 101]) == AddFailed(OutOfRangeMessage(101))
    ensures Appended(ItemData(), [1, 101]) == [CartLine("Rice", 50000)]
  {
    var catalog := ItemData();
    CatalogEnds();
    var nums: seq<nat> := [1, 101];
    assert nums[..1] == [1];
    assert InRange(catalog, 1) && !InRange(catalog, 101);
    AddStopsAtFirstOutOfRange(catalog, nums, 1);
    assert LinesFor(catalog, [1]) == [LineFor(catalog, 1)];
  }

  /** `f"{item[0]} - {item[1]:,.2f} Rs."`: one row of the item list. */
  function ListRow(item: CartLine): string
  {
    item.name + " - " + FormatMoney(item.price) + RUPEES
  }

  const VENDOR_NAME := "Feel Fresh"
  const NO_ITEMS := "Please add at least one item."
  const NO_PAYMENT_METHOD := "Please select a payment method."

  /** What a click on "Generate Receipt" gives: the receipt, or the error dialog's text. */
  datatype ReceiptOutcome = Generated(doc: Document) | Refused(message: string)

  /** The session's `items` list, in the order the entries were appended,
      together with the `item_data` catalog the session reads. */
  class Cart {
    const catalog: map<int, Item>
    var items: seq<CartLine>

    constructor()
      ensures catalog == ItemData() && Numbered(catalog)
      ensures items == []
    {
      catalog := ItemData();
      items := [];
    }

    /** `add_items`: reads item numbers from `entry` and appends the entry for
        each in-range number in turn, stopping with an error at the first
        out-of-range one. */
    method AddItems(entry: string) returns (outcome: AddOutcome)
      requires Numbered(catalog)
      modifies this
      ensures items == old(items) + Appended(catalog, ParseItemNumbers(entry))
      ensures outcome == AddVerdict(catalog, ParseItemNumbers(entry))
    {
      var nums := ParseItemNumbers(entry);
      if nums == [] {
        return AddFailed(NO_VALID_NUMBERS);
      }
      outcome := AppendNumbers(nums);
    }

    /** The loop of `add_items` over a non-empty run of item numbers: each
        in-range number's entry is appended in turn, and the first
        out-of-range number ends the loop with its error. */
    method AppendNumbers(nums: seq<nat>) returns (outcome: AddOutcome)
      requires Numbered(catalog) && nums != []
      modifies this
      ensures items == old(items) + Appended(catalog, nums)
      ensures outcome == AddVerdict(catalog, nums)
    {
      var i := 0;
      while i < |nums|
        invariant 0 <= i <= |nums|
        invariant AllInRange(catalog, nums[..i])
        invariant items == old(items) + LinesFor(catalog, nums[..i])
      {
        var num := nums[i];
        if num < 1 || num > |catalog| {
          PrefixInRangeAt(catalog, nums, i);
          return AddFailed(OutOfRangeMessage(num));
        }
        var item := catalog[num];
        TakeOneMore(nums, i);
        LinesForSnoc(catalog, nums[..i], num);
        items := items + [CartLine(item.name, item.price)];
        i := i + 1;
      }
      AddSucceeds(catalog, nums);
      outcome := Added;
    }

    /** `update_item_list`: the item list rows, one per entry in cart order,
        and the total label. */
    method ItemListView() returns (rows: seq<string>, totalLabel: string)
      ensures |rows| == |items|
      ensures forall i :: 0 <= i < |items| ==> rows[i] == ListRow(items[i])
      ensures totalLabel == TotalLine(Total(items))
    {
      rows := [];
      for i := 0 to |items|
        invariant |rows| == i
        invariant forall j :: 0 <= j < i ==> rows[j] == ListRow(items[j])
      {
        rows := rows + [ListRow(items[i])];
      }
      totalLabel := TotalLine(Total(items));
    }

    /** `generate_receipt`: refuses an empty cart, then a missing payment
        method; otherwise produces the receipt for the whole cart and its
        total. The cart itself is left as it is. */
    method GenerateReceipt(paymentMethod: string, numberClock: DateTime,
                           purchaseClock: DateTime, saveDirectory: string)
      returns (result: ReceiptOutcome)
      requires ValidDateTime(numberClock) && ValidDateTime(purchaseClock)
      ensures items == [] ==> result == Refused(NO_ITEMS)
      ensures items != [] && paymentMethod == "" ==> result == Refused(NO_PAYMENT_METHOD)
      ensures result.Generated? <==> items != [] && paymentMethod != ""
      ensures result.Generated? ==>
        && result.doc.fileName == FileName(saveDirectory, ReceiptNumber(numberClock))
        && result.doc.lines == ReceiptLines(VENDOR_NAME, ReceiptNumber(numberClock),
                                            PurchaseTime(purchaseClock), items, Total(items), paymentMethod)
    {
      if items == [] {
        return Refused(NO_ITEMS);
      }
      if paymentMethod == "" {
        return Refused(NO_PAYMENT_METHOD);
      }
      var totalAmount := Total(items);
      var doc := GenerateSalesReceipt(VENDOR_NAME, items, totalAmount, paymentMethod,
                                      numberClock, purchaseClock, saveDirectory);
      result := Generated(doc);
    }
  }

  /** A generated receipt charges the cart total, lists every cart entry in
      cart order, and names the chosen payment method. */
  lemma ReceiptChargesCart(items: seq<CartLine>, paymentMethod: string,
                           numberClock: DateTime, purchaseClock: DateTime)
    requires ValidDateTime(numberClock) && ValidDateTime(purchaseClock)
    ensures var lines := ReceiptLines(VENDOR_NAME, ReceiptNumber(numberClock),
                                      PurchaseTime(purchaseClock), items, Total(items), paymentMethod);
      && |lines| == |items| + 10
      && ReadTotalLine(lines[|items| + 6]) == Some(Total(items))
      && (forall i :: 0 <= i < |items| ==> lines[6 + i] == ItemLine(items[i]))
      && lines[|items| + 7] == "Payment Method: " + paymentMethod
  {
    ReceiptLayout(VENDOR_NAME, ReceiptNumber(numberClock), PurchaseTime(purchaseClock),
                  items, Total(items), paymentMethod);
    TotalLineRoundTrip(Total(items));
  }

  /** Rice (item 1) and Salt (item 4) of `item_data` (CatalogEnds) come to
      550 rupees. */
  lemma ExampleTotal(catalog: map<int, Item>)
    requires Numbered(catalog) && |catalog| >= 4
    requires catalog[1] == Item("Rice", 50000) && catalog[4] == Item("Salt", 5000)
    ensures TotalLine(Total([LineFor(catalog, 1), LineFor(catalog, 4)])) == "Total Amount: 550.00 Rs."
  {
    TotalOfPair(LineFor(catalog, 1), LineFor(catalog, 4));
    FormatMoneyHundreds();
  }

  /** The same for `item_data` itself. */
  lemma CatalogExampleTotal()
    ensures TotalLine(Total([LineFor(ItemData(), 1), LineFor(ItemData(), 4)])) == "Total Amount: 550.00 Rs."
  {
    CatalogEnds();
    ExampleTotal(ItemData());
  }

  lemma TotalOfPair(a: CartLine, b: CartLine)
    ensures Total([a, b]) == a.price + b.price
  {
    assert [a, b][1..] == [b] && [b][1..] == [];
    assert Total([b]) == b.price + Total([]);
  }
}
