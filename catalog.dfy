/** The fixed catalog: item numbers 1 to 100, each with a name and a price.
    Prices are in paise; every catalog price is a whole number of rupees. */
module Catalog {

  datatype Item = Item(name: string, price: nat)

  const CATALOG_SIZE := 100

  /** The name of item number `n` in `item_data`. */
  function CatalogName(n: int): (name: string)
    requires 1 <= n <= CATALOG_SIZE
    ensures name != []
  {
    if n == 1 then "Rice"
    else if n == 2 then "Wheat"
    else if n == 3 then "Sugar"
    else if n == 4 then "Salt"
    else if n == 5 then "Milk"
    else if n == 6 then "Butter"
    else if n == 7 then "Oil"
    else if n == 8 then "Tea"
    else if n == 9 then "Coffee"
    else if n == 10 then "Juice"
    else if n == 11 then "Cereal"
    else if n == 12 then "Pasta"
    else if n == 13 then "Tomatoes"
    else if n == 14 then "Onions"
    else if n == 15 then "Garlic"
    else if n == 16 then "Apples"
    else if n == 17 then "Bananas"
    else if n == 18 then "Oranges"
    else if n == 19 then "Lemons"
    else if n == 20 then "Grapes"
    else if n == 21 then "Carrots"
    else if n == 22 then "Potatoes"
    else if n == 23 then "Spinach"
    else if n == 24 then "Lettuce"
    else if n == 25 then "Cucumber"
    else if n == 26 then "Peppers"
    else if n == 27 then "Zucchini"
    else if n == 28 then "Eggplant"
    else if n == 29 then "Mango"
    else if n == 30 then "Pineapple"
    else if n == 31 then "Strawberries"
    else if n == 32 then "Blueberries"
    else if n == 33 then "Cherries"
    else if n == 34 then "Raspberries"
    else if n == 35 then "Blackberries"
    else if n == 36 then "Lettuce"
    else if n == 37 then "Sweet Corn"
    else if n == 38 then "Pumpkin"
    else if n == 39 then "Cabbage"
    else if n == 40 then "Avocados"
    else if n == 41 then "Pears"
    else if n == 42 then "Papaya"
    else if n == 43 then "Melons"
    else if n == 44 then "Watermelon"
    else if n == 45 then "Ginger"
    else if n == 46 then "Mustard"
    else if n == 47 then "Soya Sauce"
    else if n == 48 then "Vinegar"
    else if n == 49 then "Honey"
    else if n == 50 then "Maple Syrup"
    else if n == 51 then "Chocolate"
    else if n == 52 then "Cookies"
    else if n == 53 then "Cake"
    else if n == 54 then "Biscuits"
    else if n == 55 then "Chips"
    else if n == 56 then "Crackers"
    else if n == 57 then "Popcorn"
    else if n == 58 then "Nuts"
    else if n == 59 then "Cheese"
    else if n == 60 then "Yogurt"
    else if n == 61 then "Ice Cream"
    else if n == 62 then "Pudding"
    else if n == 63 then "Jelly"
    else if n == 64 then "Cakes"
    else if n == 65 then "Muffins"
    else if n == 66 then "Bread"
    else if n == 67 then "Toast"
    else if n == 68 then "Bagels"
    else if n == 69 then "Croissants"
    else if n == 70 then "Buns"
    else if n == 71 then "Sausages"
    else if n == 72 then "Chicken"
    else if n == 73 then "Pork"
    else if n == 74 then "Beef"
    else if n == 75 then "Lamb"
    else if n == 76 then "Fish"
    else if n == 77 then "Shrimp"
    else if n == 78 then "Crab"
    else if n == 79 then "Mussels"
    else if n == 80 then "Oysters"
    else if n == 81 then "Tuna"
    else if n == 82 then "Salmon"
    else if n == 83 then "Prawns"
    else if n == 84 then "Fish Fillets"
    else if n == 85 then "Hot Sauce"
    else if n == 86 then "Barbecue Sauce"
    else if n == 87 then "Ketchup"
    else if n == 88 then "Mayonnaise"
    else if n == 89 then "Mustard Sauce"
    else if n == 90 then "Soy Sauce"
    else if n == 91 then "Salad Dressing"
    else if n == 92 then "Chili Sauce"
    else if n == 93 then "Ghee"
    else if n == 94 then "Milk Powder"
    else if n == 95 then "Tea Bags"
    else if n == 96 then "Coffee Powder"
    else if n == 97 then "Herbal Tea"
    else if n == 98 then "Green Tea"
    else if n == 99 then "Chai Tea"
    else "Lemon Tea"
  }

  /** The price of item number `n` in `item_data`, in whole rupees (the
      source writes each as a float with `.00`). */
  function CatalogRupees(n: int): nat
    requires 1 <= n <= CATALOG_SIZE
  {
    if n == 1 then 500
    else if n == 2 then 350
    else if n == 3 then 250
    else if n == 4 then 50
    else if n == 5 then 45
    else if n == 6 then 300
    else if n == 7 then 120
    else if n == 8 then 80
    else if n == 9 then 150
    else if n == 10 then 90
    else if n == 11 then 200
    else if n == 12 then 150
    else if n == 13 then 60
    else if n == 14 then 30
    else if n == 15 then 40
    else if n == 16 then 100
    else if n == 17 then 50
    else if n == 18 then 90
    else if n == 19 then 120
    else if n == 20 then 150
    else if n == 21 then 40
    else if n == 22 then 60
    else if n == 23 then 70
    else if n == 24 then 50
    else if n == 25 then 30
    else if n == 26 then 80
    else if n == 27 then 60
    else if n == 28 then 90
    else if n == 29 then 120
    else if n == 30 then 150
    else if n == 31 then 200
    else if n == 32 then 180
    else if n == 33 then 250
    else if n == 34 then 230
    else if n == 35 then 220
    else if n == 36 then 50
    else if n == 37 then 40
    else if n == 38 then 120
    else if n == 39 then 50
    else if n == 40 then 180
    else if n == 41 then 90
    else if n == 42 then 150
    else if n == 43 then 130
    else if n == 44 then 160
    else if n == 45 then 80
    else if n == 46 then 60
    else if n == 47 then 40
    else if n == 48 then 30
    else if n == 49 then 250
    else if n == 50 then 300
    else if n == 51 then 200
    else if n == 52 then 180
    else if n == 53 then 220
    else if n == 54 then 150
    else if n == 55 then 120
    else if n == 56 then 100
    else if n == 57 then 50
    else if n == 58 then 200
    else if n == 59 then 250
    else if n == 60 then 100
    else if n == 61 then 300
    else if n == 62 then 120
    else if n == 63 then 80
    else if n == 64 then 250
    else if n == 65 then 180
    else if n == 66 then 50
    else if n == 67 then 70
    else if n == 68 then 120
    else if n == 69 then 150
    else if n == 70 then 80
    else if n == 71 then 300
    else if n == 72 then 450
    else if n == 73 then 500
    else if n == 74 then 600
    else if n == 75 then 700
    else if n == 76 then 200
    else if n == 77 then 250
    else if n == 78 then 300
    else if n == 79 then 150
    else if n == 80 then 200
    else if n == 81 then 180
    else if n == 82 then 220
    else if n == 83 then 250
    else if n == 84 then 350
    else if n == 85 then 60
    else if n == 86 then 80
    else if n == 87 then 40
    else if n == 88 then 50
    else if n == 89 then 30
    else if n == 90 then 70
    else if n == 91 then 100
    else if n == 92 then 90
    else if n == 93 then 350
    else if n == 94 then 300
    else if n == 95 then 50
    else if n == 96 then 120
    else if n == 97 then 150
    else if n == 98 then 180
    else if n == 99 then 100
    else 120
  }

  /** The catalog entry for item number `n`, its price in paise. */
  function CatalogEntry(n: int): Item
    requires 1 <= n <= CATALOG_SIZE
  {
    Item(CatalogName(n), 100 * CatalogRupees(n))
  }

  /** The integers from `lo` to `hi`, both included. */
  function Interval(lo: int, hi: int): (r: set<int>)
    ensures forall n :: n in r <==> lo <= n <= hi
    ensures |r| == if lo <= hi then hi - lo + 1 else 0
    decreases hi - lo
  {
    if lo > hi then {} else Interval(lo, hi - 1) + {hi}
  }

  /** A catalog numbered the way `add_items` expects: its keys are exactly
      1 to `len(catalog)`. */
  predicate Numbered(catalog: map<int, Item>)
  {
    && (forall n :: n in catalog ==> 1 <= n <= |catalog|)
    && (forall n :: 1 <= n <= |catalog| ==> n in catalog)
  }

  /** `item_data`: the map from item number to entry. Its keys are exactly
      1 to 100, so `len(item_data)` is 100. */
  function ItemData(): (m: map<int, Item>)
    ensures forall n :: n in m <==> 1 <= n <= CATALOG_SIZE
    ensures |m| == CATALOG_SIZE && Numbered(m)
    ensures forall n :: n in m ==> m[n] == CatalogEntry(n)
  {
    var m := map n | 1 <= n <= CATALOG_SIZE :: CatalogEntry(n);
    assert m.Keys == Interval(1, CATALOG_SIZE);
    m
  }

  /** The range check of `add_items`: `not (num < 1 or num > len(item_data))`. */
  predicate InRange(catalog: map<int, Item>, n: int)
  {
    !(n < 1 || n > |catalog|)
  }

  /** In a numbered catalog, passing the range check is the same as having an
      entry, so the lookup after the check cannot fail. */
  lemma InRangeIsPresent(catalog: map<int, Item>, n: int)
    requires Numbered(catalog)
    ensures InRange(catalog, n) <==> n in catalog
  {
  }

  /** Every entry has a name and a price in whole rupees, so the two decimals
      of a displayed price are always "00". */
  lemma WholeRupeePrices(n: int)
    requires n in ItemData()
    ensures ItemData()[n].name != [] && ItemData()[n].price % 100 == 0
  {
  }

  /** The first and last entries of `item_data`, and Salt at number 4. */
  lemma CatalogEnds()
    ensures ItemData()[1] == Item("Rice", 50000)
    ensures ItemData()[4] == Item("Salt", 5000)
    ensures ItemData()[CATALOG_SIZE] == Item("Lemon Tea", 12000)
  {
    FirstEntry();
    SaltEntry();
    LastEntry();
  }

  lemma FirstEntry()
    ensures ItemData()[1] == Item("Rice", 50000)
  {
    EntryAt(1, "Rice", 500);
  }

  lemma SaltEntry()
    ensures ItemData()[4] == Item("Salt", 5000)
  {
    EntryAt(4, "Salt", 50);
  }

  lemma LastEntry()
    ensures ItemData()[CATALOG_SIZE] == Item("Lemon Tea", 12000)
  {
    EntryAt(CATALOG_SIZE, "Lemon Tea", 120);
  }

  lemma EntryAt(n: int, name: string, rupees: nat)
    requires 1 <= n <= CATALOG_SIZE
    requires CatalogName(n) == name && CatalogRupees(n) == rupees
    ensures ItemData()[n] == Item(name, 100 * rupees)
  {
  }
}
