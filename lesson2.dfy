/** homework/lesson_2.py.  `process_data` keeps the items priced above 75, gives each
    kept item a copy carrying an added `discounted_price`, and sorts the copies by
    price, highest first.  The module-level script applies it to `raw_data` and sets
    the two names that the lesson checker requires of this lesson. */
module Lesson2 {
  import opened Seqs
  import opened StableSort

  /** A dictionary value.  Prices are integers; `Scaled(p)` stands for the float
      `p * 0.9`, which is not computed. */
  datatype Value = Num(n: int) | Text(s: string) | Scaled(base: int)

  /** The contents of one item dictionary. */
  type Item = map<string, Value>

  const Threshold := 75

  predicate Priced(item: Item) {
    "price" in item && item["price"].Num?
  }

  /** `item["price"]`.  The 0 for an item without a numeric price is never reached
      under `ProcessData`, which requires every item to be priced; Python would raise
      `KeyError` or `TypeError` on such an item instead. */
  function Price(item: Item): (price: int) {
    if Priced(item) then item["price"].n else 0
  }

  /** The condition of the comprehension on line 11. */
  predicate Expensive(item: Item) {
    Price(item) > Threshold
  }

  /** The copy made on lines 16-17: the item with `discounted_price` set from its price
      and every other field as it was. */
  function WithDiscount(item: Item): (copy: Item)
    ensures copy.Keys == item.Keys + {"discounted_price"}
    ensures copy["discounted_price"] == Scaled(Price(item))
    ensures forall k :: k in item && k != "discounted_price" ==> copy[k] == item[k]
    ensures Priced(copy) == Priced(item) && Price(copy) == Price(item)
  {
    item["discounted_price" := Scaled(Price(item))]
  }

  /** What `process_data` returns for items with contents `data`. */
  function Processed(data: seq<Item>): (output: seq<Item>) {
    SortDesc(MapSeq(Filter(data, Expensive), WithDiscount), Price)
  }

  /** The output is a permutation of the copies of the input items priced above 75. */
  lemma ProcessedPermutation(data: seq<Item>)
    ensures |Processed(data)| == |Filter(data, Expensive)|
    ensures multiset(Processed(data)) == multiset(MapSeq(Filter(data, Expensive), WithDiscount))
  {
  }

  /** Every output item is the copy of an input item priced above 75, so it is priced
      above 75 itself. */
  lemma ProcessedFromSource(data: seq<Item>, i: nat)
    requires i < |Processed(data)|
    ensures Priced(Processed(data)[i]) && Price(Processed(data)[i]) > Threshold
    ensures exists j :: 0 <= j < |data| && Expensive(data[j]) && Processed(data)[i] == WithDiscount(data[j])
  {
    var kept := Filter(data, Expensive);
    FilterMembers(data, Expensive);
    var copies := MapSeq(kept, WithDiscount);
    var item := Processed(data)[i];
    assert item in multiset(copies);
    var m :| 0 <= m < |copies| && copies[m] == item;
    assert kept[m] in data;
    var j :| 0 <= j < |data| && data[j] == kept[m];
  }

  /** Every input item priced above 75 has its copy in the output. */
  lemma ProcessedComplete(data: seq<Item>, j: nat)
    requires j < |data| && Expensive(data[j])
    ensures WithDiscount(data[j]) in Processed(data)
  {
    var kept := Filter(data, Expensive);
    FilterMembers(data, Expensive);
    var copies := MapSeq(kept, WithDiscount);
    var m :| 0 <= m < |kept| && kept[m] == data[j];
    assert copies[m] in multiset(Processed(data));
  }

  /** The output is ordered by price, highest first. */
  lemma ProcessedSorted(data: seq<Item>)
    ensures forall i, j :: 0 <= i < j < |Processed(data)| ==> Price(Processed(data)[i]) >= Price(Processed(data)[j])
  {
    SortDescSorted(MapSeq(Filter(data, Expensive), WithDiscount), Price);
  }

  /** The sort is stable: the output items of any one price are the copies of the
      input items of that price (above 75), in input order. */
  lemma ProcessedStable(data: seq<Item>, price: int)
    ensures Filter(Processed(data), KeyIs(Price, price)) ==
            MapSeq(Filter(Filter(data, Expensive), KeyIs(Price, price)), WithDiscount)
  {
    var kept := Filter(data, Expensive);
    SortDescStable(MapSeq(kept, WithDiscount), Price, price);
    FilterMapSeq(kept, WithDiscount, KeyIs(Price, price), KeyIs(Price, price));
  }

  // ---------------------------------------------------------------------------
  // The dictionaries as objects

  /** A Python dict object. */
  class Dict {
    var entries: Item

    constructor (entries: Item)
      ensures this.entries == entries
    {
      this.entries := entries;
    }

    /** `d.copy()`: a new dict with the same entries. */
    method Copy() returns (d: Dict)
      ensures fresh(d) && d.entries == entries
    {
      d := new Dict(entries);
    }

    /** `d[key] = value`. */
    method SetItem(key: string, value: Value)
      modifies this
      ensures entries == old(entries)[key := value]
    {
      entries := entries[key := value];
    }
  }

  /** The contents of a list of dicts. */
  function Entries(ds: seq<Dict>): (items: seq<Item>)
    reads ds
    ensures |items| == |ds| && forall i :: 0 <= i < |ds| ==> items[i] == ds[i].entries
  {
    seq(|ds|, i requires 0 <= i < |ds| reads ds => ds[i].entries)
  }

  /** The entries of every dict of `ds`, as they are now. */
  function Snapshot(ds: seq<Dict>): (snap: map<Dict, Item>)
    reads ds
    ensures forall i :: 0 <= i < |ds| ==> ds[i] in snap && snap[ds[i]] == ds[i].entries
  {
    map d | d in ds :: d.entries
  }

  /** Whether a dict's entries in `snap` are priced above 75. */
  function ExpensiveIn(snap: map<Dict, Item>): Dict -> bool {
    (d: Dict) => d in snap && Expensive(snap[d])
  }

  /** The comprehension of line 11: the same dict objects, not copies, of the items
      priced above 75, in input order. */
  function ExpensiveDicts(data: seq<Dict>): (kept: seq<Dict>)
    reads data
    ensures Entries(kept) == Filter(Entries(data), Expensive)
    ensures forall i :: 0 <= i < |kept| ==> kept[i] in data
  {
    if data == [] then []
    else
      var n := |data| - 1;
      assert Entries(data)[..n] == Entries(data[..n]);
      ExpensiveDicts(data[..n]) + (if Expensive(data[n].entries) then [data[n]] else [])
  }

  /** The comprehension keeps dict objects, not just contents: the kept dicts are
      exactly those of `data` whose entries are priced above 75, in input order, so
      two dicts with equal entries keep their order. */
  lemma {:induction false} ExpensiveDictsKeepObjects(data: seq<Dict>)
    ensures ExpensiveDicts(data) == Filter(data, ExpensiveIn(Snapshot(data)))
  {
    if data != [] {
      var n := |data| - 1;
      ExpensiveDictsKeepObjects(data[..n]);
      FilterAgree(data[..n], ExpensiveIn(Snapshot(data[..n])), ExpensiveIn(Snapshot(data)));
    }
  }

  /** The loop of lines 14-18: a copy of each dict, with `discounted_price` set in the
      copy.  The copies are new dicts and nothing else is changed. */
  method AddDiscounts(filteredData: seq<Dict>) returns (processedData: seq<Dict>)
    ensures Entries(processedData) == MapSeq(Entries(filteredData), WithDiscount)
    ensures forall i :: 0 <= i < |processedData| ==> fresh(processedData[i])
    ensures Distinct(processedData)
  {
    processedData := [];
    for i := 0 to |filteredData|
      invariant |processedData| == i
      invariant forall j :: 0 <= j < i ==> fresh(processedData[j])
      invariant Distinct(processedData)
      invariant forall j :: 0 <= j < i ==> processedData[j].entries == WithDiscount(filteredData[j].entries)
    {
      var item := filteredData[i];
      var processedItem := item.Copy();
      processedItem.SetItem("discounted_price", Scaled(Price(item.entries)));
      processedData := processedData + [processedItem];
    }
  }

  /** Line 21: `sorted(processed_data, key=lambda x: x["price"], reverse=True)`, which
      reads each dict's price once and orders the same dict objects by it. */
  method SortByPrice(processedData: seq<Dict>) returns (sortedData: seq<Dict>)
    ensures Entries(sortedData) == SortDesc(Entries(processedData), Price)
    ensures multiset(sortedData) == multiset(processedData)
  {
    var prices := map d | d in processedData :: Price(d.entries);
    var key := (d: Dict) => if d in prices then prices[d] else 0;
    sortedData := SortDesc(processedData, key);
    assert multiset(sortedData) == multiset(processedData);
    ghost var contents := map d | d in processedData :: d.entries;
    ghost var contentsOf := (d: Dict) => if d in contents then contents[d] else map[];
    forall i | 0 <= i < |processedData|
      ensures Price(contentsOf(processedData[i])) == key(processedData[i])
    {
      var d := processedData[i];
      assert contentsOf(d) == d.entries;
      assert key(d) == Price(d.entries);
    }
    SortDescMap(processedData, contentsOf, key, Price);
    forall i | 0 <= i < |processedData|
      ensures Entries(processedData)[i] == MapSeq(processedData, contentsOf)[i]
    {
      assert processedData[i] in contents;
    }
    assert Entries(processedData) == MapSeq(processedData, contentsOf);
    forall i | 0 <= i < |sortedData|
      ensures Entries(sortedData)[i] == MapSeq(sortedData, contentsOf)[i]
    {
      assert sortedData[i] in multiset(processedData);
      assert sortedData[i] in contents;
    }
    assert Entries(sortedData) == MapSeq(sortedData, contentsOf);
  }

  /** `process_data(data)`.  It has no `modifies` clause, so neither the list nor any
      of its dicts is changed; the dicts it returns are new ones. */
  method ProcessData(data: seq<Dict>) returns (sortedData: seq<Dict>)
    requires forall i :: 0 <= i < |data| ==> Priced(data[i].entries)
    ensures Entries(sortedData) == Processed(Entries(data))
    ensures forall i :: 0 <= i < |sortedData| ==> fresh(sortedData[i])
    ensures Distinct(sortedData)
  {
    var filteredData := ExpensiveDicts(data);
    var processedData := AddDiscounts(filteredData);
    sortedData := SortByPrice(processedData);
    forall i | 0 <= i < |sortedData|
      ensures fresh(sortedData[i])
    {
      assert sortedData[i] in multiset(processedData);
    }
    PermutationDistinct(processedData, sortedData);
  }

  // ---------------------------------------------------------------------------
  // The module-level script

  const ProductA: Item := map["name" := Text("Product A"), "price" := Num(100), "category" := Text("electronics")]
  const ProductB: Item := map["name" := Text("Product B"), "price" := Num(50), "category" := Text("books")]
  const ProductC: Item := map["name" := Text("Product C"), "price" := Num(200), "category" := Text("electronics")]
  const RawData: seq<Item> := [ProductA, ProductB, ProductC]

  lemma RawPrices()
    ensures Price(ProductA) == 100 && Price(ProductB) == 50 && Price(ProductC) == 200
  {
    assert ProductA["price"] == Num(100);
    assert ProductB["price"] == Num(50);
    assert ProductC["price"] == Num(200);
  }

  lemma RawDataFiltered()
    ensures Filter(RawData, Expensive) == [ProductA, ProductC]
  {
    RawPrices();
    assert RawData[..2] == [ProductA, ProductB];
    assert RawData[..2][..1] == [ProductA];
    assert |[ProductA][..0]| == 0;
    assert Filter([ProductA], Expensive) == [ProductA];
    assert Filter(RawData[..2], Expensive) == [ProductA];
  }

  /** On `raw_data`, Product C (200) comes first, then Product A (100); Product B (50)
      is dropped. */
  lemma RawDataProcessed()
    ensures Processed(RawData) == [WithDiscount(ProductC), WithDiscount(ProductA)]
    ensures Processed(RawData)[0]["name"] == Text("Product C") && Processed(RawData)[1]["name"] == Text("Product A")
  {
    RawPrices();
    RawDataFiltered();
    var a, c := WithDiscount(ProductA), WithDiscount(ProductC);
    assert MapSeq([ProductA, ProductC], WithDiscount) == [a, c];
    assert [a, c][1..] == [c];
    var justC: seq<Item> := [c];
    assert justC[1..] == [];
    assert SortDesc([c], Price) == [c];
    assert Price(a) < Price(c);
    assert Insert(a, [c], Price) == [c, a];
    assert a["name"] == ProductA["name"] == Text("Product A");
    assert c["name"] == ProductC["name"] == Text("Product C");
  }

  /** Lines 2-6 and 26-29: build `raw_data`, process it, set the flag. */
  method Script() returns (dataProcessed: seq<Dict>, transformationApplied: bool)
    ensures Entries(dataProcessed) == [WithDiscount(ProductC), WithDiscount(ProductA)]
    ensures transformationApplied
  {
    var a := new Dict(ProductA);
    var b := new Dict(ProductB);
    var c := new Dict(ProductC);
    var rawData := [a, b, c];
    assert Entries(rawData) == RawData;
    RawPrices();
    dataProcessed := ProcessData(rawData);
    RawDataProcessed();
    transformationApplied := true;
  }
}
