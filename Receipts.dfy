/** Costing against the price table: the single-fruit cost with its "not
    found" sentinel, and the receipt for a list of (name, quantity) entries.

    A receipt lists, in the order the entries are given, one line for each
    entry whose name has a price, and totals price times quantity over those
    lines only; entries whose name has no price are skipped without a
    trace. Change is the amount paid minus the total and is never clamped. */
module Receipts {
  import opened Names
  import opened Store

  /** The clock reading stamped on a receipt, supplied by the caller. */
  type Timestamp = int

  /** One receipt line: the name as the customer gave it, the quantity in
      kilograms, the unit price found and their product. */
  datatype LineItem = LineItem(fruitName: string, quantity: real, pricePerKg: Price, cost: real)

  datatype Receipt = Receipt(
    items: seq<LineItem>,
    totalCost: real,
    amountPaid: real,
    change: real,
    cashier: string,
    timestamp: Timestamp)

  /** One (fruit name, quantity) entry of a receipt request. */
  type Entry = (string, real)

  /** What `CalFruitCost` answers for a fruit that has no price. */
  const NotFound: real := -1.0

  /** `CalFruitCost.execute`: price times quantity, or the sentinel. */
  function FruitCost(t: Table, name: string, quantity: real): real {
    match Lookup(t, name)
    case None => NotFound
    case Some(price) => price * quantity
  }

  /** While every stored price is positive, the sentinel is unambiguous for a
      positive quantity: the answer is -1.0 exactly when the fruit is
      missing, and otherwise it is the positive cost price * quantity. */
  lemma SentinelUnambiguous(t: Table, name: string, quantity: real)
    requires AllPositive(t) && quantity > 0.0
    ensures FruitCost(t, name, quantity) == NotFound <==> Lookup(t, name) == None
    ensures Lookup(t, name).Some? ==>
      FruitCost(t, name, quantity) == Lookup(t, name).value * quantity > 0.0
  {
    if Lookup(t, name).Some? {
      var price := Lookup(t, name).value;
      assert price > 0.0;
      assert price * quantity > 0.0;
    }
  }

  /** The store accepts any price, so without the caller's validation the
      sentinel is ambiguous: a stored price of -0.5 at quantity 2 costs -1.0. */
  lemma SentinelAmbiguousWithoutValidation()
    ensures Lookup(map["kiwi" := -0.5], "kiwi") == Some(-0.5)
    ensures FruitCost(map["kiwi" := -0.5], "kiwi", 2.0) == NotFound
  {
    ToLowerOfLowercase("kiwi");
  }

  /** The `Receipt` constructor: it keeps what it is given and derives the
      change, so that total cost plus change is exactly the amount paid;
      change is negative exactly when the payment falls short. */
  function MakeReceipt(items: seq<LineItem>, totalCost: real, amountPaid: real, cashier: string, timestamp: Timestamp): (r: Receipt)
    ensures r.items == items && r.totalCost == totalCost && r.amountPaid == amountPaid
    ensures r.cashier == cashier && r.timestamp == timestamp
    ensures r.totalCost + r.change == r.amountPaid
    ensures r.change < 0.0 <==> amountPaid < totalCost
  {
    Receipt(items, totalCost, amountPaid, amountPaid - totalCost, cashier, timestamp)
  }

  /** The line an entry contributes, if its name has a price. */
  function Item(t: Table, e: Entry): Option<LineItem> {
    var (name, quantity) := e;
    match Lookup(t, name)
    case None => None
    case Some(price) => Some(LineItem(name, quantity, price, price * quantity))
  }

  /** The entries whose name has a price, in the order given. */
  function Found(t: Table, q: seq<Entry>): seq<Entry> {
    if q == [] then []
    else if Lookup(t, q[|q| - 1].0).Some? then Found(t, q[..|q| - 1]) + [q[|q| - 1]]
    else Found(t, q[..|q| - 1])
  }

  /** The receipt lines for the entries, in the order given. */
  function Lines(t: Table, q: seq<Entry>): seq<LineItem> {
    if q == [] then []
    else
      match Item(t, q[|q| - 1])
      case None => Lines(t, q[..|q| - 1])
      case Some(line) => Lines(t, q[..|q| - 1]) + [line]
  }

  /** The sum of price * quantity over the entries whose name has a price. */
  function Total(t: Table, q: seq<Entry>): real {
    if q == [] then 0.0
    else
      match Lookup(t, q[|q| - 1].0)
      case None => Total(t, q[..|q| - 1])
      case Some(price) => Total(t, q[..|q| - 1]) + price * q[|q| - 1].1
  }

  /** The sum of the costs printed on a list of lines. */
  function SumCosts(items: seq<LineItem>): real {
    if items == [] then 0.0 else SumCosts(items[..|items| - 1]) + items[|items| - 1].cost
  }

  /** The receipt `CalculateCost` issues for the entries against table t. */
  function BuildReceipt(t: Table, q: seq<Entry>, amountPaid: real, cashier: string, now: Timestamp): Receipt {
    MakeReceipt(Lines(t, q), Total(t, q), amountPaid, cashier, now)
  }

  /** An entry is kept by `Found` exactly when it is one of the entries and
      its name has a price. */
  lemma {:induction false} FoundCharacterised(t: Table, q: seq<Entry>)
    ensures forall e :: e in Found(t, q) <==> e in q && Lookup(t, e.0).Some?
  {
    if q != [] {
      FoundCharacterised(t, q[..|q| - 1]);
      assert q == q[..|q| - 1] + [q[|q| - 1]];
    }
  }

  /** There is one line per found entry, in the same order, carrying that
      entry's name and quantity, its price and price * quantity. */
  lemma {:induction false} LinesFollowFound(t: Table, q: seq<Entry>)
    ensures |Lines(t, q)| == |Found(t, q)|
    ensures forall i :: 0 <= i < |Found(t, q)| ==> Item(t, Found(t, q)[i]) == Some(Lines(t, q)[i])
  {
    if q != [] {
      LinesFollowFound(t, q[..|q| - 1]);
    }
  }

  /** The total is the sum of the costs on the receipt's own lines. */
  lemma {:induction false} TotalIsSumOfLineCosts(t: Table, q: seq<Entry>)
    ensures Total(t, q) == SumCosts(Lines(t, q))
  {
    if q != [] {
      var init, last := q[..|q| - 1], q[|q| - 1];
      TotalIsSumOfLineCosts(t, init);
      match Item(t, last)
      case None =>
      case Some(line) =>
        assert (Lines(t, init) + [line])[..|Lines(t, init)|] == Lines(t, init);
    }
  }

  /** Lines, found entries and total of two request parts taken together are
      those of the parts, in order. */
  lemma {:induction false} ReceiptAppend(t: Table, a: seq<Entry>, b: seq<Entry>)
    ensures Lines(t, a + b) == Lines(t, a) + Lines(t, b)
    ensures Found(t, a + b) == Found(t, a) + Found(t, b)
    ensures Total(t, a + b) == Total(t, a) + Total(t, b)
  {
    if b == [] {
      assert a + b == a;
    } else {
      ReceiptAppend(t, a, b[..|b| - 1]);
      assert (a + b)[..|a + b| - 1] == a + b[..|b| - 1];
    }
  }

  /** An entry whose name has no price, wherever it stands, adds no line,
      is not among the found entries and adds nothing to the total. */
  lemma MissingEntryIgnored(t: Table, a: seq<Entry>, e: Entry, b: seq<Entry>)
    requires Lookup(t, e.0) == None
    ensures Lines(t, a + [e] + b) == Lines(t, a + b)
    ensures Found(t, a + [e] + b) == Found(t, a + b)
    ensures Total(t, a + [e] + b) == Total(t, a + b)
  {
    ReceiptAppend(t, a, [e]);
    ReceiptAppend(t, a + [e], b);
    ReceiptAppend(t, a, b);
    assert Lines(t, [e]) == [] && Found(t, [e]) == [] && Total(t, [e]) == 0.0 by {
      assert [e][..0] == [];
    }
  }

  /** With positive prices and non-negative quantities the total is never
      negative, so the change never exceeds the amount paid. */
  lemma {:induction false} TotalNonNegative(t: Table, q: seq<Entry>)
    requires AllPositive(t)
    requires forall i :: 0 <= i < |q| ==> q[i].1 >= 0.0
    ensures Total(t, q) >= 0.0
  {
    if q != [] {
      TotalNonNegative(t, q[..|q| - 1]);
      match Lookup(t, q[|q| - 1].0)
      case None =>
      case Some(price) =>
        assert price > 0.0;
        assert price * q[|q| - 1].1 >= 0.0;
    }
  }
}
