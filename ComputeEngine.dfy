/** The compute engine: the price table, the closed set of tasks a remote
    caller can submit, and the dispatch that runs them.

    The table is process-wide in the server, and the server creates one
    engine; here that one table is the engine's field, and each task is
    handed the engine whose table it works on.

    `FruitComputeEngine` holds the table as a map field that its methods
    update in place; each method is proved to change the table exactly as
    the corresponding function of module Store says. A `Task` is a value;
    `Run` says what running it does (its result and the table afterwards),
    and `Execute`, the dispatch, is proved to do exactly that. */
module ComputeEngine {
  import opened Names
  import opened Store
  import opened Receipts

  /** What a task returns: the `Boolean` of the three mutating tasks, the
      `Double` of the cost lookup, or a `Receipt`. */
  datatype TaskResult =
    | BooleanResult(flag: bool)
    | DoubleResult(amount: real)
    | ReceiptResult(receipt: Receipt)

  datatype Task =
    | AddFruitPrice(fruitName: string, pricePerKg: Price)
    | UpdateFruitPrice(fruitName: string, pricePerKg: Price)
    | DeleteFruitPrice(fruitName: string)
    | CalFruitCost(fruitName: string, quantity: real)
    | CalculateCost(fruitQuantities: seq<Entry>, amountPaid: real, cashier: string)
  {
    /** The result of running this task on table t at time now, and the
        table it leaves behind. */
    function Run(t: Table, now: Timestamp): (TaskResult, Table) {
      match this
      case AddFruitPrice(name, price) =>
        var (ok, t') := Add(t, name, price); (BooleanResult(ok), t')
      case UpdateFruitPrice(name, price) =>
        var (ok, t') := Update(t, name, price); (BooleanResult(ok), t')
      case DeleteFruitPrice(name) =>
        var (ok, t') := Delete(t, name); (BooleanResult(ok), t')
      case CalFruitCost(name, quantity) =>
        (DoubleResult(FruitCost(t, name, quantity)), t)
      case CalculateCost(entries, paid, cashier) =>
        (ReceiptResult(BuildReceipt(t, entries, paid, cashier, now)), t)
    }

    /** The tasks that only read the table. */
    predicate ReadOnly() {
      CalFruitCost? || CalculateCost?
    }

    /** The input checks the HTTP layer makes before it builds each task:
        it rejects a blank name, a price or quantity <= 0, an empty request,
        a blank cashier and a payment < 0. */
    predicate Validated() {
      match this
      case AddFruitPrice(name, price) => NonBlank(name) && price > 0.0
      case UpdateFruitPrice(name, price) => NonBlank(name) && price > 0.0
      case DeleteFruitPrice(name) => NonBlank(name)
      case CalFruitCost(name, quantity) => NonBlank(name) && quantity > 0.0
      case CalculateCost(entries, paid, cashier) => entries != [] && NonBlank(cashier) && paid >= 0.0
    }

    /** `execute`: performs the task's one store operation on the engine. */
    method Execute(engine: FruitComputeEngine, now: Timestamp) returns (result: TaskResult)
      requires engine.Valid()
      modifies engine
      ensures engine.Valid()
      ensures (result, engine.fruitPriceTable) == Run(old(engine.fruitPriceTable), now)
    {
      match this
      case AddFruitPrice(name, price) =>
        var ok := engine.AddFruit(name, price);
        result := BooleanResult(ok);
      case UpdateFruitPrice(name, price) =>
        var ok := engine.UpdateFruit(name, price);
        result := BooleanResult(ok);
      case DeleteFruitPrice(name) =>
        var ok := engine.DeleteFruit(name);
        result := BooleanResult(ok);
      case CalFruitCost(name, quantity) =>
        var price := engine.GetFruitPrice(name);
        assert FruitCost(engine.fruitPriceTable, name, quantity) ==
          if price.None? then NotFound else price.value * quantity;
        if price.None? {
          result := DoubleResult(NotFound);
        } else {
          result := DoubleResult(price.value * quantity);
        }
      case CalculateCost(entries, paid, cashier) =>
        var receipt := GenerateReceipt(engine, entries, paid, cashier, now);
        result := ReceiptResult(receipt);
    }
  }

  class FruitComputeEngine {
    var fruitPriceTable: Table

    /** Keys are stored lower-cased only. */
    ghost predicate Valid()
      reads this
    {
      Normalised(fruitPriceTable)
    }

    /** The engine the server creates starts with the four seed fruits. */
    constructor ()
      ensures Valid() && fruitPriceTable == Seed
    {
      fruitPriceTable := map[];
      new;
      fruitPriceTable := fruitPriceTable["apple" := 2.50];
      fruitPriceTable := fruitPriceTable["banana" := 1.20];
      fruitPriceTable := fruitPriceTable["orange" := 3.00];
      fruitPriceTable := fruitPriceTable["mango" := 4.50];
      SeedWellFormed();
    }

    /** `executeTask`: hands the task to its own `Execute` and returns its result. */
    method ExecuteTask(task: Task, now: Timestamp) returns (result: TaskResult)
      requires Valid()
      modifies this
      ensures Valid()
      ensures (result, fruitPriceTable) == task.Run(old(fruitPriceTable), now)
    {
      result := task.Execute(this, now);
    }

    method AddFruit(name: string, price: Price) returns (added: bool)
      requires Valid()
      modifies this
      ensures Valid()
      ensures added <==> ToLower(name) !in old(fruitPriceTable)
      ensures (added, fruitPriceTable) == Add(old(fruitPriceTable), name, price)
    {
      var key := ToLower(name);
      if key in fruitPriceTable {
        return false;
      }
      MutationsKeepNormalised(fruitPriceTable, name, price);
      fruitPriceTable := fruitPriceTable[key := price];
      return true;
    }

    method UpdateFruit(name: string, price: Price) returns (updated: bool)
      requires Valid()
      modifies this
      ensures Valid()
      ensures updated <==> ToLower(name) in old(fruitPriceTable)
      ensures fruitPriceTable.Keys == old(fruitPriceTable).Keys
      ensures (updated, fruitPriceTable) == Update(old(fruitPriceTable), name, price)
    {
      var key := ToLower(name);
      if key !in fruitPriceTable {
        return false;
      }
      MutationsKeepNormalised(fruitPriceTable, name, price);
      fruitPriceTable := fruitPriceTable[key := price];
      return true;
    }

    method DeleteFruit(name: string) returns (deleted: bool)
      requires Valid()
      modifies this
      ensures Valid()
      ensures deleted <==> ToLower(name) in old(fruitPriceTable)
      ensures ToLower(name) !in fruitPriceTable
      ensures (deleted, fruitPriceTable) == Delete(old(fruitPriceTable), name)
    {
      var key := ToLower(name);
      deleted := key in fruitPriceTable;
      MutationsKeepNormalised(fruitPriceTable, name, 0.0);
      fruitPriceTable := fruitPriceTable - {key};
    }

    /** `getFruitPrice`: found exactly when the lower-cased name is a key,
        and then it is that key's price. */
    function GetFruitPrice(name: string): (price: Option<Price>)
      reads this
      ensures price.Some? <==> ToLower(name) in fruitPriceTable
      ensures price.Some? ==> price.value == fruitPriceTable[ToLower(name)]
    {
      Lookup(fruitPriceTable, name)
    }

    /** `getAllFruits`: a copy of the whole table as it is now. */
    method GetAllFruits() returns (snapshot: Table)
      ensures snapshot == fruitPriceTable
    {
      snapshot := fruitPriceTable;
    }
  }

  /** `CalculateCost.execute`: walks the entries in order, skips those whose
      name has no price, and for the others adds price * quantity to the
      running total and appends one line; the receipt is then built from
      the lines, the total and the payment. It only reads the table. */
  method GenerateReceipt(engine: FruitComputeEngine, fruitQuantities: seq<Entry>, amountPaid: real, cashier: string, now: Timestamp)
    returns (receipt: Receipt)
    ensures receipt == BuildReceipt(engine.fruitPriceTable, fruitQuantities, amountPaid, cashier, now)
  {
    var items: seq<LineItem> := [];
    var totalCost := 0.0;
    for i := 0 to |fruitQuantities|
      invariant items == Lines(engine.fruitPriceTable, fruitQuantities[..i])
      invariant totalCost == Total(engine.fruitPriceTable, fruitQuantities[..i])
    {
      var (fruitName, quantity) := fruitQuantities[i];
      var price := engine.GetFruitPrice(fruitName);
      ghost var item := Item(engine.fruitPriceTable, (fruitName, quantity));
      assert price.None? ==> item.None?;
      assert price.Some? ==> item.Some? && item.value == LineItem(fruitName, quantity, price.value, price.value * quantity);
      if price.Some? {
        var cost := price.value * quantity;
        totalCost := totalCost + cost;
        items := items + [LineItem(fruitName, quantity, price.value, cost)];
      }
      ghost var done := fruitQuantities[..i + 1];
      assert done[..i] == fruitQuantities[..i] && done[i] == (fruitName, quantity);
    }
    assert fruitQuantities[..|fruitQuantities|] == fruitQuantities;
    receipt := MakeReceipt(items, totalCost, amountPaid, cashier, now);
  }

  /** The two costing tasks never change the table. */
  lemma ReadOnlyTasksKeepTable(task: Task, t: Table, now: Timestamp)
    requires task.ReadOnly()
    ensures task.Run(t, now).1 == t
  {
  }

  /** Running any task keeps keys lower-cased. */
  lemma RunKeepsNormalised(task: Task, t: Table, now: Timestamp)
    requires Normalised(t)
    ensures Normalised(task.Run(t, now).1)
  {
    match task
    case AddFruitPrice(name, price) => MutationsKeepNormalised(t, name, price);
    case UpdateFruitPrice(name, price) => MutationsKeepNormalised(t, name, price);
    case DeleteFruitPrice(name) => MutationsKeepNormalised(t, name, 0.0);
    case CalFruitCost(_, _) =>
    case CalculateCost(_, _, _) =>
  }

  /** While only validated tasks reach the engine, every stored price stays
      positive, and then a cost lookup answers the sentinel exactly when
      the fruit is missing. */
  lemma ValidatedTasksKeepPricesPositive(task: Task, t: Table, now: Timestamp)
    requires task.Validated() && AllPositive(t)
    ensures AllPositive(task.Run(t, now).1)
    ensures task.CalFruitCost? ==>
      (task.Run(t, now).0 == DoubleResult(NotFound) <==> Lookup(t, task.fruitName) == None)
  {
    match task
    case AddFruitPrice(name, price) => MutationsKeepPositive(t, name, price);
    case UpdateFruitPrice(name, price) => MutationsKeepPositive(t, name, price);
    case DeleteFruitPrice(name) =>
    case CalFruitCost(name, quantity) => SentinelUnambiguous(t, name, quantity);
    case CalculateCost(_, _, _) =>
  }
}
