/** Callers of the engine: the test client that submits three tasks to a
    freshly started server, and a caller that keeps a snapshot of the table
    while it goes on changing the table. */
module Client {
  import opened Names
  import opened Store
  import opened Receipts
  import opened ComputeEngine

  /** The test client's session against a fresh server: adding "grape" at
      5.00 succeeds, 2.5 kg of apples at 2.50 cost 6.25, and updating
      "banana" to 1.50 succeeds. */
  method TestClient(now: Timestamp) returns (added: bool, cost: real, updated: bool)
    ensures added && cost == 6.25 && updated
  {
    var engine := new FruitComputeEngine();
    ToLowerOfLowercase("grape");
    ToLowerOfLowercase("apple");
    ToLowerOfLowercase("banana");
    SeedWellFormed();
    ghost var t1 := Seed["grape" := 5.00];
    assert Add(Seed, "grape", 5.00) == (true, t1);
    var r1 := engine.ExecuteTask(AddFruitPrice("grape", 5.00), now);
    added := r1.flag;
    assert Lookup(t1, "apple") == Some(2.50);
    var r2 := engine.ExecuteTask(CalFruitCost("apple", 2.5), now);
    cost := r2.amount;
    assert "banana" in t1;
    var r3 := engine.ExecuteTask(UpdateFruitPrice("banana", 1.50), now);
    updated := r3.flag;
  }

  /** A snapshot is a copy: adding, updating and deleting `name` afterwards
      leave the snapshot equal to the table as it was when it was taken. */
  method SnapshotIsolation(engine: FruitComputeEngine, name: string, price: Price) returns (snapshot: Table)
    requires engine.Valid()
    modifies engine
    ensures engine.Valid()
    ensures snapshot == old(engine.fruitPriceTable)
    ensures ToLower(name) !in engine.fruitPriceTable
  {
    snapshot := engine.GetAllFruits();
    var _ := engine.AddFruit(name, price);
    var _ := engine.UpdateFruit(name, price + 1.0);
    var _ := engine.DeleteFruit(name);
  }

  /** Against the seed table, a request for 2 kg of apples and 1 kg of kiwi
      paid with 10.00 yields one line (the kiwi is skipped), a total of
      5.00 and change of 5.00. */
  lemma ReceiptSkipsUnknownFruit(now: Timestamp)
    ensures BuildReceipt(Seed, [("apple", 2.0), ("kiwi", 1.0)], 10.0, "Alice", now) ==
      Receipt([LineItem("apple", 2.0, 2.50, 5.0)], 5.0, 10.0, 5.0, "Alice", now)
  {
    ToLowerOfLowercase("apple");
    ToLowerOfLowercase("kiwi");
    SeedWellFormed();
    var q: seq<Entry> := [("apple", 2.0), ("kiwi", 1.0)];
    assert q[..1] == [("apple", 2.0)] && q[..1][..0] == [];
    assert Lookup(Seed, "kiwi") == None;
    assert Lookup(Seed, "apple") == Some(2.50);
    var item := Item(Seed, ("apple", 2.0));
    assert item.Some? && item.value == LineItem("apple", 2.0, 2.50, 5.0);
    assert Lines(Seed, q[..1]) == [LineItem("apple", 2.0, 2.50, 5.0)];
    assert Lines(Seed, q) == [LineItem("apple", 2.0, 2.50, 5.0)];
    assert Total(Seed, q) == 5.0;
  }
}
