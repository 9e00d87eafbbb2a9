# Fruit price compute engine — a Dafny model

This project models the server core of a fruit-shop price service. Remote
callers submit a *task* to one entry point, `executeTask`. The server runs
the task against one in-memory price table, which maps a lower-cased fruit
name to a price per kilogram. It then returns the task's result.

There are five tasks:

- add a fruit;
- update its price;
- delete it;
- cost a quantity of one fruit (answering the sentinel `-1.0` when the fruit is unknown);
- build a receipt for a list of (fruit, quantity) entries.

A receipt has one line per entry whose fruit has a price, in the order the
entries are given. Its total is the sum of price × quantity over those lines
only, and its change is the amount paid minus that total, never clamped.
Entries for unknown fruits are skipped without a trace.

Modules:

- `Names` (Names.dfy): lower-casing of names (`ToLower`) and the
  "not blank after trimming" test that the HTTP layer applies.
- `Store` (Store.dfy): the table as a value, the seed, and the four store
  operations as functions (`Lookup`, `Add`, `Update`, `Delete`), with the
  laws relating them.
- `Receipts` (Receipts.dfy): the single-fruit cost with its sentinel, the
  `Receipt` constructor, and the receipt as functions of the table and the
  entries (`Found`, `Lines`, `Total`), with the laws about them.
- `ComputeEngine` (ComputeEngine.dfy): the class `FruitComputeEngine`. It
  holds the server's one table in a `map` field that its methods update in place, and
  each method is proved to change the table exactly as the matching `Store`
  function says. It also holds the closed `Task` datatype, whose `Execute`
  is the dispatch, proved equal to the pure `Task.Run`, and the receipt
  loop `GenerateReceipt`, proved equal to the pure `BuildReceipt`.
- `Client` (Client.dfy): the source's test client session, a snapshot
  taken before later mutations, and a worked receipt example.

Prices, quantities and amounts are Java `double`s in the source. Here they
are exact `real`s. The receipt's clock reading is a parameter (`now`).

## Model

| member | source | states |
|---|---|---|
| `Names.ToLower` | code.java:141 | the key form of a name has the same length, lowers each character and leaves no capital letter |
| `Names.ToLowerIdempotent` | code.java:141-161 | lower-casing a lower-cased name changes nothing, so a stored key is found again under its own name |
| `Names.ToLowerOfLowercase` | code.java:123-126 | a name without capitals (such as each seed fruit) is already its own key |
| `Store.SeedWellFormed` | code.java:122-127 | the seed table holds exactly apple, banana, orange and mango, with lower-cased keys and positive prices |
| `Store.LookupCaseInsensitive` | code.java:160-162 | two names that lower-case alike get the same lookup answer |
| `Store.StoredKeysReachable` | code.java:141-161 | in a table with lower-cased keys, every entry is found under its own key |
| `Store.LookupAfterAdd` | code.java:140-146 | add succeeds exactly when the name is unknown; afterwards every spelling of the name sees the new price if it succeeded, and every other lookup is unchanged |
| `Store.AddTwiceKeepsFirst` | code.java:140-146 | a second add of the same name (any spelling) returns false, leaves the table as it is and keeps the first price |
| `Store.LookupAfterUpdate` | code.java:148-154 | update succeeds exactly when the name is known; afterwards every spelling of the name sees the new price if it succeeded, and every other lookup is unchanged |
| `Store.UpdateKeepsKeys` | code.java:148-154 | update never changes the key set, and a failed update leaves the table unchanged |
| `Store.LookupAfterDelete` | code.java:156-158 | delete returns true exactly when the name was known; afterwards no spelling of it is found, and every other lookup is unchanged |
| `Store.DeleteRemovesOnlyThatKey` | code.java:156-158 | delete removes exactly the lower-cased key and keeps every other entry with its price |
| `Store.DeleteTwiceFails` | code.java:156-158 | a second consecutive delete of the same name returns false and changes nothing |
| `Store.MutationsKeepNormalised` | code.java:140-158 | add, update and delete keep every stored key in lower-cased form |
| `Store.MutationsKeepPositive` | code.java:140-158 | the store itself does not check prices: from a table with all prices positive, delete keeps them positive, and add or update keeps them positive exactly when it fails or writes a positive price |
| `Receipts.SentinelUnambiguous` | code.java:260-268 | with positive prices and a positive quantity, the cost is -1.0 exactly when the fruit is missing, and otherwise it is the positive price × quantity |
| `Receipts.SentinelAmbiguousWithoutValidation` | code.java:260-268 | for a stored price that was never validated (-0.5 at quantity 2), a found fruit also costs -1.0 |
| `Receipts.MakeReceipt` | code.java:68-75 | the receipt keeps the items, total, payment, cashier and timestamp it is given; total plus change equals the amount paid, and change is negative exactly when the payment falls short |
| `Receipts.FoundCharacterised` | code.java:296-307 | an entry counts as found exactly when it is one of the request's entries and its name has a price |
| `Receipts.LinesFollowFound` | code.java:296-307 | one line per found entry, in request order, each carrying that entry's name, quantity, price and price × quantity |
| `Receipts.TotalIsSumOfLineCosts` | code.java:296-309 | the receipt total equals the sum of the costs on its own lines |
| `Receipts.ReceiptAppend` | code.java:296-307 | lines, found entries and total of a concatenated request are those of its parts, in order |
| `Receipts.MissingEntryIgnored` | code.java:299-306 | an entry with no price, at any position, adds no line, is not found and adds nothing to the total |
| `Receipts.TotalNonNegative` | code.java:299-303 | with positive prices and non-negative quantities the total is never negative |
| `ComputeEngine.Task.Execute` | code.java:204-310 | each task performs exactly its one store operation: its result and the new table are those `Task.Run` gives for the old table |
| `ComputeEngine.FruitComputeEngine.constructor` | code.java:119-127 | the engine the server creates starts with exactly the seed table, with lower-cased keys |
| `ComputeEngine.FruitComputeEngine.ExecuteTask` | code.java:134-137 | dispatch returns what the task's `Execute` returns and changes the table only as that task does |
| `ComputeEngine.FruitComputeEngine.AddFruit` | code.java:140-146 | returns true exactly when the lower-cased name was absent; the table then becomes the old one with that key set to the price, and otherwise it is unchanged |
| `ComputeEngine.FruitComputeEngine.UpdateFruit` | code.java:148-154 | returns true exactly when the lower-cased name was present; only that key's price changes, and the key set never changes |
| `ComputeEngine.FruitComputeEngine.DeleteFruit` | code.java:156-158 | returns true exactly when the lower-cased name was present; afterwards it is absent, and all other entries are kept |
| `ComputeEngine.FruitComputeEngine.GetFruitPrice` | code.java:160-162 | a price is found exactly when the lower-cased name is a key, and it is that key's price |
| `ComputeEngine.FruitComputeEngine.GetAllFruits` | code.java:164-166 | the snapshot equals the table at the time of the call |
| `ComputeEngine.GenerateReceipt` | code.java:290-310 | the loop's receipt is `BuildReceipt` of the table and the entries: the lines and total over found entries only, and change = paid − total; it does not modify the table |
| `ComputeEngine.ReadOnlyTasksKeepTable` | code.java:260-310 | the cost and receipt tasks never change the table |
| `ComputeEngine.RunKeepsNormalised` | code.java:134-158 | running any task keeps every stored key lower-cased |
| `ComputeEngine.ValidatedTasksKeepPricesPositive` | code.java:468-784 | if only tasks that pass the HTTP input checks (add at code.java:468-476, update at 548-556, delete at 609-612, cost at 700-708, receipt at 771-784) are run, all prices stay positive (over exact reals, so no NaN), and the cost task answers -1.0 exactly for a missing fruit |
| `Client.TestClient` | code.java:336-357 | against a fresh server, adding grape succeeds, 2.5 kg of apples cost 6.25, and updating banana succeeds |
| `Client.SnapshotIsolation` | code.java:164-166 | a snapshot taken before an add, an update and a delete still equals the table as it was when taken |
| `Client.ReceiptSkipsUnknownFruit` | code.java:290-310 | for 2 kg of apples and 1 kg of kiwi paid with 10.00, the receipt has one apple line, total 5.00 and change 5.00 |

## Left out

- Remote transport is not modelled: the `Compute` remote interface, `RemoteException`, exporting the engine, registry creation and binding in the server's `main` (code.java:169-186), and the client-side registry lookup (code.java:321-333). A transport failure is therefore never a task result here.
- The table is a `private static final` map in the source (code.java:119), filled once by the class's static block (code.java:122-127) and reached by every task through static calls, whatever engine dispatched it. Here this process-wide table is modelled as the `fruitPriceTable` field of one engine, filled by the constructor and handed to `Task.Execute`. The model therefore does not capture that two engine objects share one table: a second `new FruitComputeEngine()` here starts from the seed again. The server creates only one engine (code.java:169-186).
- Null is not representable. A fruit name is a `string` and a receipt entry is a `(string, real)` pair, so a null name (at code.java:141, 149, 157 or 161) and a null quantity (unboxed at code.java:298) cannot occur. In the source each throws `NullPointerException`, which RMI reports to the caller as a remote failure and the servlet as HTTP 500. The receipt servlet's checks (code.java:771-784) do not reject a null quantity.
- Concurrency is not modelled. `synchronized` and `ConcurrentHashMap` only serialise access, so the engine is one object used by one caller at a time.
- Console logging (`System.out.println` in `executeTask` and in every `execute`) is not modelled. It is output only.
- Receipt lines are a `LineItem(fruitName, quantity, pricePerKg, cost)` value, not the `String.format("%s: %.2fkg @ $%.2f/kg = $%.2f", …)` text. `Receipt.toString` is not modelled either. Both are float formatting.
- `LocalDateTime.now()` is a clock read. The timestamp is passed in as `now` and stored unchanged.
- IEEE-754 rounding of `price * quantity` and of the running `totalCost += cost` is not modelled. All arithmetic is exact. The receipt total therefore equals the exact sum; in Java that holds only up to rounding.
- `ComputeEngine.ValidatedTasksKeepPricesPositive`: holds only for doubles that are not NaN. Exact reals have no NaN and no infinities. The source's checks are written as rejections (`getPricePerKg() <= 0` at code.java:473 and 553, `getQuantity() <= 0` at 705, `getAmountPaid() < 0` at 781), and every comparison with NaN is false, so a NaN price, quantity or payment passes them. Gson's lenient parsing accepts a `NaN` literal, so `addFruit` or `updateFruit` can store a NaN price, and then not all stored prices are positive. `Task.Validated` writes the same checks as `price > 0.0`, `quantity > 0.0` and `paid >= 0.0`, which agree with the source on every real.
- `Names.ToLower`: does not model Java's full Unicode, locale-dependent `toLowerCase`. Only ASCII `A`–`Z` are lowered. Java also lowers other letters, and for a few characters changes the string's length.
- The receipt request is a `Map<String, Double>` in the source. It is modelled as a sequence of (name, quantity) entries in the map's iteration order. The model does not require distinct names, so it also covers a request where one fruit appears twice.
- The HTTP servlets, JSON (de)serialisation, the CORS filter, configuration files and the Android client are not modelled (code.java:373 onward). The only part kept is their input checks, as `Task.Validated`. It is a predicate, not a precondition, because `execute` itself accepts any input, as the test client shows.
- The generic `Task<T>` / `<T> T executeTask(Task<T>)` is modelled as the closed datatype `Task` with one result type, `TaskResult`, that has a case for each of the source's result types: `Boolean`, `Double` and `Receipt`. `getFruitPrice`'s `null` for a missing fruit is `None`.
- `FruitPrice` (code.java:28-51) is not modelled: nothing in the source uses it.
