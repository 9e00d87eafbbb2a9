/** The fruit price table as a value, and the meaning of the five store
    operations on it.

    The server keeps one table from lower-cased fruit name to price per
    kilogram. `Add`, `Update`, `Delete` and `Lookup` below say what one
    operation does to a table and what it answers; the engine's methods in
    module ComputeEngine are proved to do exactly this to their map field.
    The lemmas state the laws callers rely on: which answer each operation
    gives, what a later lookup sees, and that nothing else changes. */
module Store {
  import opened Names

  datatype Option<T> = None | Some(value: T)

  /** A price per kilogram (a Java double, modelled as an exact real). */
  type Price = real

  type Table = map<string, Price>

  /** Every stored key is its own lower-cased form. */
  ghost predicate Normalised(t: Table) {
    forall k :: k in t ==> ToLower(k) == k
  }

  /** Every stored price is strictly positive. */
  ghost predicate AllPositive(t: Table) {
    forall k :: k in t ==> t[k] > 0.0
  }

  /** The four fruits the table holds when the server starts. */
  const Seed: Table := map["apple" := 2.50, "banana" := 1.20, "orange" := 3.00, "mango" := 4.50]

  lemma SeedWellFormed()
    ensures Normalised(Seed) && AllPositive(Seed)
    ensures Seed.Keys == {"apple", "banana", "orange", "mango"}
  {
    assert Seed.Keys == {"apple", "banana", "orange", "mango"};
    assert ToLower("apple") == "apple" by { ToLowerOfLowercase("apple"); }
    assert ToLower("banana") == "banana" by { ToLowerOfLowercase("banana"); }
    assert ToLower("orange") == "orange" by { ToLowerOfLowercase("orange"); }
    assert ToLower("mango") == "mango" by { ToLowerOfLowercase("mango"); }
  }

  /** `getFruitPrice`: the price stored under the lower-cased name, if any. */
  function Lookup(t: Table, name: string): Option<Price> {
    var key := ToLower(name);
    if key in t then Some(t[key]) else None
  }

  /** `addFruit`: inserts only when the lower-cased name is not yet a key. */
  function Add(t: Table, name: string, price: Price): (bool, Table) {
    var key := ToLower(name);
    if key in t then (false, t) else (true, t[key := price])
  }

  /** `updateFruit`: overwrites only when the lower-cased name is a key. */
  function Update(t: Table, name: string, price: Price): (bool, Table) {
    var key := ToLower(name);
    if key !in t then (false, t) else (true, t[key := price])
  }

  /** `deleteFruit`: removes the lower-cased name and reports whether it was there. */
  function Delete(t: Table, name: string): (bool, Table) {
    var key := ToLower(name);
    (key in t, t - {key})
  }

  /** Names that lower-case alike address the same entry. */
  lemma LookupCaseInsensitive(t: Table, a: string, b: string)
    requires ToLower(a) == ToLower(b)
    ensures Lookup(t, a) == Lookup(t, b)
  {
  }

  /** In a normalised table every entry is found under its own key. */
  lemma StoredKeysReachable(t: Table, k: string)
    requires Normalised(t) && k in t
    ensures Lookup(t, k) == Some(t[k])
  {
  }

  /** Add succeeds exactly when the name is unknown; afterwards a lookup
      under any spelling of that name sees the new price if the add
      succeeded, and every other lookup is as before. */
  lemma LookupAfterAdd(t: Table, name: string, price: Price, other: string)
    ensures Add(t, name, price).0 <==> Lookup(t, name) == None
    ensures Lookup(Add(t, name, price).1, other) ==
      if Add(t, name, price).0 && ToLower(other) == ToLower(name) then Some(price) else Lookup(t, other)
  {
  }

  /** A second add of the same name fails and the first price is kept. */
  lemma AddTwiceKeepsFirst(t: Table, name: string, again: string, p1: Price, p2: Price)
    requires Lookup(t, name) == None
    requires ToLower(again) == ToLower(name)
    ensures Add(t, name, p1).0
    ensures Add(Add(t, name, p1).1, again, p2) == (false, Add(t, name, p1).1)
    ensures Lookup(Add(Add(t, name, p1).1, again, p2).1, name) == Some(p1)
  {
  }

  /** Update succeeds exactly when the name is known; afterwards a lookup
      under any spelling of that name sees the new price if it succeeded,
      and every other lookup is as before. */
  lemma LookupAfterUpdate(t: Table, name: string, price: Price, other: string)
    ensures Update(t, name, price).0 <==> Lookup(t, name).Some?
    ensures Lookup(Update(t, name, price).1, other) ==
      if Update(t, name, price).0 && ToLower(other) == ToLower(name) then Some(price) else Lookup(t, other)
  {
  }

  /** Update never adds or removes a fruit, and an update of an unknown
      fruit leaves the table as it was. */
  lemma UpdateKeepsKeys(t: Table, name: string, price: Price)
    ensures Update(t, name, price).1.Keys == t.Keys
    ensures !Update(t, name, price).0 ==> Update(t, name, price).1 == t
  {
  }

  /** Delete reports whether the name was known; afterwards no spelling of
      that name is found and every other lookup is as before. */
  lemma LookupAfterDelete(t: Table, name: string, other: string)
    ensures Delete(t, name).0 <==> Lookup(t, name).Some?
    ensures Lookup(Delete(t, name).1, other) ==
      if ToLower(other) == ToLower(name) then None else Lookup(t, other)
  {
  }

  /** Delete removes exactly one key and keeps every other entry. */
  lemma DeleteRemovesOnlyThatKey(t: Table, name: string)
    ensures Delete(t, name).1.Keys == t.Keys - {ToLower(name)}
    ensures forall k :: k in Delete(t, name).1 ==> Delete(t, name).1[k] == t[k]
  {
  }

  /** A second consecutive delete of the same name reports false. */
  lemma DeleteTwiceFails(t: Table, name: string, again: string)
    requires ToLower(again) == ToLower(name)
    ensures !Delete(Delete(t, name).1, again).0
    ensures Delete(Delete(t, name).1, again).1 == Delete(t, name).1
  {
  }

  /** Every mutation stores keys in lower-cased form only. */
  lemma MutationsKeepNormalised(t: Table, name: string, price: Price)
    requires Normalised(t)
    ensures Normalised(Add(t, name, price).1)
    ensures Normalised(Update(t, name, price).1)
    ensures Normalised(Delete(t, name).1)
  {
    ToLowerIdempotent(name);
  }

  /** The store itself does not check prices. From a table whose prices
      are all positive, a delete keeps them positive, and an add or update
      does exactly when it writes nothing or writes a positive price. */
  lemma MutationsKeepPositive(t: Table, name: string, price: Price)
    requires AllPositive(t)
    ensures AllPositive(Add(t, name, price).1) <==> !Add(t, name, price).0 || price > 0.0
    ensures AllPositive(Update(t, name, price).1) <==> !Update(t, name, price).0 || price > 0.0
    ensures AllPositive(Delete(t, name).1)
  {
    var key := ToLower(name);
    if Add(t, name, price).0 {
      assert Add(t, name, price).1[key] == price;
    }
    if Update(t, name, price).0 {
      assert Update(t, name, price).1[key] == price;
    }
  }
}
