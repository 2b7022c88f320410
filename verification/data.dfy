/** The result store of data/links.go: numbered batches of URL statuses. */
module Data {

  /** The two status strings written into every result batch. */
  const AvailableStatus: string := "available"
  const NotAvailableStatus: string := "not available"

  /** A result batch: URL to status. */
  type Batch = map<string, string>

  /** `Storage`: the stored batches and the counter that numbers the next one.
      Go keeps a single instance of it in a package variable; here the instance
      is passed to whoever uses it. The read/write mutex is not modelled: each
      operation is atomic. */
  class Storage {
    var data: map<int, Batch>
    var nextID: int

    /** The stored ids are exactly 1 .. nextID-1: every id is below the counter,
        none is skipped, and no id is handed out twice. */
    ghost predicate Valid()
      reads this
    {
      1 <= nextID && forall id :: id in data <==> 1 <= id < nextID
    }

    /** The package-level initial store: no batches, counter at 1. */
    constructor ()
      ensures Valid()
      ensures data == map[] && nextID == 1
    {
      data := map[];
      nextID := 1;
    }

    /** Stores `results` under the current counter value, which it returns,
        and advances the counter by one. */
    method SaveResults(results: Batch) returns (id: int)
      requires Valid()
      modifies this
      ensures Valid()
      ensures id == old(nextID) && nextID == old(nextID) + 1
      ensures id !in old(data)
      ensures data == old(data)[id := results]
    {
      id := nextID;
      data := data[id := results];
      nextID := nextID + 1;
    }

    /** Read-only lookup: the batch stored under `id` and whether there was one;
        Go yields a nil map, here the empty map, when there is none. */
    method GetResults(id: int) returns (results: Batch, found: bool)
      ensures found <==> id in data
      ensures found ==> results == data[id]
      ensures !found ==> results == map[]
    {
      if id in data {
        results, found := data[id], true;
      } else {
        results, found := map[], false;
      }
    }
  }

  /** Two saves followed by two lookups, as a caller of the store sees them:
      the ids are consecutive, each lookup finds the batch saved under it,
      and the store gains exactly those two entries. */
  method SaveTwiceThenGet(store: Storage, first: Batch, second: Batch)
    returns (id1: int, id2: int, got1: Batch, found1: bool, got2: Batch, found2: bool)
    requires store.Valid()
    modifies store
    ensures store.Valid()
    ensures id1 == old(store.nextID) && id2 == id1 + 1
    ensures found1 && got1 == first && found2 && got2 == second
    ensures store.nextID == old(store.nextID) + 2
    ensures store.data == old(store.data)[id1 := first][id2 := second]
  {
    id1 := store.SaveResults(first);
    id2 := store.SaveResults(second);
    got1, found1 := store.GetResults(id1);
    got2, found2 := store.GetResults(id2);
  }
}
