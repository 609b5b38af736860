/**
 * `SupplierService` (src/services/supplier.services.ts): the entity store
 * instantiated for suppliers and its seed.
 */
module SupplierService {
  import opened Wrappers
  import opened SupplierModel
  import opened EntityStore
  import Seqs

  /** `MOCK_SUPPLIERS`, the fallback seed: ids 1 and 2, each with a city. */
  function MockSuppliers(): (r: seq<Supplier>)
    ensures |r| == 2
    ensures forall i :: 0 <= i < |r| ==> r[i].id == i + 1 && r[i].city.Some?
  {
    [
      Supplier(1, "Tech Solutions Inc.", "John Smith", "john@techsolutions.com",
               Some("123 Tech Street"), Some("New York"), Some("+1-800-123-4567"), None),
      Supplier(2, "Global Supplies Ltd.", "Jane Doe", "jane@globalsupplies.com",
               Some("456 Supply Ave"), Some("Los Angeles"), Some("+1-800-987-6543"), None)
    ]
  }

  function SupplierId(s: Supplier): int { s.id }

  /** `{ ...supplier, id: n }`. */
  function WithSupplierId(s: Supplier, n: int): (r: Supplier)
    ensures r.id == n
    ensures r.(id := s.id) == s
  {
    s.(id := n)
  }

  /** The service as the injector builds it: seeded, then loaded once. */
  method NewSupplierService(load: Remote<seq<Supplier>>) returns (s: Store<Supplier>)
    ensures s.Valid() && s.idOf == SupplierId && s.withId == WithSupplierId
    ensures fresh(s) && fresh(s.fallback) && s.Fallback() == MockSuppliers()
    ensures load.Failed? ==> s.Aliased() && s.Cache() == MockSuppliers()
    ensures load.Succeeded? ==> !s.Aliased() && s.Cache() == load.value
  {
    s := new Store.Load(MockSuppliers(), load, SupplierId, WithSupplierId);
  }

  /** Against the seed (ids 1 and 2), the first fallback create assigns id 3. */
  lemma SeedNextIdIsThree()
    ensures NextId(MockSuppliers(), SupplierId) == 3
  {
    assert MockSuppliers()[1..][1..] == [];
    assert MaxId(MockSuppliers()[1..], SupplierId) == 2;
  }

  /**
   * With all REST calls failing: load, create, then look the new supplier
   * up. The fallback array grows by exactly the input with id 3, and
   * `getById(3)` finds it.
   */
  method FailedCreateThenGetById(sup: Supplier) returns (s: Store<Supplier>, r: Supplier, found: Option<Supplier>)
    ensures r == sup.(id := 3)
    ensures s.Fallback() == MockSuppliers() + [r]
    ensures found == Some(r)
  {
    s := NewSupplierService(Failed);
    SeedNextIdIsThree();
    r := s.Create(sup, Failed);
    FindAppendedFresh(MockSuppliers(), SupplierId, r);
    found := s.GetById(3, Failed);
  }

  /** With all REST calls failing, deleting an id that is not there changes neither array's contents. */
  method FailedDeleteOfAbsentId() returns (s: Store<Supplier>)
    ensures s.Fallback() == MockSuppliers()
    ensures s.Cache() == MockSuppliers()
  {
    s := NewSupplierService(Failed);
    assert !HasId(MockSuppliers(), SupplierId, 7);
    s.Delete(7, Failed);
    assert Seqs.Filter(x => SupplierId(x) != 7, MockSuppliers()) == MockSuppliers() by {
      Seqs.FilterKeepsAll(x => SupplierId(x) != 7, MockSuppliers());
    }
  }
}
