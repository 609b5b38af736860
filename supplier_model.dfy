/**
 * The `Supplier` record and its `SupplierDetail` class
 * (src/models/supplier.model.ts).
 */
module SupplierModel {
  import opened Wrappers

  datatype Supplier = Supplier(
    id: int,
    name: string,
    contact: string,
    email: string,
    address: Option<string>,
    city: Option<string>,
    phone: Option<string>,
    createdAt: Option<string>)

  /** `SupplierDetail`: a supplier object with a display name. Its fields are never reassigned. */
  class SupplierDetail {
    const id: int
    const name: string
    const contact: string
    const email: string
    const address: Option<string>
    const city: Option<string>
    const phone: Option<string>
    const createdAt: Option<string>

    /** `Object.assign(this, supplier)`: every field is copied from `s`. */
    constructor (s: Supplier)
      ensures AsSupplier() == s
    {
      id := s.id;
      name := s.name;
      contact := s.contact;
      email := s.email;
      address := s.address;
      city := s.city;
      phone := s.phone;
      createdAt := s.createdAt;
    }

    /** The record this object was built from. */
    function AsSupplier(): Supplier {
      Supplier(id, name, contact, email, address, city, phone, createdAt)
    }

    /** `this.city || 'Unknown'`: an absent or empty city is falsy. */
    function CityOrUnknown(): (r: string)
      ensures r != ""
      ensures city.Some? && city.value != "" ==> r == city.value
      ensures city.None? || city.value == "" ==> r == "Unknown"
    {
      if city.Some? && city.value != "" then city.value else "Unknown"
    }

    /** `${name} (${city || 'Unknown'})`. */
    function GetDisplayName(): (r: string)
      ensures |r| == |name| + |CityOrUnknown()| + 3
      ensures name <= r && r[|r| - 1] == ')'
      ensures r[|name|..|name| + 2] == " ("
      ensures r[|name| + 2..|r| - 1] == CityOrUnknown()
    {
      name + " (" + CityOrUnknown() + ")"
    }
  }
}
