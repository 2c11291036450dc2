/**
 * `ProductConverter` and `ManufacturerConverter` (ecomsync/utils.py): a
 * path segment becomes the record with that id, or NotFound; a record
 * becomes the decimal text of its id.
 */
module Converters {
  import opened Wrappers
  import opened Text
  import opened Models
  import opened Tables

  datatype Lookup<T> = Found(record: T) | NotFound

  /** `ProductConverter.to_python`. */
  function ProductToPython(products: seq<Product>, segment: string): (r: Lookup<Product>)
    ensures r.Found? ==> r.record in products && ParseInteger(segment) == Some(r.record.productId)
    ensures r.NotFound? <==>
      ParseInteger(segment).None? || forall i :: 0 <= i < |products| ==> Some(products[i].productId) != ParseInteger(segment)
  {
    match ParseInteger(segment)
    case None => NotFound
    case Some(id) =>
      match IndexOf(products, ProductKey, id)
      case Some(i) => Found(products[i])
      case None => NotFound
  }

  /** `ProductConverter.to_url`. */
  function ProductToUrl(p: Product): (s: string)
    ensures ParseInteger(s) == Some(p.productId)
  {
    DecimalRoundTrip(p.productId);
    DecimalString(p.productId)
  }

  /** `to_url` then `to_python` gives back the stored product. */
  lemma ProductConverterRoundTrip(products: seq<Product>, i: nat)
    requires Ascending(products, ProductKey) && i < |products|
    ensures ProductToPython(products, ProductToUrl(products[i])) == Found(products[i])
  {
    IndexOfUnique(products, ProductKey, i);
  }

  /** `ManufacturerConverter.to_python`. */
  function ManufacturerToPython(manufacturers: seq<Manufacturer>, segment: string): (r: Lookup<Manufacturer>)
    ensures r.Found? ==> r.record in manufacturers && ParseInteger(segment) == Some(r.record.manufacturerId)
    ensures r.NotFound? <==>
      ParseInteger(segment).None? || forall i :: 0 <= i < |manufacturers| ==> Some(manufacturers[i].manufacturerId) != ParseInteger(segment)
  {
    match ParseInteger(segment)
    case None => NotFound
    case Some(id) =>
      match IndexOf(manufacturers, ManufacturerKey, id)
      case Some(i) => Found(manufacturers[i])
      case None => NotFound
  }

  /** `ManufacturerConverter.to_url`. */
  function ManufacturerToUrl(m: Manufacturer): (s: string)
    ensures ParseInteger(s) == Some(m.manufacturerId)
  {
    DecimalRoundTrip(m.manufacturerId);
    DecimalString(m.manufacturerId)
  }

  /** `to_url` then `to_python` gives back the stored manufacturer. */
  lemma ManufacturerConverterRoundTrip(manufacturers: seq<Manufacturer>, i: nat)
    requires Ascending(manufacturers, ManufacturerKey) && i < |manufacturers|
    ensures ManufacturerToPython(manufacturers, ManufacturerToUrl(manufacturers[i])) == Found(manufacturers[i])
  {
    IndexOfUnique(manufacturers, ManufacturerKey, i);
  }
}
