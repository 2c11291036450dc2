/**
 * The paths `url_for` builds for the three endpoints the handlers link to,
 * from the route table of ecomsync/api.py: the blueprint prefix `/api`, then
 * the resource path with the integer id written as `str()` writes it.
 */
module Routes {
  import opened Text

  const ManufacturerCollectionUrl := "/api/manufacturer/"

  /** `url_for("api.ManufacturerItem", mid=id)`. */
  function ManufacturerItemUrl(id: int): string {
    "/api/manufacturer/" + DecimalString(id)
  }

  /** `url_for("api.ProductIndividualItem", id=id)`. */
  function ProductItemUrl(id: int): string {
    "/api/product/" + DecimalString(id)
  }

  /** Different products link to different paths. */
  lemma ProductItemUrlInjective(a: int, b: int)
    requires ProductItemUrl(a) == ProductItemUrl(b)
    ensures a == b
  {
    var p := "/api/product/";
    assert ProductItemUrl(a)[|p|..] == DecimalString(a);
    assert ProductItemUrl(b)[|p|..] == DecimalString(b);
    DecimalStringInjective(a, b);
  }

  /** Different manufacturers link to different paths, none of them the collection's. */
  lemma ManufacturerItemUrlInjective(a: int, b: int)
    requires ManufacturerItemUrl(a) == ManufacturerItemUrl(b)
    ensures a == b
    ensures ManufacturerItemUrl(a) != ManufacturerCollectionUrl
  {
    var p := "/api/manufacturer/";
    assert ManufacturerItemUrl(a)[|p|..] == DecimalString(a);
    assert ManufacturerItemUrl(b)[|p|..] == DecimalString(b);
    DecimalStringInjective(a, b);
    assert |ManufacturerItemUrl(a)| > |ManufacturerCollectionUrl|;
  }
}
