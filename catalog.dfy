/**
 * The product catalog (`PRODUCTS`) and the normalisation a typed product id
 * goes through before it is looked up.
 */
module Catalog {
  import opened Text

  /** One catalog entry: display name, unit price in UZS, largest orderable quantity, channel post to forward. */
  datatype Product = Product(name: string, price: nat, maxQuantity: nat, postId: nat)

  /**
   * The bot's catalog: four products keyed by id; nothing changes it. No id
   * holds `_`, and every product has a positive price and maximum quantity.
   */
  function Products(): (catalog: map<string, Product>)
    ensures catalog.Keys == {"MF1", "MF2", "MF3", "MF4"}
    ensures KeysSplitSafe(catalog) && Orderable(catalog)
  {
    var catalog := map[
      "MF1" := Product("Daraxt", 6000, 20, 454),
      "MF2" := Product("Daraxt", 4000, 10, 455),
      "MF3" := Product("Daraxt", 4000, 15, 456),
      "MF4" := Product("Daraxt", 5000, 10, 457)
    ];
    assert catalog.Keys == {"MF1", "MF2", "MF3", "MF4"};
    assert forall id :: id in catalog ==> id == "MF1" || id == "MF2" || id == "MF3" || id == "MF4";
    catalog
  }

  /** No product id holds the `_` that callback data is split on. */
  predicate KeysSplitSafe(catalog: map<string, Product>) {
    forall id :: id in catalog ==> '_' !in id
  }

  /** Every entry of the catalog has a positive price and a positive maximum. */
  predicate Orderable(catalog: map<string, Product>) {
    forall id :: id in catalog ==> catalog[id].price > 0 && catalog[id].maxQuantity > 0
  }

  /** Every id of the catalog is already normalised, so typing it exactly finds it. */
  lemma ProductsNormalised()
    ensures forall id :: id in Products() ==> NormalizeProductId(id) == id
  {
    forall id | id in Products()
      ensures NormalizeProductId(id) == id
    {
      assert id == "MF1" || id == "MF2" || id == "MF3" || id == "MF4";
      ProductIdShape(id);
    }
  }

  /** An id of the catalog's shape, `MF` and one digit, is free of `_` and already normalised. */
  lemma ProductIdShape(id: string)
    requires |id| == 3 && id[0] == 'M' && id[1] == 'F' && IsAsciiDigit(id[2])
    ensures '_' !in id
    ensures NormalizeProductId(id) == id
  {
    assert forall k :: 0 <= k < |id| ==> !IsLowerAscii(id[k]) && id[k] != '_';
    NormalizedIsFixed(id);
  }

  /**
   * `text.strip().upper()`: the text between the surrounding whitespace, with
   * every ASCII letter upper-cased; the result has no whitespace at either end
   * and no lower-case ASCII letter.
   */
  function NormalizeProductId(text: string): (id: string)
    ensures LeadingSpaces(text) + |id| <= |text|
    ensures forall k :: 0 <= k < |id| ==> id[k] == UpperChar(text[LeadingSpaces(text) + k])
    ensures forall k :: LeadingSpaces(text) + |id| <= k < |text| ==> IsSpace(text[k])
    ensures id == [] || (!IsSpace(id[0]) && !IsSpace(id[|id| - 1]))
    ensures forall k :: 0 <= k < |id| ==> !IsLowerAscii(id[k])
  {
    Upper(Strip(text))
  }

  /** A string with no surrounding whitespace and no lower-case letter is already normalised. */
  lemma NormalizedIsFixed(id: string)
    requires id == [] || (!IsSpace(id[0]) && !IsSpace(id[|id| - 1]))
    requires forall k :: 0 <= k < |id| ==> !IsLowerAscii(id[k])
    ensures NormalizeProductId(id) == id
  {
    StripUnchanged(id);
    assert Upper(id) == id;
  }

  /** Normalising twice is the same as normalising once. */
  lemma NormalizeIdempotent(text: string)
    ensures NormalizeProductId(NormalizeProductId(text)) == NormalizeProductId(text)
  {
    NormalizedIsFixed(NormalizeProductId(text));
  }
}
