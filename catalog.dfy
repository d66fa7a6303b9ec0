/** The sellable inventory as the cart sees it, and the product search over it. */
module Catalog {
  import opened Wrappers
  import opened Seqs
  import opened Text

  /**
   * A sellable inventory item as fetched from the store API. Fields the API
   * may omit are optional: the stock product's name and category name, the
   * discount (a fraction) and the quantity offered for sale.
   */
  datatype Product = Product(
    id: int,
    name: Option<string>,
    category: Option<string>,
    salePrice: real,
    discount: Option<real>,
    saleQuantity: Option<int>)

  /** `product.saleQuantity || 0`: a missing quantity counts as none in stock. */
  function Stock(p: Product): int
  {
    p.saleQuantity.GetOr(0)
  }

  /** `product.discount || 0`: a missing discount counts as none. */
  function DiscountOf(p: Product): real
  {
    p.discount.GetOr(0.0)
  }

  /** The price after discount, `salePrice * (1 - discount)`. */
  function EffectivePrice(p: Product): real
  {
    p.salePrice * (1.0 - DiscountOf(p))
  }

  /** The name a cart line shows: an absent or empty name reads "Unknown Product". */
  function Label(p: Product): string
  {
    if p.name.Some? && p.name.value != "" then p.name.value else "Unknown Product"
  }

  /** The name and category text that search looks at; absent ones are empty. */
  function NameText(p: Product): string { p.name.GetOr("") }
  function CategoryText(p: Product): string { p.category.GetOr("") }

  /** The product's lower-cased name or category name includes the lower-cased query. */
  predicate Matches(p: Product, query: string)
  {
    Contains(Lower(NameText(p)), Lower(query)) ||
    Contains(Lower(CategoryText(p)), Lower(query))
  }

  /** searchProducts: the inventory items that match the query, in inventory order. */
  function Search(inventory: seq<Product>, query: string): seq<Product>
  {
    Filter(inventory, p => Matches(p, query))
  }

  /** Search returns exactly the matching inventory items. */
  lemma SearchMembership(inventory: seq<Product>, query: string, p: Product)
    ensures p in Search(inventory, query) <==> p in inventory && Matches(p, query)
  {
    FilterMembership(inventory, p => Matches(p, query), p);
  }

  /** Search keeps the inventory's order: its result is a subsequence of the inventory. */
  lemma SearchPreservesOrder(inventory: seq<Product>, query: string)
    ensures IsSubsequence(Search(inventory, query), inventory)
    ensures |Search(inventory, query)| <= |inventory|
  {
    FilterIsSubsequence(inventory, p => Matches(p, query));
  }

  /** Searching a concatenation searches each part and concatenates, in order. */
  lemma SearchConcat(a: seq<Product>, b: seq<Product>, query: string)
    ensures Search(a + b, query) == Search(a, query) + Search(b, query)
  {
    FilterConcat(a, b, p => Matches(p, query));
  }

  /** The empty query returns the whole inventory. */
  lemma SearchEmptyQuery(inventory: seq<Product>)
    ensures Search(inventory, "") == inventory
  {
    forall p | p in inventory
      ensures Matches(p, "")
    {
      ContainsEmpty(Lower(NameText(p)));
    }
    FilterAllKept(inventory, p => Matches(p, ""));
  }

  /** The query's case does not matter: searching for it lower-cased gives the same result. */
  lemma SearchIgnoresQueryCase(inventory: seq<Product>, query: string)
    ensures Search(inventory, Lower(query)) == Search(inventory, query)
  {
    LowerIdempotent(query);
    FilterCongruent(inventory, p => Matches(p, Lower(query)), p => Matches(p, query));
  }
}
