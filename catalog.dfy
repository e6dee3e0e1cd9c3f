/**
 * The catalogue models of the backend (`backend/api/models.py`): the slug
 * rule of `Category.save` and `Product.save`, the sale-price rule of
 * `Product.save`, and the uniqueness constraint on wishlist items.
 * Prices are exact decimals (`real`); the two-decimal rounding of the
 * database column is not modelled.
 */
module Catalog {
  import Naming

  /** Separator between a slug and its counter: `f'{slug}-{counter}'`. */
  const SlugSeparator := "-"

  /** The sale-price rule: `discount` is a percentage taken off `price` when positive. */
  function SalePrice(price: real, discount: int): real
  {
    if discount > 0 then price - (price * discount as real) / 100.0 else price
  }

  lemma SalePriceOfDiscount(price: real, discount: int)
    requires discount > 0
    ensures SalePrice(price, discount) == price * (100 - discount) as real / 100.0
  {
  }

  lemma SalePriceWithoutDiscount(price: real, discount: int)
    requires discount <= 0
    ensures SalePrice(price, discount) == price
  {
  }

  /** A percentage between 0 and 100 never makes the sale price negative or larger than the price. */
  lemma SalePriceBounds(price: real, discount: int)
    requires price >= 0.0 && 0 <= discount <= 100
    ensures 0.0 <= SalePrice(price, discount) <= price
  {
    if discount > 0 {
      var d := discount as real;
      assert 0.0 <= price * d <= price * 100.0;
    }
  }

  /** A larger discount never gives a larger sale price. */
  lemma SalePriceAntitone(price: real, d1: int, d2: int)
    requires price >= 0.0 && 0 <= d1 <= d2
    ensures SalePrice(price, d2) <= SalePrice(price, d1)
  {
    assert price * d1 as real <= price * d2 as real;
  }

  /** The slug a record gets on save: its own when set, otherwise the first free `slug`, `slug-1`, `slug-2`, … */
  ghost predicate SlugAfterSave(oldSlug: string, generatedFrom: string, taken: set<string>, slug: string)
  {
    if oldSlug != "" then slug == oldSlug
    else
      slug !in taken &&
      exists k: nat :: slug == Naming.Name(generatedFrom, SlugSeparator, k) &&
        forall j :: 0 <= j < k ==> Naming.Name(generatedFrom, SlugSeparator, j) in taken
  }

  /** A `Category` row as `save` sees it. */
  class Category {
    var name: string
    var slug: string

    constructor (name: string, slug: string)
      ensures this.name == name && this.slug == slug
    {
      this.name := name;
      this.slug := slug;
    }

    /**
     * `Category.save`: fills an empty slug from `slugify(name)`, made unique
     * against the slugs already stored; the database write itself is not modelled.
     */
    method Save(slugify: string -> string, storedSlugs: set<string>)
      modifies this
      ensures name == old(name)
      ensures SlugAfterSave(old(slug), slugify(name), storedSlugs, slug)
    {
      if slug == "" {
        slug := Naming.FirstFree(slugify(name), SlugSeparator, storedSlugs);
      }
    }
  }

  /** A `Product` row as `save` sees it. */
  class Product {
    var name: string
    var slug: string
    var price: real
    var discount: int
    var salePrice: real

    constructor (name: string, slug: string, price: real, discount: int)
      ensures this.name == name && this.slug == slug
      ensures this.price == price && this.discount == discount
      ensures salePrice == price
    {
      this.name := name;
      this.slug := slug;
      this.price := price;
      this.discount := discount;
      this.salePrice := price;
    }

    /**
     * `Product.save`: the slug rule of `Category.save`, then the sale price
     * recomputed from price and discount on every save.
     */
    method Save(slugify: string -> string, storedSlugs: set<string>)
      modifies this
      ensures name == old(name) && price == old(price) && discount == old(discount)
      ensures SlugAfterSave(old(slug), slugify(name), storedSlugs, slug)
      ensures salePrice == SalePrice(price, discount)
    {
      if slug == "" {
        slug := Naming.FirstFree(slugify(name), SlugSeparator, storedSlugs);
      }
      if discount > 0 {
        var discountAmount := (price * discount as real) / 100.0;
        salePrice := price - discountAmount;
      } else {
        salePrice := price;
      }
    }
  }

  /** A `WishlistItem` row: the pair (wishlist, product). */
  datatype WishlistItem = WishlistItem(wishlist: nat, product: nat)

  /** The `WishlistItem` table under its `unique_together = ('wishlist', 'product')` constraint. */
  class WishlistItemTable {
    var rows: seq<WishlistItem>

    ghost predicate Valid()
      reads this
    {
      forall i, j :: 0 <= i < j < |rows| ==> rows[i] != rows[j]
    }

    constructor ()
      ensures Valid() && rows == []
    {
      rows := [];
    }

    /** An insert the constraint refuses (an integrity error) leaves the table as it was. */
    method Insert(item: WishlistItem) returns (inserted: bool)
      requires Valid()
      modifies this
      ensures Valid()
      ensures inserted <==> item !in old(rows)
      ensures rows == if inserted then old(rows) + [item] else old(rows)
    {
      inserted := item !in rows;
      if inserted {
        rows := rows + [item];
      }
    }
  }
}
