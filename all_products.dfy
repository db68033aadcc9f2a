/** The full product list: a location selector and a search box matched
    against product name or room type. */
module AllProducts {
  import opened Text
  import opened Seqs

  /** A product; `kind` is the TypeScript record's `type` field, the image link is not
      part of this model. */
  datatype Product = Product(id: nat, name: string, kind: string, price: string, shareType: string,
                             duration: string, capacity: string, location: string)

  /** The `products` list. */
  const Products := [
    Product(1, "Premium Suite Membership", "Luxury Room", "₩ 150,000,000", "1/4 지분", "30년", "4인", "평창"),
    Product(2, "Deluxe Pool Villa", "Private Villa", "₩ 280,000,000", "1/2 지분", "40년", "6인", "제주"),
    Product(3, "Ocean View Suite", "Premium Room", "₩ 120,000,000", "1/4 지분", "25년", "3인", "속초"),
    Product(4, "Garden Suite", "Family Room", "₩ 180,000,000", "1/3 지분", "35년", "5인", "거제")
  ]

  predicate Matches(p: Product, location: string, query: string) {
    && (location == "all" || p.location == location)
    && (Contains(ToLower(p.name), ToLower(query)) || Contains(ToLower(p.kind), ToLower(query)))
  }

  /** `filteredProducts`. */
  function FilteredProducts(products: seq<Product>, location: string, query: string): (r: seq<Product>)
    ensures IsSubsequence(r, products)
    ensures forall i :: 0 <= i < |r| ==> Matches(r[i], location, query)
    ensures forall i :: 0 <= i < |products| && Matches(products[i], location, query) ==> products[i] in r
    ensures location != "all" ==> forall i :: 0 <= i < |r| ==> r[i].location == location
  {
    Filter(products, (p: Product) => Matches(p, location, query))
  }

  /** Every location with an empty search shows all four products. */
  lemma EverythingByDefault()
    ensures FilteredProducts(Products, "all", "") == Products
    ensures |FilteredProducts(Products, "all", "")| == 4
  {
    forall p: Product
      ensures Matches(p, "all", "")
    {
      ContainsEmpty(ToLower(p.name));
    }
    FilterKeepsAll(Products, (p: Product) => Matches(p, "all", ""));
  }

  /** The search reads only name and type: price, share type, duration,
      capacity and location never decide a match of the query. */
  lemma SearchReadsNameAndTypeOnly(p: Product, price: string, shareType: string, duration: string,
                                   capacity: string, location: string, query: string)
    ensures Matches(p.(price := price, shareType := shareType, duration := duration,
                       capacity := capacity, location := location), "all", query)
      == Matches(p, "all", query)
  {
  }
}
