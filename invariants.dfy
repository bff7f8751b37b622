/**
 * What every action keeps true of the snapshot: the featured view is the featured
 * members of the catalog, the filtered view is an ordered subsequence of the catalog,
 * and the cart has at most one line per product id.
 *
 * The filtered view is NOT always the catalog filtered by the current filter:
 * `setProducts` resets it to the whole list, `addProduct` leaves it as it was while a
 * filter is active, and `updateProduct` edits its entries without re-filtering.
 */
module Invariants {
  import Optional
  import opened Seqs
  import opened Entities
  import opened Catalog
  import Cart
  import Filtering
  import Session

  ghost predicate Coherent(s: State) {
    && s.featuredProducts == Featured(s.products)
    && Subseq(s.filteredProducts, s.products)
    && Cart.UniqueLines(s.cart)
  }

  lemma InitialCoherent(storage: map<string, string>)
    ensures Coherent(Session.Initial(storage))
  {
  }

  lemma SetProductsCoherent(s: State, products: seq<Product>)
    requires Coherent(s)
    ensures Coherent(SetProducts(s, products))
  {
    SubseqRefl(products);
  }

  lemma AddProductCoherent(s: State, p: Product)
    requires Coherent(s)
    ensures Coherent(AddProduct(s, p))
  {
    if HasConstraint(s.productFilter) {
      SubseqAppend(s.filteredProducts, s.products, p);
    } else {
      SubseqRefl(s.products + [p]);
    }
  }

  lemma UpdateProductCoherent(s: State, id: string, u: ProductPatch)
    requires Coherent(s)
    ensures Coherent(UpdateProduct(s, id, u))
  {
    var r := UpdateProduct(s, id, u);
    SubseqMap(s.filteredProducts, s.products, MergeInto(id, u));
    assert r.products == Map(s.products, MergeInto(id, u));
    assert r.filteredProducts == Map(s.filteredProducts, MergeInto(id, u));
  }

  lemma DeleteProductCoherent(s: State, id: string)
    requires Coherent(s)
    ensures Coherent(DeleteProduct(s, id))
  {
    SubseqFilter(s.filteredProducts, s.products, NotId(id));
  }

  lemma FilterProductsCoherent(s: State, category: Filtering.Arg<Optional.Option<string>>,
                               culture: Filtering.Arg<Optional.Option<string>>, searchQuery: Filtering.Arg<string>)
    requires Coherent(s)
    ensures Coherent(Filtering.FilterProducts(s, category, culture, searchQuery))
  {
  }
}
