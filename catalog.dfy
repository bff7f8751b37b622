/**
 * Catalog maintenance: replacing the catalog, the state step of adding a product
 * once the server has answered, merging a partial update into a product, and
 * deleting a product everywhere it appears. Each keeps the featured view equal to
 * the featured members of the catalog.
 */
module Catalog {
  import opened Optional
  import opened Seqs
  import opened Entities
  import Cart

  /** `product.featured` is truthy. */
  predicate IsFeatured(p: Product) {
    p.featured == Some(true)
  }

  /** `products.filter(p => p.featured)`. */
  function Featured(products: seq<Product>): (r: seq<Product>)
    ensures Subseq(r, products)
    ensures forall i :: 0 <= i < |r| ==> IsFeatured(r[i]) && r[i] in products
    ensures forall i :: 0 <= i < |products| && IsFeatured(products[i]) ==> products[i] in r
  {
    FilterIsSubseq(products, IsFeatured);
    Filter(products, IsFeatured)
  }

  /**
   * The featured view keeps every copy of each featured product: a catalog listing the
   * same featured record twice features it twice.
   */
  lemma FeaturedKeepsCopies(products: seq<Product>)
    ensures KeepsCopies(Featured(products), products, IsFeatured)
  {
    FilterCount(products, IsFeatured);
  }

  /** Only the three catalog lists may differ between `s` and `r`. */
  ghost predicate OnlyCatalogChanged(s: State, r: State) {
    r == s.(products := r.products, featuredProducts := r.featuredProducts, filteredProducts := r.filteredProducts)
  }

  /** `setProducts(products)`: the filtered view is reset to the whole list, whatever the filter. */
  function SetProducts(s: State, products: seq<Product>): (r: State)
    ensures r.products == products && r.filteredProducts == products
    ensures r.featuredProducts == Featured(r.products)
    ensures OnlyCatalogChanged(s, r)
  {
    s.(products := products, featuredProducts := Featured(products), filteredProducts := products)
  }

  /**
   * The state step of `addProduct` once the server returned `p`: `p` is appended, the
   * featured view gains `p` exactly when it is featured, and the filtered view becomes
   * the whole catalog only when no filter field is truthy.
   */
  function AddProduct(s: State, p: Product): (r: State)
    ensures r.products == s.products + [p]
    ensures r.featuredProducts == Featured(r.products)
    ensures r.featuredProducts == Featured(s.products) + (if IsFeatured(p) then [p] else [])
    ensures HasConstraint(s.productFilter) ==> r.filteredProducts == s.filteredProducts
    ensures !HasConstraint(s.productFilter) ==> r.filteredProducts == r.products
    ensures OnlyCatalogChanged(s, r)
  {
    var updated := s.products + [p];
    FilterConcat(s.products, [p], IsFeatured);
    assert Filter([p], IsFeatured) == (if IsFeatured(p) then [p] else []) by {
      assert [p][1..] == [];
    }
    s.(products := updated,
       featuredProducts := Featured(updated),
       filteredProducts := if HasConstraint(s.productFilter) then s.filteredProducts else updated)
  }

  /** The updater of `updateProduct`: entries with id `id` get the patch merged in. */
  function MergeInto(id: string, u: ProductPatch): Product -> Product {
    (p: Product) => if p.id == id then Merge(p, u) else p
  }

  /**
   * `updateProduct(id, updates)`: the patch is merged into every entry with that id,
   * in the catalog and, separately, in the filtered view; membership of the filtered
   * view is not re-evaluated.
   */
  function UpdateProduct(s: State, id: string, u: ProductPatch): (r: State)
    ensures |r.products| == |s.products| && |r.filteredProducts| == |s.filteredProducts|
    ensures forall i :: 0 <= i < |s.products| ==>
      r.products[i] == (if s.products[i].id == id then Merge(s.products[i], u) else s.products[i])
    ensures forall i :: 0 <= i < |s.filteredProducts| ==>
      r.filteredProducts[i] == (if s.filteredProducts[i].id == id then Merge(s.filteredProducts[i], u) else s.filteredProducts[i])
    ensures r.featuredProducts == Featured(r.products)
    ensures OnlyCatalogChanged(s, r)
  {
    var updated := Map(s.products, MergeInto(id, u));
    s.(products := updated,
       featuredProducts := Featured(updated),
       filteredProducts := Map(s.filteredProducts, MergeInto(id, u)))
  }

  /** Keeps the products whose id is not `id`. */
  function NotId(id: string): Product -> bool {
    (p: Product) => p.id != id
  }

  /**
   * `products.filter(p => p.id !== productId)`: no entry with the id remains, and every
   * other entry keeps all its copies, in the original relative order.
   */
  function Without(products: seq<Product>, id: string): (r: seq<Product>)
    ensures forall i :: 0 <= i < |r| ==> r[i].id != id
    ensures Subseq(r, products)
    ensures forall i :: 0 <= i < |products| && products[i].id != id ==> products[i] in r
    ensures KeepsCopies(r, products, NotId(id))
  {
    FilterIsSubseq(products, NotId(id));
    FilterCount(products, NotId(id));
    Filter(products, NotId(id))
  }

  /**
   * `deleteProduct(id)`: in one step, `id` leaves the catalog, both views and the cart;
   * everything else stays, with all its copies, in its original relative order.
   */
  function DeleteProduct(s: State, id: string): (r: State)
    ensures forall i :: 0 <= i < |r.products| ==> r.products[i].id != id
    ensures forall i :: 0 <= i < |r.featuredProducts| ==> r.featuredProducts[i].id != id
    ensures forall i :: 0 <= i < |r.filteredProducts| ==> r.filteredProducts[i].id != id
    ensures !Cart.HasLine(r.cart, id)
    ensures Subseq(r.products, s.products) && Subseq(r.filteredProducts, s.filteredProducts)
    ensures Subseq(r.cart, s.cart)
    ensures forall i :: 0 <= i < |s.products| && s.products[i].id != id ==> s.products[i] in r.products
    ensures forall i :: 0 <= i < |s.filteredProducts| && s.filteredProducts[i].id != id ==> s.filteredProducts[i] in r.filteredProducts
    ensures forall i :: 0 <= i < |s.cart| && s.cart[i].product.id != id ==> s.cart[i] in r.cart
    ensures KeepsCopies(r.products, s.products, NotId(id))
    ensures KeepsCopies(r.filteredProducts, s.filteredProducts, NotId(id))
    ensures r.featuredProducts == Featured(r.products)
    ensures r == s.(products := r.products, featuredProducts := r.featuredProducts,
                    filteredProducts := r.filteredProducts, cart := r.cart)
  {
    var updated := Without(s.products, id);
    s.(products := updated,
       featuredProducts := Featured(updated),
       filteredProducts := Without(s.filteredProducts, id),
       cart := Cart.RemoveFromCart(s.cart, id))
  }

  /** An update whose patch leaves the id alone keeps the ids of both lists, in order. */
  lemma UpdateKeepsIds(s: State, id: string, u: ProductPatch)
    requires u.id == None || u.id == Some(id)
    ensures Map(UpdateProduct(s, id, u).products, IdOf) == Map(s.products, IdOf)
    ensures Map(UpdateProduct(s, id, u).filteredProducts, IdOf) == Map(s.filteredProducts, IdOf)
  {
    var r := UpdateProduct(s, id, u);
    SameIds(r.products, s.products);
    SameIds(r.filteredProducts, s.filteredProducts);
  }

  /** Lists that agree on the id at every position have the same id list. */
  lemma SameIds(a: seq<Product>, b: seq<Product>)
    requires |a| == |b| && forall i :: 0 <= i < |a| ==> a[i].id == b[i].id
    ensures Map(a, IdOf) == Map(b, IdOf)
  {
  }

  /** An update for an id that no product has changes nothing. */
  lemma UpdateUnknownId(s: State, id: string, u: ProductPatch)
    requires forall i :: 0 <= i < |s.products| ==> s.products[i].id != id
    requires forall i :: 0 <= i < |s.filteredProducts| ==> s.filteredProducts[i].id != id
    requires s.featuredProducts == Featured(s.products)
    ensures UpdateProduct(s, id, u) == s
  {
    forall x | x in s.products ensures MergeInto(id, u)(x) == x {
      var i :| 0 <= i < |s.products| && s.products[i] == x;
    }
    forall x | x in s.filteredProducts ensures MergeInto(id, u)(x) == x {
      var i :| 0 <= i < |s.filteredProducts| && s.filteredProducts[i] == x;
    }
    MapKeepsAll(s.products, MergeInto(id, u));
    MapKeepsAll(s.filteredProducts, MergeInto(id, u));
  }

  /** Merging a patch is idempotent, and the empty patch changes nothing. */
  lemma MergeLaws(p: Product, u: ProductPatch)
    ensures Merge(Merge(p, u), u) == Merge(p, u)
    ensures Merge(p, EmptyPatch) == p
  {
  }

  /**
   * Recomputing the featured view after a delete is the same as deleting from the old
   * featured view, when that view was in step with the catalog.
   */
  lemma DeleteFromFeatured(s: State, id: string)
    requires s.featuredProducts == Featured(s.products)
    ensures DeleteProduct(s, id).featuredProducts == Filter(s.featuredProducts, NotId(id))
  {
    FilterCommute(s.products, NotId(id), IsFeatured);
  }
}
