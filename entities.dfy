/**
 * The records the storefront's application store holds: products, cart lines,
 * chat messages, the product filter, and the one `AppState` snapshot that every
 * action replaces wholesale.
 */
module Entities {
  import opened Optional

  /**
   * A catalog entry. `category` is one of "clothing", "music" or "accessories" in the
   * source's type, but the store only ever compares it with a filter string, so it is
   * kept as a string here. `price` is carried and never computed with. `featured` is an
   * optional flag: a product is featured exactly when it is present and true.
   */
  datatype Product = Product(
    id: string,
    name: string,
    category: string,
    subCategory: string,
    price: real,
    size: seq<string>,
    stock: int,
    image: string,
    description: string,
    culture: string,
    tags: seq<string>,
    featured: Option<bool>)

  /** A `Partial<Product>`: each field is either given (and then overrides) or absent. */
  datatype ProductPatch = ProductPatch(
    id: Option<string>,
    name: Option<string>,
    category: Option<string>,
    subCategory: Option<string>,
    price: Option<real>,
    size: Option<seq<string>>,
    stock: Option<int>,
    image: Option<string>,
    description: Option<string>,
    culture: Option<string>,
    tags: Option<seq<string>>,
    featured: Option<bool>)

  /** The patch that gives no field. */
  const EmptyPatch := ProductPatch(None, None, None, None, None, None, None, None, None, None, None, None)

  /** `{ ...product, ...updates }`: every field the patch gives replaces the product's. */
  function Merge(p: Product, u: ProductPatch): (r: Product)
    ensures r.id == (if u.id.Some? then u.id.value else p.id)
    ensures r.name == (if u.name.Some? then u.name.value else p.name)
    ensures r.category == (if u.category.Some? then u.category.value else p.category)
    ensures r.subCategory == (if u.subCategory.Some? then u.subCategory.value else p.subCategory)
    ensures r.price == (if u.price.Some? then u.price.value else p.price)
    ensures r.size == (if u.size.Some? then u.size.value else p.size)
    ensures r.stock == (if u.stock.Some? then u.stock.value else p.stock)
    ensures r.image == (if u.image.Some? then u.image.value else p.image)
    ensures r.description == (if u.description.Some? then u.description.value else p.description)
    ensures r.culture == (if u.culture.Some? then u.culture.value else p.culture)
    ensures r.tags == (if u.tags.Some? then u.tags.value else p.tags)
    ensures r.featured == (if u.featured.Some? then u.featured else p.featured)
    ensures u == EmptyPatch ==> r == p
  {
    Product(
      u.id.GetOr(p.id),
      u.name.GetOr(p.name),
      u.category.GetOr(p.category),
      u.subCategory.GetOr(p.subCategory),
      u.price.GetOr(p.price),
      u.size.GetOr(p.size),
      u.stock.GetOr(p.stock),
      u.image.GetOr(p.image),
      u.description.GetOr(p.description),
      u.culture.GetOr(p.culture),
      u.tags.GetOr(p.tags),
      if u.featured.Some? then Some(u.featured.value) else p.featured)
  }

  /** A cart line. The quantity is whatever the caller passed; the store never clamps it. */
  datatype CartItem = CartItem(product: Product, quantity: int)

  datatype Sender = User | Bot

  /** A chat message; `timestamp` is the caller's `Date`, as milliseconds. */
  datatype ChatMessage = ChatMessage(id: string, text: string, sender: Sender, timestamp: int)

  /** The current filter: `null` category or culture and an empty query mean "no constraint". */
  datatype ProductFilter = ProductFilter(category: Option<string>, culture: Option<string>, searchQuery: string)

  /** The store's whole snapshot (`AppState`). */
  datatype State = State(
    products: seq<Product>,
    featuredProducts: seq<Product>,
    filteredProducts: seq<Product>,
    productFilter: ProductFilter,
    cart: seq<CartItem>,
    isCartOpen: bool,
    isMobileMenuOpen: bool,
    isAuthenticated: bool,
    isAdminPanelOpen: bool,
    adminToken: Option<string>,
    isChatOpen: bool,
    chatMessages: seq<ChatMessage>)

  /** JavaScript truthiness of a `string | null`: present and non-empty. */
  predicate Truthy(s: Option<string>) {
    s.Some? && s.value != ""
  }

  /** Some filter field is truthy: the filter constrains the catalog. */
  predicate HasConstraint(f: ProductFilter) {
    Truthy(f.category) || Truthy(f.culture) || f.searchQuery != ""
  }

  /** The id of a product, as a function value for `Map`. */
  function IdOf(p: Product): string {
    p.id
  }
}
