/**
 * The singleton application store: one mutable snapshot and the browser storage it
 * mirrors the session into. Every action installs a new snapshot computed by the
 * pure step of its module; login, signup and logout also write or remove storage
 * keys one at a time.
 */
module Store {
  import opened Optional
  import opened Entities
  import Catalog
  import Cart
  import Filtering
  import Session
  import Chat
  import Panels
  import Invariants

  class AppStore {
    var state: State
    var storage: map<string, string>

    /** The snapshot is coherent and its session agrees with storage. */
    ghost predicate Valid()
      reads this
    {
      Invariants.Coherent(state) && Session.Mirrored(state, storage)
    }

    /** Start-up: the session is seeded from whatever storage holds. */
    constructor (initialStorage: map<string, string>)
      ensures Valid()
      ensures state == Session.Initial(initialStorage) && storage == initialStorage
    {
      state := Session.Initial(initialStorage);
      storage := initialStorage;
      Invariants.InitialCoherent(initialStorage);
    }

    method SetProducts(products: seq<Product>)
      requires Valid()
      modifies this
      ensures Valid()
      ensures state == Catalog.SetProducts(old(state), products) && storage == old(storage)
    {
      Invariants.SetProductsCoherent(state, products);
      state := Catalog.SetProducts(state, products);
    }

    method FilterProducts(category: Filtering.Arg<Option<string>>, culture: Filtering.Arg<Option<string>>,
                          searchQuery: Filtering.Arg<string>)
      requires Valid()
      modifies this
      ensures Valid()
      ensures state == Filtering.FilterProducts(old(state), category, culture, searchQuery)
      ensures storage == old(storage)
    {
      state := Filtering.FilterProducts(state, category, culture, searchQuery);
    }

    method AddToCart(product: Product, quantity: int)
      requires Valid()
      modifies this
      ensures Valid()
      ensures state == old(state).(cart := Cart.AddToCart(old(state).cart, product, quantity))
      ensures storage == old(storage)
    {
      state := state.(cart := Cart.AddToCart(state.cart, product, quantity));
    }

    method RemoveFromCart(productId: string)
      requires Valid()
      modifies this
      ensures Valid()
      ensures state == old(state).(cart := Cart.RemoveFromCart(old(state).cart, productId))
      ensures storage == old(storage)
    {
      state := state.(cart := Cart.RemoveFromCart(state.cart, productId));
    }

    method UpdateCartItemQuantity(productId: string, quantity: int)
      requires Valid()
      modifies this
      ensures Valid()
      ensures state == old(state).(cart := Cart.UpdateCartItemQuantity(old(state).cart, productId, quantity))
      ensures storage == old(storage)
    {
      state := state.(cart := Cart.UpdateCartItemQuantity(state.cart, productId, quantity));
    }

    method ClearCart()
      requires Valid()
      modifies this
      ensures Valid()
      ensures state == old(state).(cart := []) && storage == old(storage)
    {
      state := state.(cart := []);
    }

    method ToggleCart()
      requires Valid()
      modifies this
      ensures Valid()
      ensures state == Panels.ToggleCart(old(state)) && storage == old(storage)
    {
      state := Panels.ToggleCart(state);
    }

    method ToggleMobileMenu()
      requires Valid()
      modifies this
      ensures Valid()
      ensures state == Panels.ToggleMobileMenu(old(state)) && storage == old(storage)
    {
      state := Panels.ToggleMobileMenu(state);
    }

    method ToggleChat()
      requires Valid()
      modifies this
      ensures Valid()
      ensures state == Panels.ToggleChat(old(state)) && storage == old(storage)
    {
      state := Panels.ToggleChat(state);
    }

    method ToggleAdminPanel()
      requires Valid()
      modifies this
      ensures Valid()
      ensures state == Panels.ToggleAdminPanel(old(state)) && storage == old(storage)
    {
      state := Panels.ToggleAdminPanel(state);
    }

    /** `addChatMessage`: `now` is the clock reading `Date.now()`; the stored message is returned. */
    method AddChatMessage(text: string, sender: Sender, timestamp: int, now: nat) returns (m: ChatMessage)
      requires Valid()
      modifies this
      ensures Valid()
      ensures m == Chat.NewMessage(text, sender, timestamp, now)
      ensures state == Chat.AddChatMessage(old(state), m) && storage == old(storage)
    {
      m := Chat.NewMessage(text, sender, timestamp, now);
      state := Chat.AddChatMessage(state, m);
    }

    method ClearChatMessages()
      requires Valid()
      modifies this
      ensures Valid()
      ensures state == Chat.ClearChatMessages(old(state)) && storage == old(storage)
    {
      state := Chat.ClearChatMessages(state);
    }

    /**
     * The part of `login` after the request: with a truthy token, both storage keys are
     * written and the session is set; otherwise nothing changes and the answer is false.
     */
    method Login(reply: Session.AuthReply) returns (ok: bool)
      requires Valid()
      modifies this
      ensures Valid()
      ensures ok == Session.LoginResult(reply)
      ensures ok ==> state == Session.Authenticate(old(state), reply.data.value)
      ensures ok ==> storage == Session.PersistLogin(old(storage), reply.data.value)
      ensures !ok ==> state == old(state) && storage == old(storage)
    {
      var token := Session.ReplyToken(reply);
      if token.Some? {
        Session.LoginMirrored(state, storage, token.value);
        storage := storage[Session.AdminTokenKey := token.value];
        storage := storage[Session.IsAuthenticatedKey := "true"];
        state := Session.Authenticate(state, token.value);
        ok := true;
      } else {
        ok := false;
      }
    }

    /** The part of `signup` after the request: the same state step as `login`, with a richer answer. */
    method Signup(reply: Session.AuthReply) returns (result: Session.SignupResult)
      requires Valid()
      modifies this
      ensures Valid()
      ensures result == Session.SignupOutcome(reply)
      ensures result.SignedUp? ==> state == Session.Authenticate(old(state), result.data)
      ensures result.SignedUp? ==> storage == Session.PersistLogin(old(storage), result.data)
      ensures !result.SignedUp? ==> state == old(state) && storage == old(storage)
    {
      var token := Session.ReplyToken(reply);
      if token.Some? {
        Session.LoginMirrored(state, storage, token.value);
        storage := storage[Session.AdminTokenKey := token.value];
        storage := storage[Session.IsAuthenticatedKey := "true"];
        state := Session.Authenticate(state, token.value);
      }
      result := Session.SignupOutcome(reply);
    }

    /** `adminLogout`: the three keys leave storage, then the session is cleared. */
    method AdminLogout()
      requires Valid()
      modifies this
      ensures Valid()
      ensures state == Session.Logout(old(state))
      ensures storage == Session.ForgetSession(old(storage))
    {
      Session.LogoutMirrored(state, storage);
      storage := storage - {Session.AdminTokenKey};
      storage := storage - {Session.IsAuthenticatedKey};
      storage := storage - {Session.UserRoleKey};
      state := Session.Logout(state);
    }

    /**
     * The part of `addProduct` after the request: a created product is appended and
     * returned; a failed request is passed back to the caller and changes nothing.
     */
    method AddProduct(reply: Result<Product, string>) returns (result: Result<Product, string>)
      requires Valid()
      modifies this
      ensures Valid()
      ensures result == reply
      ensures reply.Success? ==> state == Catalog.AddProduct(old(state), reply.value)
      ensures reply.Failure? ==> state == old(state)
      ensures storage == old(storage)
    {
      if reply.Success? {
        Invariants.AddProductCoherent(state, reply.value);
        state := Catalog.AddProduct(state, reply.value);
      }
      result := reply;
    }

    method UpdateProduct(productId: string, updates: ProductPatch)
      requires Valid()
      modifies this
      ensures Valid()
      ensures state == Catalog.UpdateProduct(old(state), productId, updates) && storage == old(storage)
    {
      Invariants.UpdateProductCoherent(state, productId, updates);
      state := Catalog.UpdateProduct(state, productId, updates);
    }

    method DeleteProduct(productId: string)
      requires Valid()
      modifies this
      ensures Valid()
      ensures state == Catalog.DeleteProduct(old(state), productId) && storage == old(storage)
    {
      Invariants.DeleteProductCoherent(state, productId);
      state := Catalog.DeleteProduct(state, productId);
    }
  }
}
