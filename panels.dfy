/** The four open/closed flags of the interface, each flipped by its own action. */
module Panels {
  import opened Entities

  function ToggleCart(s: State): (r: State)
    ensures r.isCartOpen != s.isCartOpen
    ensures r == s.(isCartOpen := r.isCartOpen)
  {
    s.(isCartOpen := !s.isCartOpen)
  }

  function ToggleMobileMenu(s: State): (r: State)
    ensures r.isMobileMenuOpen != s.isMobileMenuOpen
    ensures r == s.(isMobileMenuOpen := r.isMobileMenuOpen)
  {
    s.(isMobileMenuOpen := !s.isMobileMenuOpen)
  }

  function ToggleChat(s: State): (r: State)
    ensures r.isChatOpen != s.isChatOpen
    ensures r == s.(isChatOpen := r.isChatOpen)
  {
    s.(isChatOpen := !s.isChatOpen)
  }

  function ToggleAdminPanel(s: State): (r: State)
    ensures r.isAdminPanelOpen != s.isAdminPanelOpen
    ensures r == s.(isAdminPanelOpen := r.isAdminPanelOpen)
  {
    s.(isAdminPanelOpen := !s.isAdminPanelOpen)
  }

  /** Toggling twice restores the snapshot. */
  lemma TogglesAreInvolutions(s: State)
    ensures ToggleCart(ToggleCart(s)) == s
    ensures ToggleMobileMenu(ToggleMobileMenu(s)) == s
    ensures ToggleChat(ToggleChat(s)) == s
    ensures ToggleAdminPanel(ToggleAdminPanel(s)) == s
  {
  }
}
