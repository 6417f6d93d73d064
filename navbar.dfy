/** The logic of frontend/src/components/Navbar.tsx: the uncapped avatar
    initials and the two menu flags. */
module Navbar {
  import opened Common
  import Header

  /** getInitials: "US" for a null or empty name; otherwise the uppercased
      first characters of the space-separated parts, with no length cap. */
  function Initials(name: Option<string>): (r: string)
    ensures name.None? || name.value == "" ==> r == "US"
    ensures name.Some? && name.value != "" ==>
      var ps := Header.NonEmptyParts(Split(name.value, ' '));
      |r| == |ps| && forall i :: 0 <= i < |ps| ==> r[i] == UpperChar(ps[i][0])
  {
    if name.None? || name.value == "" then "US"
    else
      Header.FirstCharsSpec(Split(name.value, ' '));
      ToUpper(Header.FirstChars(Split(name.value, ' ')))
  }

  /** The header caps the same letters at two: its initials are a prefix of
      these. */
  lemma HeaderInitialsArePrefix(name: string)
    requires name != ""
    ensures Header.Initials(Some(name)) <= Initials(Some(name))
  {
  }

  class NavbarState {
    var menuOpen: bool
    var userMenuOpen: bool

    constructor ()
      ensures !menuOpen && !userMenuOpen
    {
      menuOpen, userMenuOpen := false, false;
    }

    /** The avatar button. */
    method ToggleUserMenu()
      modifies this
      ensures userMenuOpen == !old(userMenuOpen) && menuOpen == old(menuOpen)
    {
      userMenuOpen := !userMenuOpen;
    }

    /** The mobile menu button. */
    method ToggleMenu()
      modifies this
      ensures menuOpen == !old(menuOpen) && userMenuOpen == old(userMenuOpen)
    {
      menuOpen := !menuOpen;
    }

    /** Choosing an entry of the user menu (Profile, Settings or Logout)
        closes it; Logout then asks for the logout request. */
    method ChooseUserMenuEntry(isLogout: bool) returns (logoutRequested: bool)
      modifies this
      ensures !userMenuOpen && menuOpen == old(menuOpen)
      ensures logoutRequested == isLogout
    {
      userMenuOpen := false;
      logoutRequested := isLogout;
    }

    /** Following a link of the mobile menu closes it. */
    method ChooseMenuLink()
      modifies this
      ensures !menuOpen && userMenuOpen == old(userMenuOpen)
    {
      menuOpen := false;
    }
  }
}
