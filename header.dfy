/** The logic of frontend/src/components/mvpblocks/header-1.tsx: avatar
    initials, the `scrolled` flag, the data-scroll quantisation, the header
    class choice and the two menu flags. Scroll positions are whole pixels. */
module Header {
  import opened Common
  import opened Collections

  /** `parts.map(part => part[0]).join("")`: an empty part's `part[0]` is
      undefined, which `join` writes as nothing. */
  function FirstChars(parts: seq<string>): string
  {
    if parts == [] then "" else (if parts[0] == "" then "" else [parts[0][0]]) + FirstChars(parts[1..])
  }

  function NonEmptyParts(parts: seq<string>): seq<string>
  {
    Filter(parts, (p: string) => p != "")
  }

  /** One character per non-empty part, its first, in order. */
  lemma {:induction false} FirstCharsSpec(parts: seq<string>)
    ensures |FirstChars(parts)| == |NonEmptyParts(parts)|
    ensures forall i :: 0 <= i < |NonEmptyParts(parts)| ==>
      NonEmptyParts(parts)[i] != "" && FirstChars(parts)[i] == NonEmptyParts(parts)[i][0]
  {
    if parts != [] {
      FirstCharsSpec(parts[1..]);
    }
  }

  /** getInitials: "GT" for a null or empty name; otherwise the uppercased
      first characters of the space-separated parts, cut to two. */
  function Initials(name: Option<string>): (r: string)
    ensures |r| <= 2
    ensures name.None? || name.value == "" ==> r == "GT"
  {
    if name.None? || name.value == "" then "GT"
    else Take(ToUpper(FirstChars(Split(name.value, ' '))), 2)
  }

  /** For a non-empty name the initials are the uppercased first letters of
      its first (at most) two non-empty parts. */
  lemma InitialsOfName(name: string)
    requires name != ""
    ensures var ps := NonEmptyParts(Split(name, ' '));
      && |Initials(Some(name))| == (if |ps| < 2 then |ps| else 2)
      && forall i :: 0 <= i < |Initials(Some(name))| ==> Initials(Some(name))[i] == UpperChar(ps[i][0])
  {
    FirstCharsSpec(Split(name, ' '));
  }

  /** A name of spaces only has no non-empty part and gives "", not "GT". */
  lemma OnlySpacesGiveEmpty(n: nat)
    requires n > 0
    ensures Initials(Some(seq(n, _ => ' '))) == ""
  {
    var name := seq(n, _ => ' ');
    SpacesSplitEmpty(name);
    FirstCharsSpec(Split(name, ' '));
  }

  lemma {:induction false} SpacesSplitEmpty(s: string)
    requires forall i :: 0 <= i < |s| ==> s[i] == ' '
    ensures forall j :: 0 <= j < |Split(s, ' ')| ==> Split(s, ' ')[j] == ""
    ensures NonEmptyParts(Split(s, ' ')) == []
  {
    if s != [] {
      SpacesSplitEmpty(s[1..]);
    }
  }

  /** `setScrolled(y > 20)`. */
  predicate Scrolled(y: int)
  {
    y > 20
  }

  /** `Math.min(80, Math.floor(scrollY / 10) * 10)`. */
  function DataScroll(y: int): (r: int)
    ensures r <= 80 && r <= y
    ensures y >= 0 ==> 0 <= r && r % 10 == 0
    ensures r == 80 || y < r + 10
  {
    var q := FloorDiv(y, 10) * 10;
    if q < 80 then q else 80
  }

  datatype HeaderClass = ScrolledClass | TransparentClass | DefaultClass

  /** scrolled wins; otherwise the landing page is transparent. */
  function HeaderClassFor(scrolled: bool, isLandingPage: bool): (c: HeaderClass)
    ensures c == ScrolledClass <==> scrolled
    ensures c == TransparentClass <==> !scrolled && isLandingPage
  {
    if scrolled then ScrolledClass else if isLandingPage then TransparentClass else DefaultClass
  }

  class HeaderState {
    var scrolled: bool
    var mobileMenuOpen: bool
    var userMenuOpen: bool

    constructor ()
      ensures !scrolled && !mobileMenuOpen && !userMenuOpen
    {
      scrolled, mobileMenuOpen, userMenuOpen := false, false, false;
    }

    method OnScroll(y: int)
      modifies this
      ensures scrolled == Scrolled(y)
      ensures mobileMenuOpen == old(mobileMenuOpen) && userMenuOpen == old(userMenuOpen)
    {
      scrolled := y > 20;
    }

    method ToggleUserMenu()
      modifies this
      ensures userMenuOpen == !old(userMenuOpen)
      ensures scrolled == old(scrolled) && mobileMenuOpen == old(mobileMenuOpen)
    {
      userMenuOpen := !userMenuOpen;
    }

    method ToggleMobileMenu()
      modifies this
      ensures mobileMenuOpen == !old(mobileMenuOpen)
      ensures scrolled == old(scrolled) && userMenuOpen == old(userMenuOpen)
    {
      mobileMenuOpen := !mobileMenuOpen;
    }

    /** A link in the user menu. */
    method CloseUserMenu()
      modifies this
      ensures !userMenuOpen
      ensures scrolled == old(scrolled) && mobileMenuOpen == old(mobileMenuOpen)
    {
      userMenuOpen := false;
    }

    /** A link in the mobile menu. */
    method CloseMobileMenu()
      modifies this
      ensures !mobileMenuOpen
      ensures scrolled == old(scrolled) && userMenuOpen == old(userMenuOpen)
    {
      mobileMenuOpen := false;
    }

    /** handleLogout after the request: the user menu closes only when the
        logout succeeded. */
    method LogoutFinished(succeeded: bool)
      modifies this
      ensures userMenuOpen == (old(userMenuOpen) && !succeeded)
      ensures scrolled == old(scrolled) && mobileMenuOpen == old(mobileMenuOpen)
    {
      if succeeded {
        userMenuOpen := false;
      }
    }
  }
}
