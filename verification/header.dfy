/**
  The site header: the session read from the two cookies decides which menu
  entries show, on the desktop bar and in the mobile menu alike.
 */
module Header {
  import opened Js

  /** The menu entries, in the order they are listed. */
  datatype Link = MantenimientosLink | ParqueaderosLink | InformesLink | PersonalLink | LoginLink | LogoutLink

  function Href(l: Link): string {
    match l
    case MantenimientosLink => "/mantenimientos"
    case ParqueaderosLink => "/parqueaderos"
    case InformesLink => "/informes"
    case PersonalLink => "/personal"
    case LoginLink => "/login"
    case LogoutLink => "/logout"
  }

  /** `userRole === 1`. */
  predicate IsAdminRole(userRole: Option<Num>) {
    userRole == Some(Int(1))
  }

  /**
    The desktop bar. The first and third entries are guarded by
    `isLoggedIn && (userRole === 1 || userRole !== 1)`.
   */
  function DesktopLinks(isLoggedIn: bool, userRole: Option<Num>): (ls: seq<Link>)
    ensures MantenimientosLink in ls <==> isLoggedIn
    ensures InformesLink in ls <==> isLoggedIn
    ensures ParqueaderosLink in ls <==> isLoggedIn && IsAdminRole(userRole)
    ensures PersonalLink in ls <==> isLoggedIn && IsAdminRole(userRole)
    ensures LoginLink in ls <==> !isLoggedIn
    ensures LogoutLink in ls <==> isLoggedIn
  {
    var admin := IsAdminRole(userRole);
    (if isLoggedIn && (admin || !admin) then [MantenimientosLink] else [])
    + (if isLoggedIn && admin then [ParqueaderosLink] else [])
    + (if isLoggedIn && (admin || !admin) then [InformesLink] else [])
    + (if isLoggedIn && admin then [PersonalLink] else [])
    + (if !isLoggedIn then [LoginLink] else [LogoutLink])
  }

  /** An entry of the mobile menu: its link, and whether following it closes the menu. */
  datatype MobileEntry = MobileEntry(link: Link, closesMenu: bool)

  /** The mobile menu, written out separately in the header; every entry toggles the menu. */
  function MobileEntries(isLoggedIn: bool, userRole: Option<Num>): (es: seq<MobileEntry>)
    ensures forall i :: 0 <= i < |es| ==> es[i].closesMenu
  {
    var admin := IsAdminRole(userRole);
    (if isLoggedIn && (admin || !admin) then [MobileEntry(MantenimientosLink, true)] else [])
    + (if isLoggedIn && admin then [MobileEntry(ParqueaderosLink, true)] else [])
    + (if isLoggedIn && (admin || !admin) then [MobileEntry(InformesLink, true)] else [])
    + (if isLoggedIn && admin then [MobileEntry(PersonalLink, true)] else [])
    + (if !isLoggedIn then [MobileEntry(LoginLink, true)] else [MobileEntry(LogoutLink, true)])
  }

  /** The links of a run of mobile entries. */
  function Links(es: seq<MobileEntry>): (ls: seq<Link>)
    ensures |ls| == |es| && forall i :: 0 <= i < |es| ==> ls[i] == es[i].link
  {
    if es == [] then [] else [es[0].link] + Links(es[1..])
  }

  lemma {:induction false} LinksAppend(a: seq<MobileEntry>, b: seq<MobileEntry>)
    ensures Links(a + b) == Links(a) + Links(b)
  {
    if a != [] {
      assert (a + b)[1..] == a[1..] + b;
      LinksAppend(a[1..], b);
    }
  }

  /** The mobile menu lists the same links as the desktop bar, in the same order. */
  lemma MobileMatchesDesktop(isLoggedIn: bool, userRole: Option<Num>)
    ensures Links(MobileEntries(isLoggedIn, userRole)) == DesktopLinks(isLoggedIn, userRole)
  {
    var admin := IsAdminRole(userRole);
    var e1 := if isLoggedIn && (admin || !admin) then [MobileEntry(MantenimientosLink, true)] else [];
    var e2 := if isLoggedIn && admin then [MobileEntry(ParqueaderosLink, true)] else [];
    var e3 := if isLoggedIn && (admin || !admin) then [MobileEntry(InformesLink, true)] else [];
    var e4 := if isLoggedIn && admin then [MobileEntry(PersonalLink, true)] else [];
    var e5 := if !isLoggedIn then [MobileEntry(LoginLink, true)] else [MobileEntry(LogoutLink, true)];
    LinksAppend(e1 + e2 + e3 + e4, e5);
    LinksAppend(e1 + e2 + e3, e4);
    LinksAppend(e1 + e2, e3);
    LinksAppend(e1, e2);
  }

  /** Exactly one of the login and logout entries shows. */
  lemma LoginXorLogout(isLoggedIn: bool, userRole: Option<Num>)
    ensures (LoginLink in DesktopLinks(isLoggedIn, userRole)) != (LogoutLink in DesktopLinks(isLoggedIn, userRole))
  {
  }

  class HeaderState {
    var isMenuOpen: bool
    var isLoggedIn: bool
    var userRole: Option<Num>

    /** A role is known only in a session. */
    ghost predicate Valid()
      reads this
    {
      !isLoggedIn ==> userRole.None?
    }

    constructor ()
      ensures !isMenuOpen && !isLoggedIn && userRole.None? && Valid()
    {
      isMenuOpen, isLoggedIn, userRole := false, false, None;
    }

    /**
      The session effect, run on every navigation: logged in iff both
      cookies are truthy, with the parsed role; otherwise no role.
     */
    method DeriveSession(userIdCookie: Option<string>, roleCookie: Option<string>)
      modifies this`isLoggedIn, this`userRole
      ensures isLoggedIn <==> Truthy(userIdCookie) && Truthy(roleCookie)
      ensures isLoggedIn ==> userRole == Some(ParseInt(roleCookie.value))
      ensures Valid()
    {
      if Truthy(userIdCookie) && Truthy(roleCookie) {
        isLoggedIn, userRole := true, Some(ParseInt(roleCookie.value));
      } else {
        isLoggedIn, userRole := false, None;
      }
    }

    /** `toggleMenu`: two toggles restore the menu. */
    method ToggleMenu()
      requires Valid()
      modifies this`isMenuOpen
      ensures isMenuOpen == !old(isMenuOpen) && Valid()
    {
      isMenuOpen := !isMenuOpen;
    }

    /** The mobile navigation: rendered only while the menu is open. */
    function MobileNav(): (nav: Option<seq<MobileEntry>>)
      reads this
      ensures nav.Some? <==> isMenuOpen
    {
      if isMenuOpen then Some(MobileEntries(isLoggedIn, userRole)) else None
    }

    /** Following a mobile link closes the open menu. */
    method FollowMobileLink(e: MobileEntry)
      requires Valid() && isMenuOpen && e.closesMenu
      modifies this`isMenuOpen
      ensures !isMenuOpen && Valid()
    {
      ToggleMenu();
    }
  }

  /** With the role cookie '1', an administrator sees all four sections; any other role sees two. */
  lemma AdminSeesEverySection(n: int)
    ensures var ls := DesktopLinks(true, Some(ParseInt(IntToDecimal(n))));
      (ParqueaderosLink in ls <==> n == 1) && MantenimientosLink in ls && InformesLink in ls
  {
    ParseIntOfDecimal(n);
  }
}
