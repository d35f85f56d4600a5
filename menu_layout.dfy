/** What the navigation shell renders, as a function of the viewport's
    breakpoint, the shell's two visibility flags and the navigation links. */
module MenuLayout {

  datatype Option<T> = None | Some(value: T)

  /** A navigation entry as the shell receives it; an entry may come
      without a link target (`None` stands for an undefined or null href). */
  datatype MenuLink = MenuLink(caption: string, href: Option<string>)

  /** A strictly positive pixel size. */
  type Pixels = x: int | x > 0 witness 1

  /** The shell's layout constants: the height of the top bar and the width
      of the side panel when pushed open and when reduced. */
  datatype Dimensions = Dimensions(menuHeight: Pixels, sidebarWidthFull: Pixels, sidebarWidthReduced: Pixels)

  /** The index of the first link labelled "Home", if there is one. */
  function FindHome(links: seq<MenuLink>): (r: Option<nat>)
    ensures r.Some? ==> r.value < |links| && links[r.value].caption == "Home"
    ensures r.Some? ==> forall j :: 0 <= j < r.value ==> links[j].caption != "Home"
    ensures r.None? ==> forall j :: 0 <= j < |links| ==> links[j].caption != "Home"
    decreases |links|
  {
    if links == [] then None
    else if links[0].caption == "Home" then Some(0)
    else
      match FindHome(links[1..])
      case None => None
      case Some(i) => Some(i + 1)
  }

  /** Where the desktop logo links to: the first "Home" link's target, or the
      site root when the links hold no "Home" entry or when that entry has no
      target. Later "Home" entries are never consulted. */
  function HomeHref(links: seq<MenuLink>): (r: string)
    ensures forall i ::
      (0 <= i < |links| && links[i].caption == "Home" && (forall j :: 0 <= j < i ==> links[j].caption != "Home"))
      ==> r == (if links[i].href.Some? then links[i].href.value else "/")
    ensures (forall i :: 0 <= i < |links| ==> links[i].caption != "Home") ==> r == "/"
  {
    match FindHome(links)
    case Some(i) =>
      (match links[i].href
       case Some(h) => h
       case None => "/")
    case None => "/"
  }

  /** The viewport counts as mobile exactly when it is not extra large. */
  function IsMobile(isXl: bool): bool {
    isXl == false
  }

  /** The vertical position of the fixed top bar: in place when shown, moved
      up by its own height when hidden. */
  function NavTop(dims: Dimensions, showMenu: bool): (r: int)
    ensures showMenu <==> r == 0
    ensures !showMenu ==> r + dims.menuHeight == 0
  {
    if showMenu then 0 else -(dims.menuHeight as int)
  }

  /** The left margin of the page content beside the side panel: the full
      panel width when the panel is pushed open, the reduced width otherwise. */
  function ContentMarginLeft(dims: Dimensions, isPushed: bool): (r: Pixels)
    ensures isPushed ==> r == dims.sidebarWidthFull
    ensures !isPushed ==> r == dims.sidebarWidthReduced
  {
    if isPushed then dims.sidebarWidthFull else dims.sidebarWidthReduced
  }

  /** The content of the top bar: the hamburger button (showing its close
      icon while the panel is pushed) on mobile, the logo linking home on
      desktop. */
  datatype NavContent = MobileNav(closeIcon: bool) | DesktopNav(logoHref: string)

  /** The area below the bar. On mobile: the side panel, the content with
      its margins, and the overlay that is shown while the panel is pushed.
      On desktop: the content under a fixed margin. */
  datatype Body =
    | MobileBody(panelPushed: bool, contentMarginTop: int, contentMarginLeft: int, overlayShown: bool)
    | DesktopBody(marginTop: int)

  datatype View = View(navTop: int, nav: NavContent, body: Body)

  /** The rendered shell. Mobile and desktop are chosen by the same test for
      the bar and for the body, and on mobile the content's top margin is the
      bar's top offset plus the bar's height (the menu height while the bar
      is shown, 0 while it is hidden). */
  function Render(dims: Dimensions, isXl: bool, isPushed: bool, showMenu: bool, links: seq<MenuLink>): (v: View)
    ensures v.navTop == NavTop(dims, showMenu)
    ensures v.nav.MobileNav? <==> !isXl
    ensures v.body.MobileBody? <==> !isXl
    ensures !isXl ==> v.nav.closeIcon == isPushed && v.body.panelPushed == isPushed && v.body.overlayShown == isPushed
    ensures !isXl ==> v.body.contentMarginTop == v.navTop + dims.menuHeight
    ensures !isXl ==> v.body.contentMarginLeft == ContentMarginLeft(dims, isPushed)
    ensures isXl ==> v.nav.logoHref == HomeHref(links) && v.body.marginTop == dims.menuHeight
  {
    var mobile := IsMobile(isXl);
    var nav := if mobile then MobileNav(isPushed) else DesktopNav(HomeHref(links));
    var body :=
      if mobile then
        MobileBody(isPushed, if showMenu then dims.menuHeight else 0, ContentMarginLeft(dims, isPushed), isPushed)
      else DesktopBody(dims.menuHeight);
    View(NavTop(dims, showMenu), nav, body)
  }

  /** On desktop nothing that is rendered depends on whether the side panel
      is pushed: only the bar's position and the links matter. */
  lemma DesktopIgnoresPushed(dims: Dimensions, isPushed: bool, showMenu: bool, links: seq<MenuLink>)
    ensures Render(dims, true, isPushed, showMenu, links) == Render(dims, true, !isPushed, showMenu, links)
  {
  }
}
