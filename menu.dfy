/** The navigation shell's mutable state: the pushed flag of the side panel,
    the visibility of the top bar and the remembered page offset, with the
    handlers that update them. */
module Menu {
  import opened MenuScroll
  import opened MenuLayout

  class MenuShell {
    /** Whether the side panel is pushed open. */
    var isPushed: bool
    /** Whether the top bar is shown. */
    var showMenu: bool
    /** The page offset seen at the previous scroll event. */
    var prevOffset: int

    /** The part of the state that scroll events read and write. */
    function Scroll(): ScrollState
      reads this
    {
      ScrollState(showMenu, prevOffset)
    }

    /** Mounting the shell: the panel starts pushed exactly on a desktop
        viewport, the bar starts shown, and the remembered offset is the page
        offset at that moment. */
    constructor (isXl: bool, pageYOffset: int)
      ensures isPushed == !IsMobile(isXl) && isPushed == isXl
      ensures showMenu
      ensures prevOffset == pageYOffset
    {
      isPushed := !IsMobile(isXl);
      showMenu := true;
      prevOffset := pageYOffset;
    }

    /** One delivered scroll event, with the page offset, the body's client
        height and the viewport's inner height read at that moment. */
    method HandleScroll(currentOffset: int, bodyClientHeight: int, innerHeight: int)
      modifies this`showMenu, this`prevOffset
      ensures Scroll() == Step(old(Scroll()), ScrollEvent(currentOffset, bodyClientHeight, innerHeight))
      ensures currentOffset == 0 ==> showMenu
      ensures currentOffset != 0 && bodyClientHeight == currentOffset + innerHeight ==> showMenu == old(showMenu)
      ensures currentOffset != 0 && bodyClientHeight != currentOffset + innerHeight ==>
        (showMenu <==> currentOffset < old(prevOffset))
      ensures prevOffset == currentOffset
      ensures isPushed == old(isPushed)
    {
      var isBottomOfPage := bodyClientHeight == currentOffset + innerHeight;
      var isTopOfPage := currentOffset == 0;
      if isTopOfPage {
        showMenu := true;
      } else if !isBottomOfPage {
        if currentOffset < prevOffset {
          showMenu := true;
        } else {
          showMenu := false;
        }
      }
      prevOffset := currentOffset;
    }

    /** The panel's own request to open or close itself. */
    method PushNav(pushed: bool)
      modifies this`isPushed
      ensures isPushed == pushed
      ensures showMenu == old(showMenu) && prevOffset == old(prevOffset)
    {
      isPushed := pushed;
    }

    /** The hamburger button: despite its "Toggle menu" label it only ever
        opens the panel, so a second click changes nothing. */
    method ToggleMenuClick()
      modifies this`isPushed
      ensures isPushed
      ensures showMenu == old(showMenu) && prevOffset == old(prevOffset)
    {
      PushNav(true);
    }

    /** A click on the mobile overlay closes the panel. */
    method OverlayClick()
      modifies this`isPushed
      ensures !isPushed
      ensures showMenu == old(showMenu) && prevOffset == old(prevOffset)
    {
      PushNav(false);
    }

    /** What the shell renders now, for the viewport's current breakpoint. */
    function View(dims: Dimensions, isXl: bool, links: seq<MenuLink>): (v: MenuLayout.View)
      reads this
      ensures v.navTop == 0 <==> showMenu
      ensures !isXl ==> v.nav == MobileNav(isPushed) && v.body.MobileBody? && v.body.overlayShown == isPushed
      ensures isXl ==> v.nav == DesktopNav(HomeHref(links))
    {
      Render(dims, isXl, isPushed, showMenu, links)
    }
  }
}
