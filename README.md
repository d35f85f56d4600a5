# Navigation shell of pancake-uikit, modelled in Dafny

The `Menu` widget of pancake-uikit is the responsive navigation shell of the
application: a fixed top bar, a side panel that can be pushed open, and the
page content. Its behaviour is a small state machine:

- a throttled scroll handler hides the top bar when the user scrolls down and
  shows it again when the user scrolls up or reaches the top of the page, and
  ignores events at the exact bottom of the page;
- the side panel's "pushed" flag starts open on extra-large viewports, is set
  by the hamburger button and cleared by a click on the mobile overlay;
- what is rendered (mobile or desktop bar and body, the bar's vertical
  offset, the content's margins, the logo's link target) is derived from
  those flags, the breakpoint and the navigation links.

The project has three modules:

- `MenuScroll` (`menu_scroll.dfy`): the scroll rule as a pure transition
  `Step` over `(showMenu, prevOffset)`, its fold `Run` over a sequence of
  delivered events, and an independent, backward reading `ShownAfter` /
  `LastOffset` of where a run ends, with the lemmas connecting them.
- `MenuLayout` (`menu_layout.dfy`): the pure derivations: the "Home" link
  lookup, the logo's link target, the bar offset, the content margin, and the
  rendered view.
- `Menu` (`menu.dfy`): the class `MenuShell` with the three cells the
  component keeps (`isPushed` and `showMenu` state, the `prevOffset` ref) and
  the handlers that update them, each proved against the pure model.

The DOM values the handler reads (`window.pageYOffset`,
`document.body.clientHeight`, `window.innerHeight`) are method parameters, and
the breakpoint flag `isXl` is an input. The constants `MENU_HEIGHT`,
`SIDEBAR_WIDTH_FULL` and `SIDEBAR_WIDTH_REDUCED` live in a config file that
is not part of this model; they are fields of a `Dimensions` value, each an
arbitrary positive integer. The link type is declared in a types file that
is not part of this model; a link's `href` is optional here (`None` for an
undefined or null target), because the logo's `?? "/"` fallback covers a
missing one. A link's `label` is the field `caption` of `MenuLink`, because
`label` is a reserved word in Dafny.

## Model

| member | source | states |
|---|---|---|
| MenuScroll.Step | packages/pancake-uikit/src/widgets/Menu/Menu.tsx:108-129 | after one event the remembered offset is the event's offset; at the top the bar is shown whatever it was; at the exact bottom (and not the top) visibility is unchanged; elsewhere the bar is shown exactly when the offset decreased, so a level offset hides it |
| MenuScroll.RunConcat | packages/pancake-uikit/src/widgets/Menu/Menu.tsx:108-130 | delivering events in two batches ends in the same state as delivering them together |
| MenuScroll.RunMatchesShownAfter | packages/pancake-uikit/src/widgets/Menu/Menu.tsx:108-129 | for every start state and event sequence, the forward fold of the handler ends with the newest event's offset (or the initial one) and with the visibility read backwards from the newest event that is not absorbed at the bottom |
| MenuScroll.RunRemembersLastOffset | packages/pancake-uikit/src/widgets/Menu/Menu.tsx:128 | after any non-empty run the remembered offset is the newest event's offset |
| MenuScroll.RunEndingAtTopShows | packages/pancake-uikit/src/widgets/Menu/Menu.tsx:113-116 | a run whose newest event is at the top of the page ends with the bar shown |
| MenuScroll.BottomEventsKeepVisibility | packages/pancake-uikit/src/widgets/Menu/Menu.tsx:110-119 | any number of events at the exact bottom of the page, none at the top, leave visibility as it was |
| MenuScroll.SteadyDescentHides | packages/pancake-uikit/src/widgets/Menu/Menu.tsx:120-126 | a non-empty run of non-decreasing offsets in the middle of the page ends with the bar hidden, whatever its start |
| MenuScroll.RepeatedEventHides | packages/pancake-uikit/src/widgets/Menu/Menu.tsx:120-125 | the same mid-page event delivered twice hides the bar: an unchanged offset counts as scrolling down |
| MenuScroll.UpThenDownHidesAgain | packages/pancake-uikit/src/widgets/Menu/Menu.tsx:120-126 | a mid-page move up shows the bar and a following mid-page move down or level hides it again |
| MenuLayout.FindHome | packages/pancake-uikit/src/widgets/Menu/Menu.tsx:160 | the result, when present, is the index of a link labelled "Home" with no such link before it; absent exactly when no link is labelled "Home" |
| MenuLayout.HomeHref | packages/pancake-uikit/src/widgets/Menu/Menu.tsx:160-165 | the logo links to the href of the first link labelled "Home"; it links to "/" when there is no such link or when that first "Home" link has no href (undefined or null), later "Home" links not being consulted |
| MenuLayout.NavTop | packages/pancake-uikit/src/widgets/Menu/Menu.tsx:27-29 | the bar's top offset is 0 exactly when it is shown, and minus the menu height (so negative, the bar lying wholly above the viewport) when hidden |
| MenuLayout.ContentMarginLeft | packages/pancake-uikit/src/widgets/Menu/Menu.tsx:69-74 | the content's left margin is the full sidebar width when pushed and the reduced width otherwise |
| MenuLayout.Render | packages/pancake-uikit/src/widgets/Menu/Menu.tsx:176-207 | bar and body are both mobile exactly when the viewport is not extra large; on mobile the hamburger icon, panel and overlay follow `isPushed` and the content's top margin equals the bar's top offset plus the menu height (the menu height while shown, 0 while hidden); on desktop the logo links to the home href and the body sits one menu height down |
| MenuLayout.DesktopIgnoresPushed | packages/pancake-uikit/src/widgets/Menu/Menu.tsx:176-207 | on an extra-large viewport the rendered view does not depend on `isPushed` |
| Menu.MenuShell.constructor | packages/pancake-uikit/src/widgets/Menu/Menu.tsx:101-105 | at mount `isPushed` is `!isMobile` (that is, `isXl`), the bar is shown and the remembered offset is the page offset |
| Menu.MenuShell.HandleScroll | packages/pancake-uikit/src/widgets/Menu/Menu.tsx:108-129 | the new (showMenu, prevOffset) is `Step` of the old one; top shows, bottom keeps, up shows, down or level hides; prevOffset becomes the current offset; `isPushed` is untouched |
| Menu.MenuShell.PushNav | packages/pancake-uikit/src/widgets/Menu/Menu.tsx:193 | the panel's setter sets `isPushed` to the given value and changes nothing else |
| Menu.MenuShell.ToggleMenuClick | packages/pancake-uikit/src/widgets/Menu/Menu.tsx:144-146 | the hamburger button sets `isPushed` to true whatever it was (so a second click is a no-op) and changes nothing else |
| Menu.MenuShell.OverlayClick | packages/pancake-uikit/src/widgets/Menu/Menu.tsx:199-201 | a click on the overlay sets `isPushed` to false and changes nothing else |
| Menu.MenuShell.View | packages/pancake-uikit/src/widgets/Menu/Menu.tsx:176-207 | the current view's bar is at 0 exactly when `showMenu` holds; on mobile the hamburger and overlay reflect `isPushed`; on desktop the logo links to the home href |

## Left out

- `lodash/throttle` (Menu.tsx line 130): a timing library; each event the throttle lets through is one call of `HandleScroll` (one element of a `Run`), and which events it drops is not modelled.
- Registering and removing the scroll listener and the React effect lifecycle: framework plumbing with no state rules of its own.
- DOM values are integers: the browser may report fractional offsets and heights, which would only make the exact-bottom test rarer.
- `isXl` is a boolean: the source tests `isXl === false`, so an undefined breakpoint value would count as desktop; that case is not modelled.
- `isMobile` is recomputed on every render while `isPushed`'s initial value is taken once at mount; the model reflects this by passing `isXl` to `View`/`Render` separately from the constructor.
- CSS media queries: the content's left margin and maximum width (Menu.tsx lines 68-75) and the overlay's hiding (lines 82-84) apply only at the `nav` breakpoint; the model states the margin value but not when the browser applies it, and leaves the max-width rule (which subtracts the same width) out.
- Styling without state (flex layout, transitions, colours, `justify-content`), the wallet button (`UserBlock`), and the sub-components `Panel`, `TopMenu`, `MenuButton`, `Overlay`, whose code is not part of this model; `Panel` appears only through the `PushNav` setter it receives.
- The colour tables in `theme/colors.ts` and the prop types in `components/ButtonMenu/types.ts`: declarative data and types with no behaviour.
