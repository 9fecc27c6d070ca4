# Brutalism blog theme: page script model

A Dafny model of the client-side page script of a brutalist blog theme for
the Tistory platform (`release/images/script.js`). The script wires a set of
independent event handlers onto the page; each is modelled with the page
state it reads and writes represented as plain data:

- **Theme** (`theme.dfy`): the system colour-scheme probe, the choice between
  a saved preference and the system theme at load, the toggle button, the
  reaction to a system colour-scheme change, and the icon glyph. The page's
  `data-theme` attribute, icon text and local storage are the fields of the
  class `ThemeView`.
- **Mobile menu** (`mobile_menu.dfy`): the nav's `mobile-open` class under the
  toggle-button, nav-link and document click handlers, including event
  propagation (the toggle stops it; a link click bubbles to the document).
- **Article cards** (`article_cards.dfy`): the case-insensitive search filter
  over titles and excerpts, which writes each card's inline `display` in
  place, and the hover shadow colour chosen by card position.
- **Terminal** (`terminal.dfy`): how each scripted line becomes a
  `.terminal-line` element (prompt, command and cursor spans, or plain text),
  and the body being filled with the script's lines in order.
- **Archive filter** (`archive_filter.dfy`): the single active filter button
  and the `hidden` class on archive items.
- **Page type** (`page_type.dfy`): the one body class naming the kind of page.
- `text.dfy` holds the string operations the handlers use (`toLowerCase`,
  `includes`); `wrappers.dfy` the `Option` type.

Behaviour of the code that the model keeps:

- A saved theme can be any string; it is used as it is.
- A light start leaves `data-theme` unset, so the first click reads an absent
  attribute and picks `light` again (`LightStartFirstToggleStaysLight`,
  `Theme.LightPageScenario`).
- Two toggles restore the attribute only from `light` or `dark`
  (`ToggleTwiceRestores`).
- The system colour-scheme listener is installed only when the media query
  can be made; without `matchMedia`, or when the query throws, system changes
  are never followed.
- A saved theme of "" is falsy in the script and so counts as no preference.
- The archive check runs before the category check and is a plain substring
  test, so `/category/archive` is classified as the archive page
  (`CategoryNamedArchiveIsArchive`).
- The last terminal line `$ _` renders its command text ` _` and, because it
  contains `_`, a cursor span as well (`ScriptRendering`, `RenderKeepsText`).

## Model

| member | source | states |
|---|---|---|
| `Theme.Saved` | release/images/script.js:24 | the stored preference is present exactly when the `theme` key is in storage, and is its value |
| `Theme.IsSet` | release/images/script.js:25 | a saved value counts as a preference exactly when it is present and not "" (null and "" are falsy) |
| `Theme.SystemTheme` | release/images/script.js:11-21 | the system theme is light or dark, and dark exactly when the query throws or answers dark |
| `Theme.InitialTheme` | release/images/script.js:24-25 | a truthy saved value wins; otherwise (absent or "") the system theme is used |
| `Theme.InitialAttribute` | release/images/script.js:27-29 | `data-theme` becomes "dark" for the dark theme and is left untouched for any other |
| `Theme.Toggled` | release/images/script.js:47-48 | the toggle picks light or dark, dark exactly when the attribute is "light" (absent counts as not light) |
| `Theme.Glyph` | release/images/script.js:55-57 | the icon is '◑' exactly for `light` and '◐' for every other value |
| `Theme.LightStartFirstToggleStaysLight` | release/images/script.js:27-48 | on a page that starts light the attribute stays unset and the first toggle resolves to light |
| `Theme.ToggleTwiceRestores` | release/images/script.js:46-53 | from "light" or "dark", two toggles restore the attribute |
| `Theme.ToggleAlternates` | release/images/script.js:46-53 | after the first toggle, every further toggle changes the theme |
| `Theme.ThemeView.constructor` | release/images/script.js:24-30 | page load sets the attribute and icon from the initial theme and leaves storage untouched |
| `Theme.ThemeView.OnToggleClick` | release/images/script.js:46-53 | attribute, stored `theme` key and icon all take the toggled theme; storage then holds a truthy preference equal to the attribute |
| `Theme.ThemeView.OnSystemSchemeChange` | release/images/script.js:33-44 | a system change is followed only when the listener was installed and no truthy preference is stored; storage never changes |
| `MobileMenu.Flip` | release/images/script.js:64-67 | the toggle button flips `mobile-open` and keeps every other class |
| `MobileMenu.Close` | release/images/script.js:75-79 | a nav-link click leaves `mobile-open` unset and keeps every other class |
| `MobileMenu.AfterDocumentClick` | release/images/script.js:69-73 | a click inside the nav changes nothing; one outside leaves the menu closed, other classes kept |
| `MobileMenu.OutsideClickIsClose` | release/images/script.js:70-71 | the "only if set" guard is unobservable: an outside click equals plain removal |
| `MobileMenu.FlipTwiceRestores` | release/images/script.js:64-67 | two toggle clicks restore the class list |
| `MobileMenu.Nav.OnToggleClick` | release/images/script.js:64-67 | the nav's classes become their flip |
| `MobileMenu.Nav.OnLinkClick` | release/images/script.js:75-79 | the nav's classes lose `mobile-open` |
| `MobileMenu.Nav.OnDocumentClick` | release/images/script.js:69-73 | the nav's classes follow the document-click rule |
| `MobileMenu.Nav.Click` | release/images/script.js:63-80 | without a toggle button nothing changes; the toggle flips the menu, link and outside clicks close it, inside clicks keep it; other classes are never touched |
| `Text.LowerChar` | release/images/script.js:88 | ASCII capitals map to the letter 32 code points later, every other character to itself |
| `Text.Lower` | release/images/script.js:88 | lower-casing keeps the length, lowers each character in place and leaves no ASCII capital |
| `Text.Includes` | release/images/script.js:95 | `includes` fails when the needle is longer than the string and always holds for the empty needle |
| `Text.IncludesIffOccurs` | release/images/script.js:95 | `includes` holds exactly when the needle occurs at some position of the string |
| `Text.IncludesTransitive` | release/images/script.js:95 | substring containment is transitive |
| `ArticleCards.LoweredText` | release/images/script.js:92-93 | a missing title or excerpt reads as "", a present one as its lower-cased text |
| `ArticleCards.Matches` | release/images/script.js:95 | the empty term matches every card; a card with neither title nor excerpt matches only the empty term |
| `ArticleCards.AfterSearch` | release/images/script.js:91-99 | a card is shown ("") exactly when its lowered title or excerpt includes the lowered term, hidden ("none") otherwise; text and shadow unchanged |
| `ArticleCards.OnSearchInput` | release/images/script.js:87-101 | every card in the collection, in place, becomes its searched form |
| `ArticleCards.EmptySearchShowsAll` | release/images/script.js:95 | an empty term shows every card |
| `ArticleCards.SearchIgnoresCase` | release/images/script.js:88 | typing the term in any case gives the same result |
| `ArticleCards.TypingMoreOnlyHides` | release/images/script.js:87-100 | extending the term can hide cards but never reveals one |
| `ArticleCards.LastSearchWins` | release/images/script.js:95-99 | visibility depends only on the latest input, not on earlier ones |
| `ArticleCards.ShadowColor` | release/images/script.js:155-158 | card `i` gets a preset colour, `colors[i mod 3]` |
| `ArticleCards.ShadowColorsCycle` | release/images/script.js:155-158 | colours repeat every three cards and any three consecutive cards differ |
| `ArticleCards.HoverShadow` | release/images/script.js:160-162 | the hover shadow is `8px 8px 0 ` followed by the card's colour |
| `ArticleCards.OnMouseEnter` | release/images/script.js:160-162 | the hovered card gets its shadow; no other card or field changes |
| `ArticleCards.OnMouseLeave` | release/images/script.js:164-166 | leaving a card clears its shadow; no other card or field changes |
| `Terminal.IsCommand` | release/images/script.js:128 | a line is a command exactly when "$" is a prefix of it |
| `Terminal.Render` | release/images/script.js:128-146 | a line starting with `$` becomes a prompt span, a span with the rest of the text, and a cursor span exactly when the text contains `_`; any other line is plain text |
| `Terminal.RenderKeepsText` | release/images/script.js:128-146 | a rendered line reads back as its text, plus one `_` for a command line containing `_` |
| `Terminal.ScriptDelaysNonDecreasing` | release/images/script.js:113-118 | the scripted delays never decrease, so the timers fire in script order |
| `Terminal.ScriptRendering` | release/images/script.js:113-146 | the four scripted lines render as two commands (the last with a cursor) around two text lines |
| `Terminal.TerminalBody.Play` | release/images/script.js:121-150 | the body is cleared and ends holding the rendered script lines, in script order |
| `ArchiveFilter.Shows` | release/images/script.js:293-296 | the `all` filter shows every item; an item whose category equals the filter is shown; any other filter hides items whose category differs from it |
| `ArchiveFilter.ActivateOnly` | release/images/script.js:288-289 | after a click exactly the clicked button is active; filters and other classes unchanged |
| `ArchiveFilter.FilterItems` | release/images/script.js:292-302 | items keep order, count and category; an item is hidden exactly when the filter is not `all` and differs from its category |
| `ArchiveFilter.ExactlyOneActive` | release/images/script.js:288-289 | the set of active buttons is exactly the clicked one |
| `ArchiveFilter.AllShowsEverything` | release/images/script.js:293-294 | the `all` filter hides no item |
| `ArchiveFilter.LastFilterWins` | release/images/script.js:292-302 | item visibility depends only on the latest filter clicked |
| `ArchiveFilter.LastActivationWins` | release/images/script.js:288-289 | which button is active depends only on the latest click |
| `ArchiveFilter.OnFilterClick` | release/images/script.js:284-303 | in place, the buttons become `ActivateOnly` of the clicked one and the items are filtered by its `data-filter` |
| `PageType.IsPermalink` | release/images/script.js:316 | without `window.T` or its `entryInfo` the page is no permalink; with both, it is one exactly when the entry id is truthy |
| `PageType.PageClass` | release/images/script.js:316-330 | one of four classes, by priority: permalink (truthy entry id), `/archive` in the path, `/category/` in the path, index |
| `PageType.ClassifyBody` | release/images/script.js:312-330 | the body becomes its old classes plus the chosen page class; no other class is added or removed |
| `PageType.ExactlyOnePageClass` | release/images/script.js:316-330 | a body without page classes ends with exactly one |
| `PageType.CategoryNamedArchiveIsArchive` | release/images/script.js:320-326 | `/category/archive` is classified as the archive page |
| `PageType.FalsyEntryIdIsNotPermalink` | release/images/script.js:316 | an entry id of 0 or "" does not make a permalink page |

## Left out

- `local/server.js`: static file serving, the root redirect and startup logging are framework plumbing with no logic of their own.
- Timers: the terminal delays, the 2000 ms label reverts and the glitch interval are not scheduled; the terminal lines are appended in script order, which the non-decreasing delays justify.
- Clipboard copy, the failure `alert` and the share windows (with `encodeURIComponent`): asynchronous browser APIs and foreign calls.
- The title glitch offsets (`Math.random`) and the reading-progress width: random and floating-point presentation.
- Prism highlighting and the `language-*` class tagging: a wrapper over a library outside the model.
- The search button's click handler only moves focus to the input, which has no state in the model.
- Theme.ThemeView.OnSystemSchemeChange: assumes that a media query which answers also supports `addEventListener`; older browsers whose query object lacks it never install the listener.
- Local storage and the colour-scheme query are inputs (a map and a `ColorSchemeQuery`), not real APIs; the system-change listener is modelled as the event it receives.
- The DOM tree is abstracted: `nav.contains(target)` is the `Target` of a click, element lookups are the records and arrays handed to each handler.
- Missing required elements are not modelled: the script stops with an exception when the theme toggle or the theme icon is absent, which also skips the page-type detection at release/images/script.js:311-331 in the same file; with a menu toggle but no nav, the menu's click handlers throw each time they run (the document handler on every click). The model assumes these elements exist.
- Text.LowerChar: maps only the ASCII letters A-Z, not the full Unicode case mapping of `toLowerCase`.
- Text.Lower: maps only the ASCII letters A-Z, not the full Unicode case mapping of `toLowerCase`.
- PageType.IsPermalink: `entryId` values are limited to undefined, null, booleans, integers and strings; other values (NaN, objects) are not modelled.
