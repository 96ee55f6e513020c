# Cart reminder modal

A verified model of the browser script `app.js`. The script adds a promotional
modal to an e-commerce product page. When the shopper scrolls into the bottom
10% of the page, the modal shows up to two product thumbnails from the mini-cart,
the cart's item count and the subtotal.

The model has three modules:

- `ModalContent` (`modal_content.dfy`) is the modal builder. It turns a
  snapshot of the mini-cart into the modal's content: the quantity badge text,
  the product `<img>` elements (distinct elements, as a page query returns
  them) and the optional subtotal cell. The content is the markup string
  assigned to the header's `innerHTML`, the thumbnails moved into the body, and
  the text block (`<p>`/`<br>` children). `Assemble` keeps the source's
  `appendChild` loop over `i`. The header and subtotal interpolations are pure
  functions. Each has an inverse that reads the inserted text back, which is
  how "inserted verbatim" is stated and proved. For the header this is a
  statement about the assigned markup, not about the text the browser displays
  after parsing it.
- `Visibility` (`visibility.dfy`) is the visibility controller.
  - `Controller` is a class with the script's two flags, `visible`
    (`display:block` vs `display:none`) and the `scrolledDown` latch. It also
    has the `productCount` fixed at page load.
  - The class has one method per registered listener: `CloseModal`,
    `ClickAway` and `OnScroll`. `OpenModal` is the helper the scroll handler
    calls; no listener is registered for it.
  - The pure functions `Step` and `Run` give the same transitions over values.
    The postconditions of the three listener methods tie them to `Step`. The
    lemmas over `Run` state what holds for any sequence of events.
- `CartReminder` (`cart_reminder.dfy`) is the script's top level. It builds
  the content and the controller from one snapshot. It also has three client
  methods that check a three-product example (badge "3", subtotal "$45.00")
  against the contracts alone.

Modelling assumptions:

- **Threshold.** The test `scrollPosition >= scrollMaxHeight * 0.9` uses exact
  `real` arithmetic. In Dafny, `0.9` is exactly 9/10. The source evaluates it in
  IEEE doubles.
- **Host values as inputs.** `window.scrollY` and
  `scrollHeight - clientHeight` are the two parameters of a scroll event. The
  click target's identity is a boolean: whether the target is the overlay.
- **Absent subtotal.** app.js:73 interpolates
  `${subtotal && subtotal.innerText}`, which prints `Subtotal: undefined` when
  the cell is missing; the model follows that (`SubtotalRoundTrip`).

## Model

| member | source | states |
|---|---|---|
| `ModalContent.HeaderText` | app.js:44 | the header markup is "You have ", then the quantity text unchanged, then " items in your cart", and nothing else |
| `ModalContent.HeaderQuantity` | app.js:44 | whatever quantity it reads from a header rebuilds that exact header: the header is the fixed prefix, the quantity and the fixed suffix |
| `ModalContent.HeaderRoundTrip` | app.js:41-44 | the header markup "You have q items in your cart" carries the badge text q verbatim: reading it back gives q (the browser then parses this string as HTML) |
| `ModalContent.SubtotalShownText` | app.js:73 | `subtotal && subtotal.innerText` in a template: the cell's text when the cell exists, the literal "undefined" when it does not |
| `ModalContent.SubtotalLine` | app.js:73 | the subtotal paragraph is "Subtotal: " followed by exactly the shown subtotal text |
| `ModalContent.SubtotalShown` | app.js:73 | whatever text it reads from a subtotal paragraph rebuilds that paragraph as "Subtotal: " followed by that text |
| `ModalContent.SubtotalRoundTrip` | app.js:67-73 | the subtotal paragraph shows the cell's text verbatim when the cell exists, and the literal "undefined" when it is absent |
| `ModalContent.Assemble` | app.js:59-79 | with more than one product the body gets exactly the first two images, in order, and otherwise none. The "...and more in your cart" paragraph is present if and only if there are more than two products. It comes first, followed by a line break and then the subtotal paragraph, which is always last. The header markup carries the quantity verbatim. The images given are distinct elements, as the page query at app.js:59 returns them |
| `Visibility.InBottomZone` | app.js:113 | the bottom-zone test `scrollPosition >= scrollMaxHeight * 0.9` holds exactly when 10 times the position reaches 9 times the maximum, and, for a positive maximum, exactly when the scrolled fraction is at least 0.9 |
| `Visibility.Step` | app.js:92-121 | one event can show a hidden modal only by a scroll that takes the firing branch while `productCount > 1`. The latch changes only in the two scroll branches: firing sets it and re-arming clears it |
| `Visibility.FewProductsNeverShown` | app.js:114-116 | with `productCount <= 1`, no sequence of scroll, close or click events ever makes a hidden modal visible |
| `Visibility.LatchBalance` | app.js:113-120 | over any run, firings plus the initial latch bit equal re-armings plus the final latch bit |
| `Visibility.AtMostOncePerCycle` | app.js:113-120 | over any run, the open branch fires at most once more than the latch was re-armed by scrolling back above 90%, and starting latched it fires no more often than it is re-armed |
| `Visibility.LatchedNeverReopens` | app.js:113-120 | once the latch is set, any events that never scroll above the bottom zone keep it set and never make the modal visible unless it already was |
| `Visibility.DismissIdempotent` | app.js:96-104 | a close-button click or a window click applied twice has the effect of applying it once |
| `Visibility.Controller.constructor` | app.js:17-21 | at page load the modal is hidden, the latch is clear, and the product count is the one given |
| `Visibility.Controller.OpenModal` | app.js:92-94 | the helper the scroll handler calls: the modal becomes visible and the latch is untouched |
| `Visibility.Controller.CloseModal` | app.js:96-98 | the modal becomes hidden unconditionally and the latch is untouched |
| `Visibility.Controller.ClickAway` | app.js:100-104 | the modal is hidden after the click if and only if the target was the overlay or it was already hidden. The latch is untouched |
| `Visibility.Controller.OnScroll` | app.js:108-121 | with the latch clear, a scroll at or past 90% sets it and shows the modal only when `productCount > 1`. With the latch set, such a scroll changes nothing. A scroll below 90% clears the latch and never changes visibility. Each case agrees with `Step` |
| `CartReminder.Install` | app.js:41-65 | the controller starts hidden and unlatched with `productCount` equal to the number of thumbnails found. The body has thumbnails exactly when that count exceeds one, and then it has the first two |

## Left out

- Inline styles, the close button's SVG, the footer's "View Cart" link and its `href`/class attributes (app.js:21-38, 43, 48-49, 53-57, 81-90): presentation only, with no behaviour.
- DOM lookups and listener registration (`getElementsByClassName`, `querySelectorAll`, `addEventListener`, `window.scrollY`, `scrollHeight`/`clientHeight`): host-browser calls. Their results are the parameters of `Assemble`, `Install` and the `Controller` handlers.
- Reparenting of the thumbnails by `appendChild` (app.js:63): moving an element out of the mini-cart list is browser DOM semantics. The model records only which images end up in the modal body, not their removal from the page.
- HTML parsing of the header (app.js:44): the header string is assigned through `innerHTML`, so quantity text with markup characters is not displayed verbatim; the `<b>` wrapper is presentation.
- The fault when the quantity badge is missing (app.js:41): it is an unguarded host error. The model takes the quantity text as a given input.
- Floating-point evaluation of `scrollMaxHeight * 0.9` (app.js:113, 118): replaced by exact real arithmetic, so rounding at the exact boundary is not modelled.
- Event bubbling: a click on the close button also reaches the window click listener. The model treats it as a separate `ClickAway(false)`, which changes nothing.
