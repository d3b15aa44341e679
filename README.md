# Content-driven landing page: composition, loading and failure containment

This project models the logic core of a single-page marketing site whose
sections (header, hero, products, features, about, footer) are filled from one
content document. It models:

- **Content accessor** (`ContentContext`). `ContentProvider` supplies one
  immutable document. `useContent` throws a configuration error when the
  context value is missing. Otherwise it returns `{content, loading: false,
  error: null}`. The document is a Dafny datatype value, so nothing can change
  it during a session.
- **Image gallery** (`ImageGallery`). This is a class holding the images prop,
  the interval prop, `currentIndex`, the registered timers and a mounted flag.
  Time passes as explicit `Tick` events; one tick means one interval boundary
  has passed. The effect arms a timer only for more than one image. The
  indicator buttons overwrite the index and leave the timer alone. A
  re-render with new props commits only if it does not throw; then a change
  of list length or interval clears the old timer before a new one is armed.
  Unmount clears the timer.
- **Header** (`Header`). The `Menu` class holds the `isMenuOpen` flag, with
  `ToggleMenu` and `ScrollToSection`. `RenderHeader` models the loading guard,
  the optional logo and the mobile menu, which is shown only while the menu is
  open.
- **Features and Footer**. These model the icon tables with their fallbacks,
  one card per feature item, and the footer columns in order.
- **Composition root** (`App`). It covers the fixed section order, with the
  header eager and every other section in its own Suspense wrapper. Each lazy
  import moves from Pending to Ready or Failed. `RenderSlots` renders the page
  or throws the first error in document order. The spinner label has a
  fallback. The `ErrorBoundary` class latches `hasError` and logs exactly one
  error.

A render is a function that returns `Rendered(view)` or `Threw(error)`. Reading
a field of a missing top-level slice of the document throws
`TypeError(reading)`. `reading` is the property JavaScript would read on
`undefined`, taken in the order the component reads it.

Observations from the model:

- Through the real `useContent`, the state never satisfies the sections'
  `loading || !content` guard (`ContentContext.AccessorNeverShowsPlaceholder`).
  The guard's placeholders can be reached only by a caller that builds the
  state itself. The model keeps the guards, with their general contract.
- The gallery does not reset `currentIndex` when the list length changes. The
  index is in range only while the length stays fixed. After a shrink, the
  render with the new list reads `images[currentIndex].src` of `undefined`
  and throws before anything commits, so the effect does not re-run; the old
  timer stays until the error boundary unmounts the gallery
  (`ImageGallery.ShrinkScenario`). In this page the list comes from the static
  document and never changes.

## Model

| member | source | states |
|---|---|---|
| `ContentContext.ContentProvider` | src/contexts/ContentContext.jsx:8-14 | The provider supplies exactly the given document as the context value of its whole subtree. |
| `ContentContext.ReadContext` | src/contexts/ContentContext.jsx:5-18 | Outside a provider the context reads as undefined (no default was given); inside, it reads as the provider's value. |
| `ContentContext.UseContent` | src/contexts/ContentContext.jsx:17-29 | Throws the configuration error "useContent must be used within a ContentProvider" exactly when the context value is falsy; otherwise the content is that value, `loading` is false and `error` is null. |
| `ContentContext.ShowsPlaceholder` | src/components/Header.jsx:24 | The sections' guard (loading, or no content) fires whenever there is no content; when it does not fire, the state is not loading and the content is present, so the fields a section reads next come from a document. |
| `ContentContext.ProvidedDocumentReachesEveryConsumer` | src/contexts/ContentContext.jsx:8-29 | Every consumer under the provider receives exactly the provider's document, and none of them sees the loading guard fire. |
| `ContentContext.AccessorNeverShowsPlaceholder` | src/contexts/ContentContext.jsx:24-28 | A state returned by the accessor never satisfies the loading guard (loading, or no content). |
| `ContentContext.MissingValueThrows` | src/contexts/ContentContext.jsx:20-22 | With no provider, or with a provider whose value is empty, the accessor throws the configuration error. |
| `ImageGallery.Advance` | src/components/ImageGallery.jsx:12 | A firing keeps the index in `[0, n)`, moves from `i` to `i + 1` below the last image, and wraps from `n - 1` to 0. |
| `ImageGallery.AfterTicksIsModular` | src/components/ImageGallery.jsx:11-13 | Starting from an index in range, `k` firings land on `(i + k) mod n`. |
| `ImageGallery.TicksFromZero` | src/components/ImageGallery.jsx:5-13 | From the initial index 0, with `n >= 2`, the index after `k` firings is `k mod n`. |
| `ImageGallery.Indicators` | src/components/ImageGallery.jsx:65-78 | There are no indicators for one image or none; otherwise there is one per image, and indicator `i` is active iff `i` is the current index. |
| `ImageGallery.ExactlyOneIndicatorActive` | src/components/ImageGallery.jsx:71-75 | With more than one image and the index in range, exactly one indicator is active. |
| `ImageGallery.RenderGallery` | src/components/ImageGallery.jsx:34-50 | An empty list renders the "No images available" placeholder without indexing. An index in range shows that image with its indicators. An index past the end throws the TypeError from reading `src` of undefined. |
| `ImageGallery.ArmedTimers` | src/components/ImageGallery.jsx:8-13 | After the effect, there is no timer for one image or none, and exactly one timer over the list length and interval otherwise. |
| `ImageGallery.Gallery.constructor` | src/components/ImageGallery.jsx:4-16 | Mounting starts at index 0. The interval defaults to 4000 ms. The effect arms a timer only for more than one image. |
| `ImageGallery.Gallery.RunEffect` | src/components/ImageGallery.jsx:8-13 | Arming happens only while no timer is registered, and it registers the timers of `ArmedTimers`. |
| `ImageGallery.Gallery.ClearTimers` | src/components/ImageGallery.jsx:15 | The cleanup leaves no registered timer. |
| `ImageGallery.Gallery.Tick` | src/components/ImageGallery.jsx:11-13 | With a live timer, an elapsed interval sets the index to `(prev + 1) mod n`, which is in range. Without one (n <= 1, or unmounted), the index does not change. |
| `ImageGallery.Gallery.TickMany` | src/components/ImageGallery.jsx:11-13 | `k` elapsed intervals give `AfterTicks(prev, n, k)` with a live timer, and no change without one. |
| `ImageGallery.Gallery.GoTo` | src/components/ImageGallery.jsx:67-70 | An indicator click sets the index to the chosen image. The timers are unchanged, so the next firing advances from the chosen index. |
| `ImageGallery.Gallery.SetProps` | src/components/ImageGallery.jsx:5-49 | New props keep the index, and the component renders with them first. A render that throws commits nothing: props and timer stay as they were. A render that succeeds commits the props; the timer is re-armed only when the length or the interval changed, the old timer cleared first. At most one timer stays live. |
| `ImageGallery.Gallery.Unmount` | src/components/ImageGallery.jsx:15 | Teardown clears the timer. It is idempotent. |
| `ImageGallery.Gallery.Render` | src/components/ImageGallery.jsx:34-82 | The view of the committed state, from `images` and `currentIndex`. It never throws, because a render that throws is never committed; for a non-empty list it shows `images[currentIndex]` with its indicators. |
| `ImageGallery.EmptyListScenario` | src/components/ImageGallery.jsx:34-42 | An empty list renders the placeholder and arms no timer, even after an interval elapses. |
| `ImageGallery.TwoFiringsScenario` | src/components/ImageGallery.jsx:11-13 | Three images at 5000 ms: two firings (by 12000 ms) show the third image, with only its indicator active. |
| `ImageGallery.ManualSelectionScenario` | src/components/ImageGallery.jsx:67-70 | Selecting image 2 of 3 does not reset the timer, so the next firing wraps to 0. |
| `ImageGallery.SingleImageScenario` | src/components/ImageGallery.jsx:9 | With one image no timer is armed, and the index stays 0 for any number of intervals. |
| `ImageGallery.TeardownScenario` | src/components/ImageGallery.jsx:15 | After unmount, no elapsed interval changes the index. |
| `ImageGallery.ShrinkScenario` | src/components/ImageGallery.jsx:5-49 | Showing image 3 of 3 and then receiving two images keeps the stale index, so the render throws on `src`. No timer is re-armed: the old three-image timer stays registered until the unmount clears it, leaving none. |
| `Header.MenuStep` | src/components/Header.jsx:11-21 | A toggle flips the menu. A navigation closes it, whether or not its target exists. |
| `Header.MenuAfterParity` | src/components/Header.jsx:8-21 | After any sequence of actions, the menu is open iff an odd number of toggles followed the last navigation. With no navigation, it is the initial state flipped `Toggles(es)` times. |
| `Header.ToggleTwiceAndNavigate` | src/components/Header.jsx:11-21 | Two toggles restore the menu state. Any history ending in a navigation leaves the menu closed. |
| `Header.Menu.constructor` | src/components/Header.jsx:8 | The menu starts closed. |
| `Header.Menu.ToggleMenu` | src/components/Header.jsx:11-13 | `toggleMenu` flips `isMenuOpen`. |
| `Header.Menu.ScrollToSection` | src/components/Header.jsx:15-21 | A scroll is requested iff the target element exists. The menu is closed afterwards in both cases. |
| `Header.RenderHeader` | src/components/Header.jsx:24-150 | Loading or absent content gives the placeholder. A missing brand throws on `logo`; a missing navigation then throws on `items`. Otherwise the brand name is always shown and the logo only when truthy. The items and CTA come from the navigation. The close icon and the mobile menu with the same items appear iff the menu is open. |
| `Header.PlaceholderReadsNothing` | src/components/Header.jsx:24-36 | Two states that both satisfy the guard render identically, whatever their documents and menu states, so no content field is read. |
| `Features.ResolveIcon` | src/components/Features.jsx:94 | "recycle" and "heart" map to their own icons. "leaf", any other name and a missing name give `Leaf`. Every known name gives its table entry. |
| `Features.Cards` | src/components/Features.jsx:93-141 | There is exactly one card per feature item, in list order, carrying the item's title, description and resolved icon. |
| `Features.RenderFeatures` | src/components/Features.jsx:54-141 | Loading or absent content gives the placeholder. A missing features slice throws on `section_title`. Otherwise the section title is shown with one card per item, in order. |
| `Footer.ResolveSocialIcon` | src/components/Footer.jsx:137 | "twitter" and "x" share the X icon. "instagram" and "tiktok" get their own icons. "facebook", unknown names and a missing name give `faFacebook`. |
| `Footer.SectionColumns` | src/components/Footer.jsx:97-130 | There is one column per footer section, in order, listing exactly that section's title and links. |
| `Footer.SocialButtons` | src/components/Footer.jsx:136-159 | There is one social button per entry, in order, with the entry's platform, link and resolved icon. |
| `Footer.RenderFooter` | src/components/Footer.jsx:56-175 | Loading or absent content gives the placeholder. A missing brand throws on `name`; a missing footer then throws on `sections`. Otherwise the columns are the brand column, then one column per section in order, then the Connect column, followed by the copyright. |
| `App.LandingPageSlots` | src/App.jsx:47-69 | The page order is Header, Hero, Products, Features, About, Footer, each section once. Only the header is rendered eagerly; each other section has its own Suspense wrapper. |
| `App.Settle` | src/App.jsx:9-13 | A pending import settles to Ready or Failed. A settled import does not change again, and other sections' states are untouched. |
| `App.SettledStaysSettled` | src/App.jsx:9-13 | Once a section has left Pending, no sequence of settlements changes its state, so there is no placeholder after Ready. |
| `App.OthersDoNotInterfere` | src/App.jsx:50-69 | Settlements of other sections, in any order, leave a section's load state unchanged. |
| `App.LoadingLabel` | src/App.jsx:32 | The spinner label is `content.ui.loading` when that value is present and non-empty, and "Loading..." otherwise. It is never empty. |
| `App.RenderSpinner` | src/App.jsx:16-34 | The spinner throws exactly when the accessor throws; otherwise it shows the label of the provided document. |
| `App.RenderSection` | src/App.jsx:47-69 | Every section calls the accessor first, so an accessor failure is that section's failure. A rendered section shows its own view. |
| `App.RenderSlot` | src/App.jsx:50-69 | A pending lazy section shows the spinner and a failed import rethrows. A ready or eager section renders itself. |
| `App.RenderSlots` | src/App.jsx:47-69 | The page renders iff every slot renders, with one view per slot in slot order. Otherwise the error thrown is that of the first throwing slot. |
| `App.LandingPage` | src/App.jsx:39-72 | The page renders iff every slot of the fixed layout renders. Then it holds one view per section in page order, the header first and shown; every other slot shows its spinner or its own section. |
| `App.AppChildren` | src/App.jsx:121-138 | The landing page under `App`'s provider throws the configuration error iff the bundled document is empty. |
| `App.CompleteDocumentRenders` | src/App.jsx:47-69 | With a complete document and no failed import, the page renders with the header first. Each later slot shows the spinner iff its section is pending, and its own section iff ready. |
| `App.RenderSlotRendersComplete` | src/App.jsx:50-69 | With a complete document and a slot whose import has not failed, the slot renders. It shows the spinner iff its section is pending, and its own section otherwise. |
| `App.ProviderPreventsConfigurationError` | src/App.jsx:121-138 | Under `App`'s provider, with the bundled document present, the page never throws the configuration error. |
| `App.OutsideProviderThrows` | src/App.jsx:47-69 | Without a provider, or under `App`'s provider with an empty bundled document, the eager header throws the configuration error first. |
| `App.OneFailingSectionFailsPage` | src/App.jsx:47-69 | If any one slot throws, the whole page throws. A sibling's partial render is not kept. |
| `App.DerivedStateFromError` | src/App.jsx:81-83 | Any error value gives `hasError: true`. |
| `App.NextHasError` | src/App.jsx:81-90 | After a render pass, the flag is set iff it was set before or the children threw. |
| `App.BoundaryRender` | src/App.jsx:89-116 | The boundary shows the fallback iff `hasError`; otherwise it shows the children unchanged. |
| `App.FallbackIffSomePassThrew` | src/App.jsx:78-116 | From a fresh boundary, the fallback is shown after a sequence of render passes iff one of them threw. |
| `App.ErrorLatches` | src/App.jsx:81-116 | Once set, `hasError` stays set through any render passes. No path resets it. |
| `App.FirstError` | src/App.jsx:81-90 | No pass threw iff there is no first error; otherwise the first error is thrown by some pass that every earlier pass rendered past. |
| `App.FallbackIffFirstError` | src/App.jsx:78-90 | A fresh boundary has captured an error after some passes iff they have a first error. |
| `App.ErrorBoundary.constructor` | src/App.jsx:76-79 | A new boundary has `hasError == false` and an empty log. |
| `App.ErrorBoundary.RenderPass` | src/App.jsx:81-116 | The first throw of the children sets the flag and logs that error once. The screen is the fallback iff the flag is set, and the children otherwise. Exactly one error is ever logged. |
| `App.ErrorBoundary.RenderPasses` | src/App.jsx:81-116 | Over several passes, the flag follows `HasErrorAfter`. A boundary that had already captured an error logs nothing more; a fresh one ends with exactly the first thrown error in its log, or an empty log. Pass `i` shows the fallback iff the flag is set after it, and otherwise that pass's page. |
| `App.FatalContainmentScenario` | src/App.jsx:121-138 | A missing features slice on a loaded page: the boundary shows the fallback on this and the next pass, and logs exactly the one TypeError. |
| `App.ReloadScenario` | src/App.jsx:89-116 | After a throw, a later successful pass still shows the fallback on the same boundary. Reloading re-creates a boundary that shows the page again and a gallery back at index 0. |

## Left out

- Animation: every framer-motion variant, duration, easing, delay and stagger value is left out, along with the visual transition between gallery images. These are floating-point presentation parameters handled by a library.
- Hero, Products and About markup, the decorative particles and the SVG icon component are left out. These three sections appear only as "accessor call, then opaque markup" (`App.RenderSection`). Reads of their own slices are not modelled. About passes `autoRotateInterval={5000}` to the gallery; that value is used as a parameter in the scenarios.
- Browser effects: `document.getElementById` and `scrollIntoView` become the `targetExists` flag of `Header.Menu.ScrollToSection`. `window.location.reload` becomes the construction of fresh objects (`App.ReloadScenario`). `console.error` becomes the boundary's `log` field.
- Real time: `setInterval` scheduling is replaced by `Tick` events, so wall-clock phases and the 12000 ms arithmetic of the two-firing scenario are not modelled. React's scheduling of Suspense retries, concurrent re-renders and the router are left out. The page has one route, and its routing adds no logic.
- Loading of the YAML document is done by the bundler. The document is an opaque immutable value, and only the slices the modelled sections read are represented. Fields inside a present slice are assumed well-formed.
- Icon lookup: property names inherited from `Object.prototype` (such as "constructor") are not modelled. In JavaScript they would find a non-icon value instead of falling back.
- The gallery's `!images` test: it follows `images.length` in the effect's dependency list, so an undefined `images` prop would throw before reaching it. The model takes `images` as always present.
- `toggleMenu` negates the value captured by the render (`!isMenuOpen`), not the latest state. Two toggles batched into one render are not modelled; each toggle is assumed to see the state left by the previous one.
- Which error reaches the boundary when several sections would throw: the model picks the first in document order. Calls of `componentDidCatch` that React would repeat (for example in development mode) are not modelled.
