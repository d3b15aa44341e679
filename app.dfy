// The composition root (src/App.jsx).
//
// `App` nests ErrorBoundary > ContentProvider > router > LandingPage.  The
// landing page shows the header eagerly and the other five sections each in
// its own Suspense wrapper whose fallback is the loading spinner.  A lazily
// imported section is Pending until its import settles, then Ready or
// Failed.  Rendering is a function from the context value, the load states
// and the header's menu state to a page or a thrown error; the boundary
// turns the first thrown error into its fallback for good.

module App {
  import opened ContentContext
  import Header
  import Features
  import Footer
  import ImageGallery

  // ---- page structure ---------------------------------------------------------------

  datatype SectionName = HeaderSection | HeroSection | ProductsSection | FeaturesSection | AboutSection | FooterSection

  /** Top-to-bottom order of the page. */
  const PageOrder: seq<SectionName> :=
    [HeaderSection, HeroSection, ProductsSection, FeaturesSection, AboutSection, FooterSection]

  /** A section as the landing page places it: the header directly, every
      other section inside a Suspense wrapper of its own. */
  datatype Slot = Eager(section: SectionName) | Suspended(section: SectionName)

  /** The children of `LandingPage`, in order. */
  function LandingPageSlots(): (slots: seq<Slot>)
    ensures |slots| == |PageOrder|
    ensures forall i :: 0 <= i < |slots| ==> slots[i].section == PageOrder[i]
    ensures forall i :: 0 <= i < |slots| ==> (slots[i].Eager? <==> slots[i].section == HeaderSection)
    ensures forall i, j :: 0 <= i < j < |slots| ==> slots[i].section != slots[j].section
  {
    [Eager(HeaderSection), Suspended(HeroSection), Suspended(ProductsSection),
     Suspended(FeaturesSection), Suspended(AboutSection), Suspended(FooterSection)]
  }

  function SectionLabel(s: SectionName): string {
    match s
    case HeaderSection => "Header"
    case HeroSection => "Hero"
    case ProductsSection => "Products"
    case FeaturesSection => "Features"
    case AboutSection => "About"
    case FooterSection => "Footer"
  }

  // ---- lazy loading -----------------------------------------------------------------

  datatype LoadState = Pending | Ready | Failed

  /** The settled imports; a section not in the map is still Pending. */
  type Loads = map<SectionName, LoadState>

  function LoadOf(loads: Loads, s: SectionName): LoadState {
    if s in loads then loads[s] else Pending
  }

  /** The import of section `s` settles (`ok` says whether it resolved).  A
      promise settles once: a later settlement changes nothing. */
  function Settle(loads: Loads, s: SectionName, ok: bool): (r: Loads)
    ensures LoadOf(loads, s) == Pending ==> LoadOf(r, s) == (if ok then Ready else Failed)
    ensures LoadOf(loads, s) != Pending ==> LoadOf(r, s) == LoadOf(loads, s)
    ensures forall t :: t != s ==> LoadOf(r, t) == LoadOf(loads, t)
  {
    if LoadOf(loads, s) == Pending then loads[s := if ok then Ready else Failed] else loads
  }

  /** Settlements in any order: a section that has left Pending never returns
      to it and keeps its state. */
  function SettleAll(loads: Loads, events: seq<(SectionName, bool)>): Loads
    decreases |events|
  {
    if events == [] then loads else SettleAll(Settle(loads, events[0].0, events[0].1), events[1..])
  }

  lemma {:induction false} SettledStaysSettled(loads: Loads, events: seq<(SectionName, bool)>, s: SectionName)
    requires LoadOf(loads, s) != Pending
    ensures LoadOf(SettleAll(loads, events), s) == LoadOf(loads, s)
    decreases |events|
  {
    if events != [] {
      SettledStaysSettled(Settle(loads, events[0].0, events[0].1), events[1..], s);
    }
  }

  /** A section's state depends only on its own settlement events: the
      settlements of other sections do not change it. */
  lemma {:induction false} OthersDoNotInterfere(loads: Loads, events: seq<(SectionName, bool)>, s: SectionName)
    requires forall i :: 0 <= i < |events| ==> events[i].0 != s
    ensures LoadOf(SettleAll(loads, events), s) == LoadOf(loads, s)
    decreases |events|
  {
    if events != [] {
      OthersDoNotInterfere(Settle(loads, events[0].0, events[0].1), events[1..], s);
    }
  }

  // ---- rendering ----------------------------------------------------------------------

  const DefaultLoadingLabel: string := "Loading..."

  /** `content?.ui?.loading || "Loading..."`. */
  function LoadingLabel(content: Option<Document>): (text: string)
    ensures text != ""
    ensures (content.Some? && content.value.ui.Some? && Truthy(content.value.ui.value.loading))
              ==> text == content.value.ui.value.loading.value
    ensures (!(content.Some? && content.value.ui.Some? && Truthy(content.value.ui.value.loading)))
              ==> text == DefaultLoadingLabel
  {
    if content.Some? && content.value.ui.Some? && Truthy(content.value.ui.value.loading)
    then content.value.ui.value.loading.value
    else DefaultLoadingLabel
  }

  /** What one slot of the page shows. */
  datatype SlotView =
    | Spinner(text: string)
    | HeaderShown(header: Header.HeaderView)
    | FeaturesShown(features: Features.FeaturesView)
    | FooterShown(footer: Footer.FooterView)
    | MarkupShown(section: SectionName)

  /** `LoadingSpinner`: reads the content through the accessor for its label. */
  function RenderSpinner(ctx: ContextValue): (r: Outcome<SlotView>)
    ensures r.Threw? <==> UseContent(ctx).Threw?
    ensures r.Rendered? ==> r.view == Spinner(LoadingLabel(ReadContext(ctx)))
  {
    match UseContent(ctx)
    case Threw(e) => Threw(e)
    case Rendered(s) => Rendered(Spinner(LoadingLabel(s.content)))
  }

  /** The view belongs to the given section. */
  predicate ShowsSection(v: SlotView, section: SectionName) {
    match v
    case Spinner(_) => false
    case HeaderShown(_) => section == HeaderSection
    case FeaturesShown(_) => section == FeaturesSection
    case FooterShown(_) => section == FooterSection
    case MarkupShown(s) => s == section
  }

  /** A section's own render, once its code is available.  Every section
      calls the accessor first.  Hero, Products and About read their slices
      through it; their markup is not part of this model. */
  function RenderSection(section: SectionName, ctx: ContextValue, menuOpen: bool): (r: Outcome<SlotView>)
    ensures UseContent(ctx).Threw? ==> r == Threw(UseContent(ctx).error)
    ensures r.Rendered? ==> ShowsSection(r.view, section)
  {
    match UseContent(ctx)
    case Threw(e) => Threw(e)
    case Rendered(s) =>
      match section
      case HeaderSection =>
        (match Header.RenderHeader(s, menuOpen)
         case Threw(e) => Threw(e)
         case Rendered(v) => Rendered(HeaderShown(v)))
      case FeaturesSection =>
        (match Features.RenderFeatures(s)
         case Threw(e) => Threw(e)
         case Rendered(v) => Rendered(FeaturesShown(v)))
      case FooterSection =>
        (match Footer.RenderFooter(s)
         case Threw(e) => Threw(e)
         case Rendered(v) => Rendered(FooterShown(v)))
      case _ => Rendered(MarkupShown(section))
  }

  /** One slot: a Suspense wrapper shows the spinner while its import is
      pending and rethrows a failed import. */
  function RenderSlot(slot: Slot, ctx: ContextValue, loads: Loads, menuOpen: bool): (r: Outcome<SlotView>)
    ensures slot.Suspended? && LoadOf(loads, slot.section) == Pending ==> r == RenderSpinner(ctx)
    ensures slot.Suspended? && LoadOf(loads, slot.section) == Failed ==> r == Threw(LoadFailure(SectionLabel(slot.section)))
    ensures slot.Eager? || LoadOf(loads, slot.section) == Ready ==> r == RenderSection(slot.section, ctx, menuOpen)
  {
    match slot
    case Eager(s) => RenderSection(s, ctx, menuOpen)
    case Suspended(s) =>
      match LoadOf(loads, s)
      case Pending => RenderSpinner(ctx)
      case Failed => Threw(LoadFailure(SectionLabel(s)))
      case Ready => RenderSection(s, ctx, menuOpen)
  }

  /** Render the slots in order.  The page renders when every slot renders;
      otherwise the first error in document order propagates. */
  function RenderSlots(slots: seq<Slot>, ctx: ContextValue, loads: Loads, menuOpen: bool): (r: Outcome<seq<SlotView>>)
    ensures r.Rendered? <==> forall i :: 0 <= i < |slots| ==> RenderSlot(slots[i], ctx, loads, menuOpen).Rendered?
    ensures r.Rendered? ==> |r.view| == |slots|
    ensures r.Rendered? ==> forall i :: 0 <= i < |slots| ==> RenderSlot(slots[i], ctx, loads, menuOpen) == Rendered(r.view[i])
    ensures r.Threw? ==> exists i :: 0 <= i < |slots| && RenderSlot(slots[i], ctx, loads, menuOpen) == Threw(r.error)
                                    && forall j :: 0 <= j < i ==> RenderSlot(slots[j], ctx, loads, menuOpen).Rendered?
  {
    if slots == [] then Rendered([])
    else
      match RenderSlot(slots[0], ctx, loads, menuOpen)
      case Threw(e) => Threw(e)
      case Rendered(v) =>
        var rest := RenderSlots(slots[1..], ctx, loads, menuOpen);
        assert forall i :: 1 <= i < |slots| ==> slots[i] == slots[1..][i - 1];
        match rest
        case Threw(e) =>
          ghost var k :| 0 <= k < |slots[1..]| && RenderSlot(slots[1..][k], ctx, loads, menuOpen) == Threw(e)
                        && forall j :: 0 <= j < k ==> RenderSlot(slots[1..][j], ctx, loads, menuOpen).Rendered?;
          assert RenderSlot(slots[k + 1], ctx, loads, menuOpen) == Threw(e);
          Threw(e)
        case Rendered(vs) => Rendered([v] + vs)
  }

  /** `LandingPage`. */
  function LandingPage(ctx: ContextValue, loads: Loads, menuOpen: bool): (r: Outcome<seq<SlotView>>)
    ensures r.Rendered? <==> forall s :: s in LandingPageSlots() ==> RenderSlot(s, ctx, loads, menuOpen).Rendered?
    ensures r.Rendered? ==> |r.view| == |PageOrder| && ShowsSection(r.view[0], HeaderSection)
    ensures r.Rendered? ==> forall i :: 0 <= i < |PageOrder| ==>
              (r.view[i].Spinner? || ShowsSection(r.view[i], PageOrder[i]))
  {
    RenderSlots(LandingPageSlots(), ctx, loads, menuOpen)
  }

  /** The children `App` hands to its boundary: the landing page under a
      provider that supplies the site document. */
  function AppChildren(site: Option<Document>, loads: Loads, menuOpen: bool): (r: Outcome<seq<SlotView>>)
    ensures r == Threw(ConfigurationError(MissingProviderMessage)) <==> site.None?
  {
    LandingPage(ContentProvider(site), loads, menuOpen)
  }

  // ---- properties of the composition ------------------------------------------

  /** A document with every slice the sections read. */
  predicate Complete(d: Document) {
    d.navigation.Some? && d.brand.Some? && d.features.Some? && d.footer.Some?
  }

  /** With a complete document, a page renders whatever has loaded, as long
      as no import failed; each slot shows its own section once Ready and the
      spinner while Pending, in the fixed page order. */
  lemma CompleteDocumentRenders(site: Document, loads: Loads, menuOpen: bool)
    requires Complete(site)
    requires forall s :: LoadOf(loads, s) != Failed
    ensures AppChildren(Some(site), loads, menuOpen).Rendered?
    ensures var v := AppChildren(Some(site), loads, menuOpen).view;
            && |v| == |PageOrder|
            && v[0].HeaderShown?
            && forall i :: 1 <= i < |v| ==>
                 && (LoadOf(loads, PageOrder[i]) == Pending <==> v[i] == Spinner(LoadingLabel(Some(site))))
                 && (LoadOf(loads, PageOrder[i]) == Ready <==> ShowsSection(v[i], PageOrder[i]))
  {
  }

  lemma RenderSlotRendersComplete(slot: Slot, site: Document, loads: Loads, menuOpen: bool)
    requires Complete(site)
    requires LoadOf(loads, slot.section) != Failed
    ensures RenderSlot(slot, ContentProvider(Some(site)), loads, menuOpen).Rendered?
    ensures RenderSlot(slot, ContentProvider(Some(site)), loads, menuOpen).view.Spinner?
            <==> (slot.Suspended? && LoadOf(loads, slot.section) == Pending)
    ensures ShowsSection(RenderSlot(slot, ContentProvider(Some(site)), loads, menuOpen).view, slot.section)
            <==> (slot.Eager? || LoadOf(loads, slot.section) == Ready)
  {
  }

  /** Under the provider, with the bundled document present, the accessor
      never fails, so no section can raise the configuration error. */
  lemma ProviderPreventsConfigurationError(site: Document, loads: Loads, menuOpen: bool)
    ensures !AppChildren(Some(site), loads, menuOpen).Threw?
            || !AppChildren(Some(site), loads, menuOpen).error.ConfigurationError?
  {
  }

  /** Without a provider, or under `App`'s provider when the bundled
      document is empty, the eagerly rendered header is the first to call
      the accessor, so the page throws the configuration error. */
  lemma OutsideProviderThrows(loads: Loads, menuOpen: bool)
    ensures LandingPage(NoProvider, loads, menuOpen) == Threw(ConfigurationError(MissingProviderMessage))
    ensures AppChildren(None, loads, menuOpen) == Threw(ConfigurationError(MissingProviderMessage))
  {
  }

  /** One failing section makes the whole page throw, even when every other
      section is fine. */
  lemma OneFailingSectionFailsPage(site: Document, loads: Loads, menuOpen: bool, i: nat)
    requires i < |LandingPageSlots()|
    requires RenderSlot(LandingPageSlots()[i], ContentProvider(Some(site)), loads, menuOpen).Threw?
    ensures AppChildren(Some(site), loads, menuOpen).Threw?
  {
  }

  // ---- error boundary ------------------------------------------------------------

  datatype BoundaryState = BoundaryState(hasError: bool)

  /** `static getDerivedStateFromError(error)`: any error yields `hasError: true`. */
  function DerivedStateFromError(e: Error): (s: BoundaryState)
    ensures s.hasError
  {
    BoundaryState(true)
  }

  /** What the boundary puts on the screen. */
  datatype Screen = ErrorFallback | PageShown(sections: seq<SlotView>)

  /** The boundary's state after one render pass of its children. */
  function NextHasError(hasError: bool, children: Outcome<seq<SlotView>>): (h: bool)
    ensures h <==> hasError || children.Threw?
  {
    if !hasError && children.Threw? then DerivedStateFromError(children.error).hasError else hasError
  }

  /** `render()`: the fallback once an error was captured, otherwise the
      children as they rendered. */
  function BoundaryRender(hasError: bool, children: Outcome<seq<SlotView>>): (s: Screen)
    requires hasError || children.Rendered?
    ensures s.ErrorFallback? <==> hasError
    ensures !hasError ==> s.sections == children.view
  {
    if hasError then ErrorFallback else PageShown(children.view)
  }

  /** The state after a sequence of render passes. */
  function HasErrorAfter(hasError: bool, passes: seq<Outcome<seq<SlotView>>>): bool {
    if passes == [] then hasError
    else NextHasError(HasErrorAfter(hasError, passes[..|passes| - 1]), passes[|passes| - 1])
  }

  /** Starting from a fresh boundary, the fallback is shown after a sequence
      of passes exactly when one of them threw. */
  lemma {:induction false} FallbackIffSomePassThrew(passes: seq<Outcome<seq<SlotView>>>)
    ensures HasErrorAfter(false, passes) <==> exists i :: 0 <= i < |passes| && passes[i].Threw?
  {
    if passes != [] {
      var init := passes[..|passes| - 1];
      FallbackIffSomePassThrew(init);
      if exists i :: 0 <= i < |init| && init[i].Threw? {
        var i :| 0 <= i < |init| && init[i].Threw?;
        assert passes[i] == init[i];
      }
      if exists i :: 0 <= i < |passes| && passes[i].Threw? {
        var i :| 0 <= i < |passes| && passes[i].Threw?;
        if i < |init| {
          assert init[i] == passes[i];
        }
      }
    }
  }

  /** Nothing clears the flag: once set, it stays set through any passes. */
  lemma {:induction false} ErrorLatches(passes: seq<Outcome<seq<SlotView>>>)
    ensures HasErrorAfter(true, passes)
  {
    if passes != [] {
      ErrorLatches(passes[..|passes| - 1]);
    }
  }

  /** The first error thrown over a sequence of passes, if any. */
  function FirstError(passes: seq<Outcome<seq<SlotView>>>): (e: Option<Error>)
    ensures e.None? <==> forall i :: 0 <= i < |passes| ==> passes[i].Rendered?
    ensures e.Some? ==> exists i :: 0 <= i < |passes| && passes[i] == Threw(e.value)
                                   && forall j :: 0 <= j < i ==> passes[j].Rendered?
  {
    if passes == [] then None
    else
      var init := passes[..|passes| - 1];
      var last := passes[|passes| - 1];
      var e := FirstError(init);
      assert forall i :: 0 <= i < |init| ==> init[i] == passes[i];
      if e.Some? then e
      else if last.Threw? then Some(last.error)
      else None
  }

  /** A fresh boundary has captured an error exactly when some pass threw a
      first error. */
  lemma {:induction false} FallbackIffFirstError(passes: seq<Outcome<seq<SlotView>>>)
    ensures HasErrorAfter(false, passes) <==> FirstError(passes).Some?
  {
    if passes != [] {
      FallbackIffFirstError(passes[..|passes| - 1]);
    }
  }

  class ErrorBoundary {
    var hasError: bool
    /** What `componentDidCatch` sent to the console. */
    var log: seq<Error>

    /** The boundary logs exactly one error, the one that set the flag. */
    ghost predicate Valid()
      reads this
    {
      if hasError then |log| == 1 else log == []
    }

    constructor ()
      ensures Valid() && !hasError && log == []
    {
      hasError := false;
      log := [];
    }

    /** One render pass.  While no error was captured the children render;
        if they throw, the boundary captures the error, logs it, and renders
        the fallback.  Once captured, the children are not rendered again. */
    method RenderPass(children: Outcome<seq<SlotView>>) returns (screen: Screen)
      requires Valid()
      modifies this
      ensures Valid()
      ensures hasError == NextHasError(old(hasError), children)
      ensures log == (if !old(hasError) && children.Threw? then [children.error] else old(log))
      ensures screen == BoundaryRender(hasError, children)
    {
      if !hasError && children.Threw? {
        hasError := DerivedStateFromError(children.error).hasError;
        log := log + [children.error];
      }
      screen := BoundaryRender(hasError, children);
    }

    /** Several passes; the screens shown, one per pass. */
    method RenderPasses(passes: seq<Outcome<seq<SlotView>>>) returns (screens: seq<Screen>)
      requires Valid()
      modifies this
      ensures Valid()
      ensures hasError == HasErrorAfter(old(hasError), passes)
      ensures old(hasError) ==> log == old(log)
      ensures !old(hasError) ==> log == (if FirstError(passes).Some? then [FirstError(passes).value] else [])
      ensures |screens| == |passes|
      ensures forall i :: 0 <= i < |passes| ==>
                screens[i] == BoundaryRender(HasErrorAfter(old(hasError), passes[..i + 1]), passes[i])
    {
      screens := [];
      var i := 0;
      while i < |passes|
        invariant 0 <= i <= |passes| && Valid()
        invariant hasError == HasErrorAfter(old(hasError), passes[..i])
        invariant old(hasError) ==> log == old(log)
        invariant !old(hasError) ==> (hasError <==> FirstError(passes[..i]).Some?)
        invariant !old(hasError) ==> log == (if FirstError(passes[..i]).Some? then [FirstError(passes[..i]).value] else [])
        invariant |screens| == i
        invariant forall k :: 0 <= k < i ==>
                    screens[k] == BoundaryRender(HasErrorAfter(old(hasError), passes[..k + 1]), passes[k])
      {
        assert passes[..i + 1][..i] == passes[..i];
        var screen := RenderPass(passes[i]);
        screens := screens + [screen];
        i := i + 1;
      }
      assert passes[..|passes|] == passes;
    }
  }

  // ---- scenarios ----------------------------------------------------------------

  /** A fully loaded page whose document lacks the features slice: the
      feature grid throws, the boundary shows the fallback, logs that one
      error, and keeps the fallback on the next pass. */
  method FatalContainmentScenario(site: Document, menuOpen: bool)
      returns (first: Screen, second: Screen, logged: seq<Error>)
    requires site.navigation.Some? && site.brand.Some? && site.features.None?
    ensures first == ErrorFallback && second == ErrorFallback
    ensures logged == [TypeError("section_title")]
  {
    var loads := map[HeroSection := Ready, ProductsSection := Ready, FeaturesSection := Ready,
                     AboutSection := Ready, FooterSection := Ready];
    var ctx := ContentProvider(Some(site));
    var slots := LandingPageSlots();
    assert RenderSlot(slots[0], ctx, loads, menuOpen).Rendered?;
    assert RenderSlot(slots[1], ctx, loads, menuOpen).Rendered?;
    assert RenderSlot(slots[2], ctx, loads, menuOpen).Rendered?;
    assert RenderSlot(slots[3], ctx, loads, menuOpen) == Threw(TypeError("section_title"));
    var children := AppChildren(Some(site), loads, menuOpen);
    var b := new ErrorBoundary();
    first := b.RenderPass(children);
    second := b.RenderPass(AppChildren(Some(site), loads, menuOpen));
    logged := b.log;
  }

  /** After an error no later pass brings the page back on the same
      boundary; the reload action re-creates everything: a fresh boundary
      that renders the page again and a fresh gallery at the first image. */
  method ReloadScenario(images: seq<Image>, e: Error, page: seq<SlotView>)
      returns (failed: Screen, stuck: Screen, reloaded: Screen, index: nat)
    ensures failed == ErrorFallback && stuck == ErrorFallback
    ensures reloaded == PageShown(page) && index == 0
  {
    var b := new ErrorBoundary();
    var g := new ImageGallery.Gallery(images, Some(5000));
    g.Tick();
    failed := b.RenderPass(Threw(e));
    stuck := b.RenderPass(Rendered(page));
    b := new ErrorBoundary();
    g := new ImageGallery.Gallery(images, Some(5000));
    reloaded := b.RenderPass(Rendered(page));
    index := g.currentIndex;
  }
}
