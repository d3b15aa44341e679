// The content document and its accessor (src/contexts/ContentContext.jsx).
//
// The document is one immutable value shared by every section; the accessor
// `UseContent` either throws a configuration error or hands that value back
// unchanged, with `loading` false and `error` null.  Rendering a section is
// modelled as a function that either produces a view or throws an error; the
// error values are the ones the sections of this page can raise.

module ContentContext {

  datatype Option<+T> = None | Some(value: T)

  /** The errors a render of this page can raise. */
  datatype Error =
    | ConfigurationError(message: string)  // `throw new Error(...)` in useContent
    | TypeError(reading: string)           // a property read on an undefined slice
    | LoadFailure(section: string)         // a lazily imported section failed to load

  /** The result of rendering one component: a view, or a thrown error. */
  datatype Outcome<+T> = Rendered(view: T) | Threw(error: Error)

  // ---- the content document -------------------------------------------------

  /** A navigation entry; `text` is the document's `label` field (`label` is
      a Dafny keyword). */
  datatype NavItem = NavItem(text: string, href: string)
  datatype Navigation = Navigation(items: seq<NavItem>, ctaButton: string)
  datatype Brand = Brand(name: string, tagline: string, logo: Option<string>)
  datatype FeatureItem = FeatureItem(icon: Option<string>, title: string, description: string)
  datatype FeaturesSlice = FeaturesSlice(sectionTitle: string, items: seq<FeatureItem>)
  datatype Link = Link(name: string, href: string)
  datatype LinkGroup = LinkGroup(title: string, links: seq<Link>)
  datatype Social = Social(platform: string, href: string, icon: Option<string>)
  datatype FooterSlice = FooterSlice(sections: seq<LinkGroup>, social: seq<Social>, copyright: string)
  datatype Image = Image(src: string, alt: string)
  datatype UiSlice = UiSlice(loading: Option<string>)

  /** The site document.  Each top-level slice may be absent; a component that
      reads a field of an absent slice throws a TypeError. */
  datatype Document = Document(
    navigation: Option<Navigation>,
    brand: Option<Brand>,
    features: Option<FeaturesSlice>,
    footer: Option<FooterSlice>,
    ui: Option<UiSlice>)

  /** JavaScript truthiness of an optional string: present and non-empty. */
  predicate Truthy(s: Option<string>) {
    s.Some? && s.value != ""
  }

  // ---- provider and accessor ------------------------------------------------

  const MissingProviderMessage: string := "useContent must be used within a ContentProvider"

  /** The value a component sees through the context: nothing when no
      provider encloses it, otherwise whatever the provider supplies (the
      bundled document, which a loader could also leave empty). */
  datatype ContextValue = NoProvider | Provided(value: Option<Document>)

  /** `ContentProvider` supplies one value, the site document, to every
      component below it. */
  function ContentProvider(site: Option<Document>): (ctx: ContextValue)
    ensures ctx.Provided? && ctx.value == site
  {
    Provided(site)
  }

  /** `useContext(ContentContext)`: the context was created without a default,
      so outside a provider it yields undefined. */
  function ReadContext(ctx: ContextValue): (content: Option<Document>)
    ensures ctx.NoProvider? ==> content.None?
    ensures ctx.Provided? ==> content == ctx.value
  {
    match ctx
    case NoProvider => None
    case Provided(v) => v
  }

  /** The shape every section receives: `{ content, loading, error }`. */
  datatype ContentState = ContentState(content: Option<Document>, loading: bool, error: Option<Error>)

  /** `useContent`: throw when the context value is falsy, otherwise return it
      with `loading: false` and `error: null`. */
  function UseContent(ctx: ContextValue): (r: Outcome<ContentState>)
    ensures r.Threw? <==> ReadContext(ctx).None?
    ensures r.Threw? ==> r.error == ConfigurationError(MissingProviderMessage)
    ensures r.Rendered? ==> r.view.content == ReadContext(ctx) && r.view.content.Some?
    ensures r.Rendered? ==> !r.view.loading && r.view.error.None?
  {
    var content := ReadContext(ctx);
    if content.None? then Threw(ConfigurationError(MissingProviderMessage))
    else Rendered(ContentState(content, false, None))
  }

  /** The guard every section evaluates before it reads any field:
      `loading || !content`. */
  predicate ShowsPlaceholder(s: ContentState): (b: bool)
    ensures !b ==> s.content.Some? && !s.loading
    ensures s.content.None? ==> b
  {
    s.loading || s.content.None?
  }

  /** Inside a provider every consumer receives exactly the provider's
      document, and none of them sees the loading guard fire. */
  lemma ProvidedDocumentReachesEveryConsumer(site: Document)
    ensures UseContent(ContentProvider(Some(site))) == Rendered(ContentState(Some(site), false, None))
    ensures !ShowsPlaceholder(UseContent(ContentProvider(Some(site))).view)
  {
  }

  /** Whatever the context holds, a state handed out by `useContent` never
      satisfies the loading guard: the sections' placeholders are reachable
      only through a caller that builds the state itself. */
  lemma AccessorNeverShowsPlaceholder(ctx: ContextValue)
    requires UseContent(ctx).Rendered?
    ensures !ShowsPlaceholder(UseContent(ctx).view)
  {
  }

  /** Outside a provider, or with an empty document, the accessor throws the
      configuration error. */
  lemma MissingValueThrows(ctx: ContextValue)
    requires ctx.NoProvider? || ctx == Provided(None)
    ensures UseContent(ctx) == Threw(ConfigurationError(MissingProviderMessage))
  {
  }
}
