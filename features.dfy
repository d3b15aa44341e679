// The feature grid (src/components/Features.jsx).
//
// Each feature item names its icon by a string; the icon table maps three
// names and every other (or missing) name falls back to the leaf icon.  One
// card is rendered per item, in list order.

module Features {
  import opened ContentContext

  datatype FeatureIcon = Leaf | Recycle | Heart

  /** `iconMap`. */
  const IconMap: map<string, FeatureIcon> := map["leaf" := Leaf, "recycle" := Recycle, "heart" := Heart]

  /** `iconMap[feature.icon] || Leaf`. */
  function ResolveIcon(name: Option<string>): (icon: FeatureIcon)
    ensures icon == Recycle <==> name == Some("recycle")
    ensures icon == Heart <==> name == Some("heart")
    ensures icon == Leaf <==> name != Some("recycle") && name != Some("heart")
    ensures name.Some? && name.value in IconMap ==> icon == IconMap[name.value]
  {
    if name.Some? && name.value in IconMap then IconMap[name.value] else Leaf
  }

  datatype Card = Card(icon: FeatureIcon, title: string, description: string)

  datatype FeaturesView =
    | FeaturesLoading
    | FeatureGrid(sectionTitle: string, cards: seq<Card>)

  function CardFor(item: FeatureItem): Card {
    Card(ResolveIcon(item.icon), item.title, item.description)
  }

  /** `features.items.map(...)`: one card per item, in order. */
  function Cards(items: seq<FeatureItem>): (cards: seq<Card>)
    ensures |cards| == |items|
    ensures forall i :: 0 <= i < |items| ==> cards[i] == CardFor(items[i])
  {
    if items == [] then [] else [CardFor(items[0])] + Cards(items[1..])
  }

  /** The section's render for a content state. */
  function RenderFeatures(s: ContentState): (r: Outcome<FeaturesView>)
    ensures ShowsPlaceholder(s) ==> r == Rendered(FeaturesLoading)
    ensures !ShowsPlaceholder(s) && s.content.value.features.None? ==> r == Threw(TypeError("section_title"))
    ensures (!ShowsPlaceholder(s) && s.content.value.features.Some?) ==>
              var f := s.content.value.features.value;
              && r.Rendered? && r.view.FeatureGrid?
              && r.view.sectionTitle == f.sectionTitle
              && |r.view.cards| == |f.items|
              && forall i :: 0 <= i < |f.items| ==>
                   r.view.cards[i].title == f.items[i].title
                   && r.view.cards[i].description == f.items[i].description
                   && r.view.cards[i].icon == ResolveIcon(f.items[i].icon)
  {
    if ShowsPlaceholder(s) then Rendered(FeaturesLoading)
    else if s.content.value.features.None? then Threw(TypeError("section_title"))
    else
      var f := s.content.value.features.value;
      Rendered(FeatureGrid(f.sectionTitle, Cards(f.items)))
  }
}
