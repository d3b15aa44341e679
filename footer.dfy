// The page footer (src/components/Footer.jsx).
//
// Columns: the brand column, one column per footer section listing exactly
// its own links, then the "Connect" column of social links.  Social icons
// come from a table in which "twitter" and "x" share one icon and unknown
// names fall back to the Facebook icon.

module Footer {
  import opened ContentContext

  datatype SocialIcon = FaFacebook | FaInstagram | FaXTwitter | FaTiktok

  /** `socialIconMap`. */
  const SocialIconMap: map<string, SocialIcon> :=
    map["facebook" := FaFacebook, "instagram" := FaInstagram, "twitter" := FaXTwitter,
        "x" := FaXTwitter, "tiktok" := FaTiktok]

  /** `socialIconMap[social.icon] || faFacebook`. */
  function ResolveSocialIcon(name: Option<string>): (icon: SocialIcon)
    ensures icon == FaXTwitter <==> name == Some("twitter") || name == Some("x")
    ensures icon == FaInstagram <==> name == Some("instagram")
    ensures icon == FaTiktok <==> name == Some("tiktok")
    ensures icon == FaFacebook <==> !(name.Some? && name.value in SocialIconMap.Keys - {"facebook"})
  {
    if name.Some? && name.value in SocialIconMap then SocialIconMap[name.value] else FaFacebook
  }

  datatype SocialButton = SocialButton(platform: string, href: string, icon: SocialIcon)

  datatype Column =
    | BrandColumn(name: string, tagline: string)
    | LinksColumn(title: string, links: seq<Link>)
    | ConnectColumn(buttons: seq<SocialButton>)

  datatype FooterView =
    | FooterLoading
    | FooterGrid(columns: seq<Column>, copyright: string)

  /** `footer.sections.map(...)`: one column per section, holding its links. */
  function SectionColumns(sections: seq<LinkGroup>): (cols: seq<Column>)
    ensures |cols| == |sections|
    ensures forall i :: 0 <= i < |sections| ==> cols[i] == LinksColumn(sections[i].title, sections[i].links)
  {
    if sections == [] then [] else [LinksColumn(sections[0].title, sections[0].links)] + SectionColumns(sections[1..])
  }

  function ButtonFor(s: Social): SocialButton {
    SocialButton(s.platform, s.href, ResolveSocialIcon(s.icon))
  }

  /** `footer.social.map(...)`: one button per social entry, in order. */
  function SocialButtons(social: seq<Social>): (buttons: seq<SocialButton>)
    ensures |buttons| == |social|
    ensures forall i :: 0 <= i < |social| ==> buttons[i] == ButtonFor(social[i])
  {
    if social == [] then [] else [ButtonFor(social[0])] + SocialButtons(social[1..])
  }

  /** The footer's render for a content state: `brand.name` is the first
      field read, then `footer.sections`. */
  function RenderFooter(s: ContentState): (r: Outcome<FooterView>)
    ensures ShowsPlaceholder(s) ==> r == Rendered(FooterLoading)
    ensures !ShowsPlaceholder(s) && s.content.value.brand.None? ==> r == Threw(TypeError("name"))
    ensures (!ShowsPlaceholder(s) && s.content.value.brand.Some? && s.content.value.footer.None?)
              ==> r == Threw(TypeError("sections"))
    ensures (!ShowsPlaceholder(s) && s.content.value.brand.Some? && s.content.value.footer.Some?) ==>
              var b, f := s.content.value.brand.value, s.content.value.footer.value;
              && r.Rendered? && r.view.FooterGrid?
              && r.view.copyright == f.copyright
              && |r.view.columns| == |f.sections| + 2
              && r.view.columns[0] == BrandColumn(b.name, b.tagline)
              && (forall i :: 0 <= i < |f.sections| ==>
                    r.view.columns[i + 1] == LinksColumn(f.sections[i].title, f.sections[i].links))
              && r.view.columns[|f.sections| + 1] == ConnectColumn(SocialButtons(f.social))
  {
    if ShowsPlaceholder(s) then Rendered(FooterLoading)
    else
      var d := s.content.value;
      if d.brand.None? then Threw(TypeError("name"))
      else if d.footer.None? then Threw(TypeError("sections"))
      else
        var b, f := d.brand.value, d.footer.value;
        Rendered(FooterGrid(
          [BrandColumn(b.name, b.tagline)] + SectionColumns(f.sections) + [ConnectColumn(SocialButtons(f.social))],
          f.copyright))
  }
}
