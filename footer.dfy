/**
 * The site footer: the link sections (two link columns and the contact
 * column on wide screens, an accordion on phones), the social links, the
 * back-to-top button and the guard that renders nothing before the
 * component has mounted.
 */
module Footer {
  import opened Wrappers
  import opened JsText
  import ColorSchema

  datatype Link = Link(name: string, href: string)

  /** An entry of the contact column; only some are links. */
  datatype ContactItem = ContactItem(text: string, href: Option<string>)

  datatype SectionBody = Links(links: seq<Link>) | Items(items: seq<ContactItem>)

  datatype Section = Section(title: string, id: string, body: SectionBody)

  const FooterSections: seq<Section> := [
    Section("Quick Links", "quick-links", Links([
      Link("Home", "/"), Link("About Us", "/about"), Link("Services", "/services"),
      Link("Gallery", "/gallery"), Link("Achievements", "/achievements"),
      Link("Testimonials", "/testimonials"), Link("Contact", "/contact")])),
    Section("Our Services", "our-services", Links([
      Link("Canada Immigration", "/immigration/canada"), Link("Australia Immigration", "/immigration/australia"),
      Link("USA Immigration", "/immigration/usa"), Link("UK Immigration", "/immigration/uk"),
      Link("New Zealand Immigration", "/immigration/newzealand"),
      Link("Study Abroad", "/services/study-abroad"), Link("Work Permits", "/services/work-permits")])),
    Section("Contact Info", "contact-info", Items([
      ContactItem("Branch Office Nawanshahr, Head Office Canada", None),
      ContactItem("+91 95920-12334, +1905-462-6456  ", Some("tel:+91 9592012334")),
      ContactItem("nationwideadmissions@gmail.com", Some("mailto:nationwideadmissions@gmail.com")),
      ContactItem("Mon - Sat: 9:00 AM - 6:00 PM", None)]))
  ]

  // ---------------------------------------------------------------------------
  // Social links
  // ---------------------------------------------------------------------------

  /** A social link as the footer's array literal spells it: the Instagram
      entry stores its URL under `ref`. */
  datatype SocialLink = SocialLink(name: string, href: Option<string>, ref: Option<string>)

  const InstagramUrl := "https://www.instagram.com/nationwideeducationalservices/"
  const WhatsAppUrl := "https://wa.me/7889287161?text=Hi%2C%20I%20am%20interested%20in%20your%20services%20at%20Nationwide%20Services.%20Could%20you%20please%20help%20me%20with%20more%20details%3F"

  const SocialLinks: seq<SocialLink> := [
    SocialLink("Instagram", None, Some(InstagramUrl)),
    SocialLink("WhatsApp", Some(WhatsAppUrl), None)
  ]

  /** The `href` the anchor of a social link gets: `social.href`. */
  function AnchorHref(link: SocialLink): Option<string> {
    link.href
  }

  /** As written, the Instagram anchor has no `href`: its URL sits under
      `ref`, which the anchor never reads. */
  lemma InstagramAnchorHasNoHref()
    ensures SocialLinks[0].name == "Instagram"
    ensures AnchorHref(SocialLinks[0]).None? && SocialLinks[0].ref == Some(InstagramUrl)
  {
  }

  /** The social links with the Instagram URL under `href`, as intended. */
  const IntendedSocialLinks: seq<SocialLink> := [
    SocialLink("Instagram", Some(InstagramUrl), None),
    SocialLink("WhatsApp", Some(WhatsAppUrl), None)
  ]

  /** Every intended social anchor links to the URL its entry holds. */
  lemma IntendedSocialAnchorsLink()
    ensures |IntendedSocialLinks| == |SocialLinks|
    ensures forall i :: 0 <= i < |IntendedSocialLinks| ==>
      IntendedSocialLinks[i].name == SocialLinks[i].name &&
      AnchorHref(IntendedSocialLinks[i]) == (if SocialLinks[i].href.Some? then SocialLinks[i].href else SocialLinks[i].ref)
  {
  }

  // ---------------------------------------------------------------------------
  // Mobile link background
  // ---------------------------------------------------------------------------

  /** The background class of the links in the mobile accordion, as written:
      `getClasses('bg', 'perimary')`. */
  function MobileLinkBackground(): string {
    ColorSchema.GetClasses("bg", Some("perimary"))
  }

  /** The misspelt variant finds no entry, so the class is `''`. */
  lemma MobileLinkBackgroundIsEmpty()
    ensures MobileLinkBackground() == ""
  {
    ColorSchema.GetClassesMissing("bg", "perimary");
  }

  /** The background class with the variant spelt `primary`. */
  function IntendedMobileLinkBackground(): string {
    ColorSchema.GetClasses("bg", Some("primary"))
  }

  /** With the intended spelling the links get the brand background. */
  lemma IntendedMobileLinkBackgroundIsBrand()
    ensures IntendedMobileLinkBackground() == "bg-[#CB342A]"
  {
    ColorSchema.GetClassesTable(1, 0);
  }

  // ---------------------------------------------------------------------------
  // The accordion
  // ---------------------------------------------------------------------------

  /** `expandedSections[id]`, where a missing key is falsy. */
  predicate Expanded(sections: map<string, bool>, id: string) {
    id in sections && sections[id]
  }

  /** `toggleSection(id)`: `{...prev, [id]: !prev[id]}`. */
  function Toggle(sections: map<string, bool>, id: string): (r: map<string, bool>)
    ensures Expanded(r, id) <==> !Expanded(sections, id)
    ensures forall k :: k != id ==> (k in r <==> k in sections) && (k in sections ==> r[k] == sections[k])
  {
    sections[id := !Expanded(sections, id)]
  }

  /** Toggles applied one after another. */
  function ToggleAll(sections: map<string, bool>, ids: seq<string>): map<string, bool>
    decreases |ids|
  {
    if ids == [] then sections else ToggleAll(Toggle(sections, ids[0]), ids[1..])
  }

  function Count(ids: seq<string>, id: string): nat
    decreases |ids|
  {
    if ids == [] then 0 else (if ids[0] == id then 1 else 0) + Count(ids[1..], id)
  }

  /** After a run of toggles, a section is expanded exactly when it started
      expanded and was toggled an even number of times, or started closed
      and was toggled an odd number of times. */
  lemma {:induction false} ToggleParity(sections: map<string, bool>, ids: seq<string>, id: string)
    ensures Expanded(ToggleAll(sections, ids), id) <==> (Expanded(sections, id) != (Count(ids, id) % 2 == 1))
    decreases |ids|
  {
    if ids != [] {
      ToggleParity(Toggle(sections, ids[0]), ids[1..], id);
    }
  }

  /** From the reset state, a section is open exactly when it has been
      toggled an odd number of times. */
  lemma ExpandedIffOddToggles(ids: seq<string>, id: string)
    ensures Expanded(ToggleAll(map[], ids), id) <==> Count(ids, id) % 2 == 1
  {
    ToggleParity(map[], ids, id);
  }

  // ---------------------------------------------------------------------------
  // The footer's state and what it renders
  // ---------------------------------------------------------------------------

  /** What the footer renders once mounted. */
  datatype View = View(desktopColumns: seq<Section>, contactColumn: Section,
                       socialHrefs: seq<Option<string>>, mobileLinkClass: string, backToTop: bool)

  class FooterState {
    var mounted: bool
    var isVisible: bool
    var expandedSections: map<string, bool>

    constructor()
      ensures !mounted && !isVisible && expandedSections == map[]
    {
      mounted := false;
      isVisible := false;
      expandedSections := map[];
    }

    /** The mount effect. */
    method Mount()
      modifies this
      ensures mounted && isVisible == old(isVisible) && expandedSections == old(expandedSections)
    {
      mounted := true;
    }

    /** `toggleVisibility` on scroll. */
    method Scroll(pageYOffset: real)
      modifies this
      ensures isVisible <==> pageYOffset > 300.0
      ensures mounted == old(mounted) && expandedSections == old(expandedSections)
    {
      if pageYOffset > 300.0 {
        isVisible := true;
      } else {
        isVisible := false;
      }
    }

    /** The accordion header of a section. */
    method ToggleSection(id: string)
      modifies this
      ensures expandedSections == Toggle(old(expandedSections), id)
      ensures mounted == old(mounted) && isVisible == old(isVisible)
    {
      expandedSections := expandedSections[id := !(id in expandedSections && expandedSections[id])];
    }

    /** A link of the mobile accordion collapses every section. */
    method MobileLinkClick()
      modifies this
      ensures expandedSections == map[]
      ensures forall id :: !Expanded(expandedSections, id)
      ensures mounted == old(mounted) && isVisible == old(isVisible)
    {
      expandedSections := map[];
    }

    /** `null` until mounted; then the footer drawn from the given social
        links and mobile link class. */
    function RenderWith(links: seq<SocialLink>, linkClass: string): (v: Option<View>)
      reads this
      ensures v.None? <==> !mounted
      ensures v.Some? ==> v.value.backToTop == isVisible && v.value.mobileLinkClass == linkClass
      ensures v.Some? ==> |v.value.socialHrefs| == |links|
      ensures v.Some? ==> forall i :: 0 <= i < |links| ==> v.value.socialHrefs[i] == AnchorHref(links[i])
    {
      if !mounted then None
      else
        Some(View(Take(FooterSections, 2), FooterSections[2],
                  seq(|links|, i requires 0 <= i < |links| => AnchorHref(links[i])),
                  linkClass, isVisible))
    }

    /** What the footer renders, as written: `null` until mounted; then the
        two link sections as desktop columns, the third section as the
        contact column, the social anchors (the Instagram one without an
        `href`), the mobile link class (empty, from the misspelt variant) and
        the back-to-top button while the page is scrolled down. */
    function Render(): (v: Option<View>)
      reads this
      ensures v.None? <==> !mounted
      ensures v.Some? ==> v.value.backToTop == isVisible
      ensures v.Some? ==> v.value.desktopColumns == Take(FooterSections, 2) && v.value.contactColumn == FooterSections[2]
      ensures v.Some? ==> v.value.socialHrefs == [None, Some(WhatsAppUrl)]
      ensures v.Some? ==> v.value.mobileLinkClass == ""
    {
      MobileLinkBackgroundIsEmpty();
      RenderWith(SocialLinks, MobileLinkBackground())
    }

    /** The footer with both slips corrected: every social anchor links to
        its URL and the mobile links get the brand background. It differs
        from `Render` in exactly those two places. */
    function IntendedRender(): (v: Option<View>)
      reads this
      ensures v.None? <==> !mounted
      ensures v.Some? ==> v.value.socialHrefs == [Some(InstagramUrl), Some(WhatsAppUrl)]
      ensures v.Some? ==> v.value.mobileLinkClass == "bg-[#CB342A]"
      ensures v.Some? ==> v.value == Render().value.(socialHrefs := v.value.socialHrefs, mobileLinkClass := v.value.mobileLinkClass)
    {
      IntendedMobileLinkBackgroundIsBrand();
      RenderWith(IntendedSocialLinks, IntendedMobileLinkBackground())
    }
  }

  /** The desktop columns are the two link sections and the contact column
      is the section of contact items. */
  lemma DesktopLayout(v: View)
    requires v.desktopColumns == Take(FooterSections, 2) && v.contactColumn == FooterSections[2]
    ensures |v.desktopColumns| == 2
    ensures forall i :: 0 <= i < 2 ==> v.desktopColumns[i].body.Links?
    ensures v.contactColumn.body.Items? && v.contactColumn.title == "Contact Info"
  {
  }
}
