/** The footer editor: bilingual text sections, two link groups (quick links and help), a
    newsletter block and the copyright line. Every handler builds new objects by spreading,
    so the previous draft is never changed. */
module Footer {
  import opened Common
  import opened Editor

  /** `{ title, links }`; a group that was absent is read as `{ links: [] }`, without a title. */
  datatype LinkGroup = LinkGroup(title: Option<MultiLangText>, links: seq<LinkValue>)

  /** `{ title, description }`, plus the stray `en`/`ta` keys the newsletter inputs write. */
  datatype Newsletter = Newsletter(
    title: Option<MultiLangText>,
    description: Option<MultiLangText>,
    en: Option<string>,
    ta: Option<string>)

  datatype FooterDraft = FooterDraft(
    bankName: Option<MultiLangText>,
    description: Option<MultiLangText>,
    quickLinks: Option<LinkGroup>,
    help: Option<LinkGroup>,
    newsletter: Option<Newsletter>,
    copyright: Option<MultiLangText>)

  /** The sections `handleInputChange` is called with. */
  datatype TextSection = BankName | Description | NewsletterSection | Copyright

  datatype LinkSection = QuickLinks | Help {
    function Other(): LinkSection {
      if QuickLinks? then Help else QuickLinks
    }
  }

  datatype NewsletterPart = NewsletterTitle | NewsletterDescription

  /** The plain bilingual sections (all but the newsletter). */
  function TextOf(d: FooterDraft, section: TextSection): Option<MultiLangText>
    requires section != NewsletterSection
  {
    match section
    case BankName => d.bankName
    case Description => d.description
    case Copyright => d.copyright
  }

  /** `newsletter[lang]`, the stray key. */
  function StrayKey(n: Option<Newsletter>, lang: Lang): Option<string> {
    if n.None? then None else if lang.En? then n.value.en else n.value.ta
  }

  function Part(n: Option<Newsletter>, part: NewsletterPart): Option<MultiLangText> {
    if n.None? then None
    else if part.NewsletterTitle? then n.value.title else n.value.description
  }

  /** `footer.newsletter?.title?.[lang] || ''` (or `description`): what a newsletter input displays. */
  function NewsletterShown(d: FooterDraft, part: NewsletterPart, lang: Lang): string {
    Shown(Part(d.newsletter, part), lang)
  }

  /** All sections other than `section` are as in `d`. */
  predicate SameExceptText(d: FooterDraft, e: FooterDraft, section: TextSection) {
    (section != BankName ==> e.bankName == d.bankName)
    && (section != Description ==> e.description == d.description)
    && (section != NewsletterSection ==> e.newsletter == d.newsletter)
    && (section != Copyright ==> e.copyright == d.copyright)
    && e.quickLinks == d.quickLinks && e.help == d.help
  }

  function Slot(d: FooterDraft, section: LinkSection): Option<LinkGroup> {
    if section.QuickLinks? then d.quickLinks else d.help
  }

  /** `prev[section] || { links: [] }` */
  function Group(d: FooterDraft, section: LinkSection): LinkGroup {
    Slot(d, section).GetOr(LinkGroup(None, []))
  }

  function WithSlot(d: FooterDraft, section: LinkSection, g: Option<LinkGroup>): FooterDraft {
    if section.QuickLinks? then d.(quickLinks := g) else d.(help := g)
  }

  const FooterMessages := Messages("Failed to fetch footer data.", "Footer updated successfully!", "Failed to save footer data.")

  /** The page's initial state: an empty draft `{}` and the footer's banners. */
  method NewFooterPage() returns (page: SingletonPage<FooterDraft>)
    ensures fresh(page)
    ensures page.draft == FooterDraft(None, None, None, None, None, None) && page.messages == FooterMessages
    ensures page.fetchClearsError && page.isLoading && !page.isSaving
    ensures page.error == None && page.success == None && page.calls == []
  {
    page := new SingletonPage(FooterDraft(None, None, None, None, None, None), FooterMessages, true);
  }

  /** The render guard: the error alone when loading is done and there is no bank name. */
  function Render(page: SingletonPage<FooterDraft>): (s: Screen)
    reads page
    ensures s == LoadingNotice <==> page.isLoading
    ensures s.ErrorOnly? <==> !page.isLoading && page.error.Some? && page.draft.bankName.None?
    ensures s.ErrorOnly? ==> s.message == page.error.value
    ensures s == EditForm <==> !page.isLoading && (page.error.None? || page.draft.bankName.Some?)
  {
    Guard(page.isLoading, page.error, page.draft.bankName.Some?)
  }

  /** `handleInputChange(section, lang, v)`: `{ ...prev[section], [lang]: v }`. For a text
      section that sets one language and keeps the other; for the newsletter block it sets the
      key `en` or `ta` of the block itself, beside its title and description. */
  function HandleInputChange(prev: FooterDraft, section: TextSection, lang: Lang, v: string): (next: FooterDraft)
    ensures SameExceptText(prev, next, section)
    ensures section != NewsletterSection ==>
      At(TextOf(next, section), lang) == Some(v)
      && At(TextOf(next, section), lang.Other()) == At(TextOf(prev, section), lang.Other())
    ensures section == NewsletterSection ==>
      StrayKey(next.newsletter, lang) == Some(v)
      && StrayKey(next.newsletter, lang.Other()) == StrayKey(prev.newsletter, lang.Other())
      && (forall part :: Part(next.newsletter, part) == Part(prev.newsletter, part))
  {
    match section
    case BankName => prev.(bankName := Some(SetLang(prev.bankName, lang, v)))
    case Description => prev.(description := Some(SetLang(prev.description, lang, v)))
    case Copyright => prev.(copyright := Some(SetLang(prev.copyright, lang, v)))
    case NewsletterSection =>
      var n := prev.newsletter.GetOr(Newsletter(None, None, None, None));
      prev.(newsletter := Some(if lang.En? then n.(en := Some(v)) else n.(ta := Some(v))))
  }

  /** The newsletter title and description inputs as bound: all four call
      `handleInputChange('newsletter', lang, v)`, so what they display never changes. */
  lemma NewsletterInputIsLost(prev: FooterDraft, part: NewsletterPart, lang: Lang, v: string)
    ensures NewsletterShown(HandleInputChange(prev, NewsletterSection, lang, v), part, lang) == NewsletterShown(prev, part, lang)
    ensures v != NewsletterShown(prev, part, lang) ==>
      NewsletterShown(HandleInputChange(prev, NewsletterSection, lang, v), part, lang) != v
  {
  }

  /** The newsletter inputs as intended: the typed value lands in `newsletter[part][lang]`. */
  function HandleNewsletterChange(prev: FooterDraft, part: NewsletterPart, lang: Lang, v: string): (next: FooterDraft)
    ensures NewsletterShown(next, part, lang) == v
    ensures At(Part(next.newsletter, part), lang.Other()) == At(Part(prev.newsletter, part), lang.Other())
    ensures forall p :: p != part ==> Part(next.newsletter, p) == Part(prev.newsletter, p)
    ensures forall l :: StrayKey(next.newsletter, l) == StrayKey(prev.newsletter, l)
    ensures SameExceptText(prev, next, NewsletterSection)
  {
    var n := prev.newsletter.GetOr(Newsletter(None, None, None, None));
    var t := SetLang(Part(prev.newsletter, part), lang, v);
    prev.(newsletter := Some(if part.NewsletterTitle? then n.(title := Some(t)) else n.(description := Some(t))))
  }

  /** `handleLinkChange`: link i of the group is copied and the copy takes the edit; the group
      keeps its title and length, and the other group and sections are untouched. */
  function HandleLinkChange(prev: FooterDraft, section: LinkSection, i: int, field: LinkField, lang: Option<Lang>, v: string): (next: FooterDraft)
    requires 0 <= i < |Group(prev, section).links|
    ensures Slot(next, section).Some?
    ensures Group(next, section).title == Group(prev, section).title
    ensures |Group(next, section).links| == |Group(prev, section).links|
    ensures Group(next, section).links[i] == EditLink(Group(prev, section).links[i], field, lang, v)
    ensures forall k :: 0 <= k < |Group(prev, section).links| && k != i ==>
      Group(next, section).links[k] == Group(prev, section).links[k]
    ensures WithSlot(next, section, Slot(prev, section)) == prev
  {
    var g := Group(prev, section);
    WithSlot(prev, section, Some(g.(links := g.links[i := EditLink(g.links[i], field, lang, v)])))
  }

  /** `handleAddLink`: one blank link at the end of that group; an absent group becomes `{ links: [blank] }`. */
  function HandleAddLink(prev: FooterDraft, section: LinkSection): (next: FooterDraft)
    ensures Slot(next, section).Some?
    ensures Group(next, section).title == Group(prev, section).title
    ensures |Group(next, section).links| == |Group(prev, section).links| + 1
    ensures Group(next, section).links[..|Group(prev, section).links|] == Group(prev, section).links
    ensures Group(next, section).links[|Group(prev, section).links|] == BlankLink
    ensures WithSlot(next, section, Slot(prev, section)) == prev
  {
    var g := Group(prev, section);
    WithSlot(prev, section, Some(g.(links := g.links + [BlankLink])))
  }

  /** `handleRemoveLink`: `splice(i, 1)` on a copy of the group's links. */
  function HandleRemoveLink(prev: FooterDraft, section: LinkSection, i: int): (next: FooterDraft)
    ensures Slot(next, section).Some?
    ensures Group(next, section).title == Group(prev, section).title
    ensures 0 <= i < |Group(prev, section).links| ==>
      Group(next, section).links == Group(prev, section).links[..i] + Group(prev, section).links[i + 1..]
    ensures i >= |Group(prev, section).links| ==> Group(next, section).links == Group(prev, section).links
    ensures WithSlot(next, section, Slot(prev, section)) == prev
  {
    var g := Group(prev, section);
    WithSlot(prev, section, Some(g.(links := SpliceOne(g.links, i))))
  }
}
