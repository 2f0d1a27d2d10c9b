/** The header editor: logo text, navigation links and language selector. The links are
    objects, because the link edit writes into the link object it shares with the previous
    state instead of copying it. */
module Header {
  import opened Common
  import opened Editor

  /** A navigation link object `{ text, href }` held by the draft's `navLinks` array. */
  class NavLink {
    var text: MultiLangText
    var href: string

    constructor(text: MultiLangText, href: string)
      ensures this.text == text && this.href == href
    {
      this.text := text;
      this.href := href;
    }

    function Value(): LinkValue
      reads this
    {
      LinkValue(text, href)
    }
  }

  datatype HeaderDraft = HeaderDraft(
    logoText: Option<MultiLangText>,
    navLinks: Option<seq<NavLink>>,
    languageSelector: Option<MultiLangText>)

  datatype Section = LogoText | LanguageSelector

  function SectionText(d: HeaderDraft, section: Section): Option<MultiLangText> {
    match section
    case LogoText => d.logoText
    case LanguageSelector => d.languageSelector
  }

  /** `prev.navLinks || []` */
  function Links(d: HeaderDraft): seq<NavLink> {
    d.navLinks.GetOr([])
  }

  /** The contents of the link objects, in order. */
  function Values(links: seq<NavLink>): (r: seq<LinkValue>)
    reads set l | l in links
    ensures |r| == |links|
    ensures forall k :: 0 <= k < |links| ==> r[k] == links[k].Value()
  {
    if links == [] then [] else [links[0].Value()] + Values(links[1..])
  }

  const HeaderMessages := Messages("Failed to fetch header data.", "Header updated successfully!", "Failed to save header data.")

  /** The page's initial state: an empty draft `{}` and the header's banners. */
  method NewHeaderPage() returns (page: SingletonPage<HeaderDraft>)
    ensures fresh(page)
    ensures page.draft == HeaderDraft(None, None, None) && page.messages == HeaderMessages
    ensures page.fetchClearsError && page.isLoading && !page.isSaving
    ensures page.error == None && page.success == None && page.calls == []
  {
    page := new SingletonPage(HeaderDraft(None, None, None), HeaderMessages, true);
  }

  /** The render guard: the error alone when loading is done and there is no logo text. */
  function Render(page: SingletonPage<HeaderDraft>): (s: Screen)
    reads page
    ensures s == LoadingNotice <==> page.isLoading
    ensures s.ErrorOnly? <==> !page.isLoading && page.error.Some? && page.draft.logoText.None?
    ensures s.ErrorOnly? ==> s.message == page.error.value
    ensures s == EditForm <==> !page.isLoading && (page.error.None? || page.draft.logoText.Some?)
  {
    Guard(page.isLoading, page.error, page.draft.logoText.Some?)
  }

  /** `handleInputChange`: sets one language of the logo text or the language selector. */
  function HandleInputChange(prev: HeaderDraft, section: Section, lang: Lang, v: string): (next: HeaderDraft)
    ensures At(SectionText(next, section), lang) == Some(v)
    ensures At(SectionText(next, section), lang.Other()) == At(SectionText(prev, section), lang.Other())
    ensures forall other: Section :: other != section ==> SectionText(next, other) == SectionText(prev, other)
    ensures next.navLinks == prev.navLinks
  {
    var t := SetLang(SectionText(prev, section), lang, v);
    match section
    case LogoText => prev.(logoText := Some(t))
    case LanguageSelector => prev.(languageSelector := Some(t))
  }

  /** `handleLinkChange` as written: the array is copied but its link objects are not, so the
      assignment lands in the object the previous state also holds. The previous state's
      link i therefore shows the edit too. */
  method HandleLinkChange(prev: HeaderDraft, i: int, field: LinkField, lang: Option<Lang>, v: string) returns (next: HeaderDraft)
    requires 0 <= i < |Links(prev)|
    modifies Links(prev)[i]
    ensures next.logoText == prev.logoText && next.languageSelector == prev.languageSelector
    ensures Links(next) == Links(prev)
    ensures Links(prev)[i].Value() == EditLink(old(Links(prev)[i].Value()), field, lang, v)
    ensures forall k :: 0 <= k < |Links(prev)| && Links(prev)[k] != Links(prev)[i] ==>
      Links(prev)[k].Value() == old(Links(prev)[k].Value())
  {
    var links := Links(prev);
    var link := links[i];
    if field.HrefField? {
      link.href := v;
    } else if lang.Some? {
      link.text := SetLang(Some(link.text), lang.value, v);
    }
    next := prev.(navLinks := Some(links));
  }

  /** A concrete run of the link edit as written: the previous state, built with a link whose
      href is empty, reads the new href afterwards, and both states hold the same link object. */
  method EditShowsInPreviousState() returns (prev: HeaderDraft, next: HeaderDraft)
    ensures Links(prev) == Links(next) && |Links(prev)| == 1
    ensures Links(prev)[0].href == "/loans"
  {
    var link := new NavLink(BlankText, "");
    prev := HeaderDraft(None, Some([link]), None);
    next := HandleLinkChange(prev, 0, HrefField, None, "/loans");
  }

  /** The link edit as intended: a fresh copy of link i takes the edit, and nothing the
      previous state holds changes. */
  method HandleLinkChangeCopying(prev: HeaderDraft, i: int, field: LinkField, lang: Option<Lang>, v: string) returns (next: HeaderDraft)
    requires 0 <= i < |Links(prev)|
    ensures next.logoText == prev.logoText && next.languageSelector == prev.languageSelector
    ensures Values(Links(prev)) == old(Values(Links(prev)))
    ensures Values(Links(next)) == Values(Links(prev))[i := EditLink(Links(prev)[i].Value(), field, lang, v)]
    ensures fresh(Links(next)[i])
  {
    var links := Links(prev);
    var edited := EditLink(links[i].Value(), field, lang, v);
    var copy := new NavLink(edited.text, edited.href);
    next := prev.(navLinks := Some(links[i := copy]));
  }

  /** `handleAddLink`: one new blank link object at the end; an absent list counts as empty. */
  method HandleAddLink(prev: HeaderDraft) returns (next: HeaderDraft)
    ensures next.logoText == prev.logoText && next.languageSelector == prev.languageSelector
    ensures |Links(next)| == |Links(prev)| + 1
    ensures Links(next)[..|Links(prev)|] == Links(prev)
    ensures fresh(Links(next)[|Links(prev)|])
    ensures Links(next)[|Links(prev)|].Value() == BlankLink
  {
    var link := new NavLink(BlankText, "");
    next := prev.(navLinks := Some(Links(prev) + [link]));
  }

  /** `handleRemoveLink`: drops position i and keeps the others in order; an index outside
      the list leaves it as it was. */
  function HandleRemoveLink(prev: HeaderDraft, i: int): (next: HeaderDraft)
    ensures next.logoText == prev.logoText && next.languageSelector == prev.languageSelector
    ensures 0 <= i < |Links(prev)| ==>
      |Links(next)| == |Links(prev)| - 1
      && (forall k :: 0 <= k < i ==> Links(next)[k] == Links(prev)[k])
      && (forall k :: i <= k < |Links(next)| ==> Links(next)[k] == Links(prev)[k + 1])
    ensures !(0 <= i < |Links(prev)|) ==> Links(next) == Links(prev)
  {
    prev.(navLinks := Some(WithoutIndex(Links(prev), i)))
  }
}
