/** The hero-banner editor: three bilingual texts. */
module Hero {
  import opened Common
  import opened Editor

  datatype HeroDraft = HeroDraft(
    mainText: Option<MultiLangText>,
    subText: Option<MultiLangText>,
    buttonText: Option<MultiLangText>)

  datatype HeroSection = MainText | SubText | ButtonText

  function SectionText(d: HeroDraft, section: HeroSection): Option<MultiLangText> {
    match section
    case MainText => d.mainText
    case SubText => d.subText
    case ButtonText => d.buttonText
  }

  const HeroMessages := Messages("Failed to fetch hero data.", "Hero section updated successfully!", "Failed to save hero data.")

  /** The page's initial state: an empty draft `{}` and the hero banners. */
  method NewHeroPage() returns (page: SingletonPage<HeroDraft>)
    ensures fresh(page)
    ensures page.draft == HeroDraft(None, None, None) && page.messages == HeroMessages
    ensures page.fetchClearsError && page.isLoading && !page.isSaving
    ensures page.error == None && page.success == None && page.calls == []
  {
    page := new SingletonPage(HeroDraft(None, None, None), HeroMessages, true);
  }

  /** The render guard: the error alone when loading is done and there is no main text. */
  function Render(page: SingletonPage<HeroDraft>): (s: Screen)
    reads page
    ensures s == LoadingNotice <==> page.isLoading
    ensures s.ErrorOnly? <==> !page.isLoading && page.error.Some? && page.draft.mainText.None?
    ensures s.ErrorOnly? ==> s.message == page.error.value
    ensures s == EditForm <==> !page.isLoading && (page.error.None? || page.draft.mainText.Some?)
  {
    Guard(page.isLoading, page.error, page.draft.mainText.Some?)
  }

  /** `handleInputChange`: one language of one section; the sibling language and the other sections stay. */
  function HandleInputChange(prev: HeroDraft, section: HeroSection, lang: Lang, v: string): (next: HeroDraft)
    ensures At(SectionText(next, section), lang) == Some(v)
    ensures At(SectionText(next, section), lang.Other()) == At(SectionText(prev, section), lang.Other())
    ensures forall other: HeroSection :: other != section ==> SectionText(next, other) == SectionText(prev, other)
  {
    var t := SetLang(SectionText(prev, section), lang, v);
    match section
    case MainText => prev.(mainText := Some(t))
    case SubText => prev.(subText := Some(t))
    case ButtonText => prev.(buttonText := Some(t))
  }
}
