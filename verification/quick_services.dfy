/** The quick-services editor: a bilingual section title and description and an ordered
    list of service tiles. */
module QuickServices {
  import opened Common
  import opened Editor

  datatype ServiceItem = ServiceItem(id: string, icon: string, title: MultiLangText, description: MultiLangText, href: string)

  datatype QuickServicesDraft = QuickServicesDraft(
    sectionTitle: Option<MultiLangText>,
    sectionDescription: Option<MultiLangText>,
    services: Option<seq<ServiceItem>>)

  datatype SectionKey = SectionTitle | SectionDescription

  /** The `field` argument of `handleServiceChange`: a key of a service item or of a bilingual text. */
  datatype ServiceField = IdKey | IconKey | TitleKey | DescriptionKey | HrefKey | EnKey | TaKey

  function SectionText(d: QuickServicesDraft, key: SectionKey): Option<MultiLangText> {
    if key.SectionTitle? then d.sectionTitle else d.sectionDescription
  }

  /** `prev.services || []` */
  function Services(d: QuickServicesDraft): seq<ServiceItem> {
    d.services.GetOr([])
  }

  const QuickServicesMessages := Messages("Failed to fetch quick services data.", "Quick services updated successfully!", "Failed to save quick services data.")

  /** The page's initial state: an empty draft `{}` and the quick-services banners. */
  method NewQuickServicesPage() returns (page: SingletonPage<QuickServicesDraft>)
    ensures fresh(page)
    ensures page.draft == QuickServicesDraft(None, None, None) && page.messages == QuickServicesMessages
    ensures page.fetchClearsError && page.isLoading && !page.isSaving
    ensures page.error == None && page.success == None && page.calls == []
  {
    page := new SingletonPage(QuickServicesDraft(None, None, None), QuickServicesMessages, true);
  }

  /** The render guard: the error alone when loading is done and there is no section title. */
  function Render(page: SingletonPage<QuickServicesDraft>): (s: Screen)
    reads page
    ensures s == LoadingNotice <==> page.isLoading
    ensures s.ErrorOnly? <==> !page.isLoading && page.error.Some? && page.draft.sectionTitle.None?
    ensures s.ErrorOnly? ==> s.message == page.error.value
    ensures s == EditForm <==> !page.isLoading && (page.error.None? || page.draft.sectionTitle.Some?)
  {
    Guard(page.isLoading, page.error, page.draft.sectionTitle.Some?)
  }

  /** `handleSectionChange`: one language of the section title or description. */
  function HandleSectionChange(prev: QuickServicesDraft, key: SectionKey, lang: Lang, v: string): (next: QuickServicesDraft)
    ensures At(SectionText(next, key), lang) == Some(v)
    ensures At(SectionText(next, key), lang.Other()) == At(SectionText(prev, key), lang.Other())
    ensures forall other: SectionKey :: other != key ==> SectionText(next, other) == SectionText(prev, other)
    ensures next.services == prev.services
  {
    var t := SetLang(SectionText(prev, key), lang, v);
    if key.SectionTitle? then prev.(sectionTitle := Some(t)) else prev.(sectionDescription := Some(t))
  }

  /** The edit `handleServiceChange` makes to the copied item. */
  function EditService(item: ServiceItem, field: ServiceField, v: string, lang: Option<Lang>): ServiceItem {
    if lang.Some? && (field.TitleKey? || field.DescriptionKey?) then
      if field.TitleKey? then item.(title := SetLang(Some(item.title), lang.value, v))
      else item.(description := SetLang(Some(item.description), lang.value, v))
    else if field.IconKey? then item.(icon := v)
    else if field.HrefKey? then item.(href := v)
    else if field.IdKey? then item.(id := v)
    else item
  }

  /** `handleServiceChange`: item i is copied and one of its keys is set. A title or description
      takes the value in the given language; icon, href and id take it directly; any other
      combination leaves the item as it was. The list keeps its length and other items. */
  function HandleServiceChange(prev: QuickServicesDraft, i: int, field: ServiceField, v: string, lang: Option<Lang>): (next: QuickServicesDraft)
    requires 0 <= i < |Services(prev)|
    ensures |Services(next)| == |Services(prev)|
    ensures forall k :: 0 <= k < |Services(prev)| && k != i ==> Services(next)[k] == Services(prev)[k]
    ensures var old_ := Services(prev)[i]; var new_ := Services(next)[i];
      && (lang.Some? && field.TitleKey? ==>
            new_ == old_.(title := new_.title) && new_.title.Get(lang.value) == Some(v)
            && new_.title.Get(lang.value.Other()) == old_.title.Get(lang.value.Other()))
      && (lang.Some? && field.DescriptionKey? ==>
            new_ == old_.(description := new_.description) && new_.description.Get(lang.value) == Some(v)
            && new_.description.Get(lang.value.Other()) == old_.description.Get(lang.value.Other()))
      && (field.IconKey? ==> new_ == old_.(icon := v))
      && (field.HrefKey? ==> new_ == old_.(href := v))
      && (field.IdKey? ==> new_ == old_.(id := v))
      && (field.EnKey? || field.TaKey? || (lang.None? && (field.TitleKey? || field.DescriptionKey?)) ==> new_ == old_)
    ensures next.sectionTitle == prev.sectionTitle && next.sectionDescription == prev.sectionDescription
  {
    var s := Services(prev);
    prev.(services := Some(s[i := EditService(s[i], field, v, lang)]))
  }

  /** `handleAddService`: one blank item at the end, its id the clock reading in decimal. */
  function HandleAddService(prev: QuickServicesDraft, now: nat): (next: QuickServicesDraft)
    ensures |Services(next)| == |Services(prev)| + 1
    ensures Services(next)[..|Services(prev)|] == Services(prev)
    ensures Services(next)[|Services(prev)|] == ServiceItem(Decimal(now), "", BlankText, BlankText, "")
    ensures next.sectionTitle == prev.sectionTitle && next.sectionDescription == prev.sectionDescription
  {
    prev.(services := Some(Services(prev) + [ServiceItem(Decimal(now), "", BlankText, BlankText, "")]))
  }

  /** `handleRemoveService`: filters out position i; an index outside the list changes nothing. */
  function HandleRemoveService(prev: QuickServicesDraft, i: int): (next: QuickServicesDraft)
    ensures 0 <= i < |Services(prev)| ==> Services(next) == Services(prev)[..i] + Services(prev)[i + 1..]
    ensures !(0 <= i < |Services(prev)|) ==> Services(next) == Services(prev)
    ensures next.sectionTitle == prev.sectionTitle && next.sectionDescription == prev.sectionDescription
  {
    prev.(services := Some(WithoutIndex(Services(prev), i)))
  }
}
