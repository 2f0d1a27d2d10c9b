/** The contact-information editor: three bilingual sections and three plain strings. */
module ContactInfo {
  import opened Common
  import opened Editor

  datatype ContactInfoDraft = ContactInfoDraft(
    address: Option<MultiLangText>,
    workingHours: Option<MultiLangText>,
    workingDays: Option<MultiLangText>,
    phone1: Option<string>,
    phone2: Option<string>,
    email: Option<string>)

  datatype ContactSection = Address | WorkingHours | WorkingDays | Phone1Section | Phone2Section | EmailSection {
    predicate Nested() {
      Address? || WorkingHours? || WorkingDays?
    }
  }

  /** The `field` argument: a language inside a nested section, or a top-level key. */
  datatype ContactField = LangKey(lang: Lang) | Phone1Key | Phone2Key | EmailKey

  function SectionText(d: ContactInfoDraft, section: ContactSection): Option<MultiLangText>
    requires section.Nested()
  {
    match section
    case Address => d.address
    case WorkingHours => d.workingHours
    case WorkingDays => d.workingDays
  }

  function TopLevel(d: ContactInfoDraft, field: ContactField): Option<string>
    requires !field.LangKey?
  {
    match field
    case Phone1Key => d.phone1
    case Phone2Key => d.phone2
    case EmailKey => d.email
  }

  const ContactInfoMessages := Messages("Failed to fetch contact information.", "Contact information updated successfully!", "Failed to save contact information.")

  /** The page's initial state: an empty draft `{}` and the contact-info banners. */
  method NewContactInfoPage() returns (page: SingletonPage<ContactInfoDraft>)
    ensures fresh(page)
    ensures page.draft == ContactInfoDraft(None, None, None, None, None, None) && page.messages == ContactInfoMessages
    ensures page.fetchClearsError && page.isLoading && !page.isSaving
    ensures page.error == None && page.success == None && page.calls == []
  {
    page := new SingletonPage(ContactInfoDraft(None, None, None, None, None, None), ContactInfoMessages, true);
  }

  /** The render guard: the error alone when loading is done and there is no address. */
  function Render(page: SingletonPage<ContactInfoDraft>): (s: Screen)
    reads page
    ensures s == LoadingNotice <==> page.isLoading
    ensures s.ErrorOnly? <==> !page.isLoading && page.error.Some? && page.draft.address.None?
    ensures s.ErrorOnly? ==> s.message == page.error.value
    ensures s == EditForm <==> !page.isLoading && (page.error.None? || page.draft.address.Some?)
  {
    Guard(page.isLoading, page.error, page.draft.address.Some?)
  }

  /** `handleInputChange(section, field, v)`. For address, working hours and working days it
      sets `section[field]` and keeps the sibling language; for any other section it ignores
      the section and sets the top-level key `field`. Nothing else changes in either branch. */
  function HandleInputChange(prev: ContactInfoDraft, section: ContactSection, field: ContactField, v: string): (next: ContactInfoDraft)
    requires section.Nested() <==> field.LangKey?
    ensures section.Nested() ==>
      At(SectionText(next, section), field.lang) == Some(v)
      && At(SectionText(next, section), field.lang.Other()) == At(SectionText(prev, section), field.lang.Other())
      && (forall s: ContactSection :: s.Nested() && s != section ==> SectionText(next, s) == SectionText(prev, s))
      && next.phone1 == prev.phone1 && next.phone2 == prev.phone2 && next.email == prev.email
    ensures !section.Nested() ==>
      TopLevel(next, field) == Some(v)
      && (forall f: ContactField :: !f.LangKey? && f != field ==> TopLevel(next, f) == TopLevel(prev, f))
      && next.address == prev.address && next.workingHours == prev.workingHours && next.workingDays == prev.workingDays
  {
    match section
    case Address => prev.(address := Some(SetLang(prev.address, field.lang, v)))
    case WorkingHours => prev.(workingHours := Some(SetLang(prev.workingHours, field.lang, v)))
    case WorkingDays => prev.(workingDays := Some(SetLang(prev.workingDays, field.lang, v)))
    case _ =>
      match field
      case Phone1Key => prev.(phone1 := Some(v))
      case Phone2Key => prev.(phone2 := Some(v))
      case EmailKey => prev.(email := Some(v))
  }

  /** The phone and email inputs pass the same key as section and field, so each sets its own key. */
  lemma DirectInputsSetTheirKey(prev: ContactInfoDraft, v: string)
    ensures HandleInputChange(prev, Phone1Section, Phone1Key, v) == prev.(phone1 := Some(v))
    ensures HandleInputChange(prev, Phone2Section, Phone2Key, v) == prev.(phone2 := Some(v))
    ensures HandleInputChange(prev, EmailSection, EmailKey, v) == prev.(email := Some(v))
  {
  }
}
