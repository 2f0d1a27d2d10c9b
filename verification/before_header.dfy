/** The before-header editor: logo and years image (a stored path or a newly picked file),
    their alt texts, a Tamil/English title and subtitle, and an ordered list of contacts.
    The image and text handlers update the latest state; the contact handlers build the new
    list from the state of the render that bound them (`snapshot`) and store it into the
    latest state (`prev`). */
module BeforeHeader {
  import opened Common
  import opened Entities
  import opened Editor
  import opened BeforeHeaderService


  /** The seven text inputs, each a `(field, subfield)` pair of `handleTextChange`. */
  datatype TextTarget = LogoAltEnglish | LogoAltTamil | YearsImageAlt
                      | TitleEnglish | TitleTamil | SubtitleEnglish | SubtitleTamil

  /** `data[field]?.[subfield]`, the value behind one text input. */
  function TextAt(d: BeforeHeaderData, t: TextTarget): Option<string> {
    match t
    case LogoAltEnglish => if d.logo.Some? then d.logo.value.altEnglish else None
    case LogoAltTamil => if d.logo.Some? then d.logo.value.altTamil else None
    case YearsImageAlt => if d.yearsImage.Some? then d.yearsImage.value.alt else None
    case TitleEnglish => if d.title.Some? then d.title.value.english else None
    case TitleTamil => if d.title.Some? then d.title.value.tamil else None
    case SubtitleEnglish => if d.subtitle.Some? then d.subtitle.value.english else None
    case SubtitleTamil => if d.subtitle.Some? then d.subtitle.value.tamil else None
  }

  function LogoSrc(d: BeforeHeaderData): Option<ImageSrc> {
    if d.logo.Some? then d.logo.value.src else None
  }

  function YearsImageSrc(d: BeforeHeaderData): Option<ImageSrc> {
    if d.yearsImage.Some? then d.yearsImage.value.src else None
  }

  /** `data.contacts || []` */
  function Contacts(d: BeforeHeaderData): seq<Contact> {
    d.contacts.GetOr([])
  }

  /** The draft the page starts from, before anything is fetched: every text input and both
      image sources empty, no contacts, no id, and a draft the encoder accepts. */
  function InitialDraft(): (d: BeforeHeaderData)
    ensures forall t: TextTarget :: TextAt(d, t) == Some("")
    ensures LogoSrc(d) == Some(Path("")) && YearsImageSrc(d) == Some(Path(""))
    ensures d.id.None? && Contacts(d) == [] && d.contacts.Some?
    ensures BeforeHeaderForm(d, (cs: seq<Contact>) => "[]").Some?
  {
    BeforeHeaderData(None, Some(Logo(Some(Path("")), Some(""), Some(""))),
                     Some(TamilEnglish(Some(""), Some(""))), Some(TamilEnglish(Some(""), Some(""))),
                     Some(YearsImage(Some(Path("")), Some(""))), Some([]))
  }

  /** `getImageUrl`: empty for no source (or an empty path), the media base URL followed by a
      stored path, or an object URL for a picked file. The base URL (the environment variable,
      or "" when unset) and the object-URL factory are parameters. */
  function GetImageUrl(src: Option<ImageSrc>, mediaBase: string, objectUrl: FileRef -> string): (url: string)
    ensures src.None? ==> url == ""
    ensures src.Some? && src.value.Path? ==>
      url == (if src.value.path == "" then "" else mediaBase + src.value.path)
    ensures src.Some? && src.value.Picked? ==> url == objectUrl(src.value.file)
  {
    match src
    case None => ""
    case Some(Path(p)) => if p == "" then "" else mediaBase + p
    case Some(Picked(f)) => objectUrl(f)
  }

  /** `handleLogoChange`: the picked file becomes the logo source; the alt texts stay, or are
      "" when there was no logo object. Nothing else changes. */
  function HandleLogoChange(prev: BeforeHeaderData, file: FileRef): (next: BeforeHeaderData)
    ensures LogoSrc(next) == Some(Picked(file))
    ensures prev.logo.Some? ==>
      TextAt(next, LogoAltTamil) == TextAt(prev, LogoAltTamil) && TextAt(next, LogoAltEnglish) == TextAt(prev, LogoAltEnglish)
    ensures prev.logo.None? ==> TextAt(next, LogoAltTamil) == Some("") && TextAt(next, LogoAltEnglish) == Some("")
    ensures next.(logo := prev.logo) == prev
  {
    var l := prev.logo.GetOr(Logo(None, Some(""), Some("")));
    prev.(logo := Some(l.(src := Some(Picked(file)))))
  }

  /** `handleYearsImageChange`: the picked file becomes the years-image source; its alt text
      stays, or is "" when there was no years-image object. Nothing else changes. */
  function HandleYearsImageChange(prev: BeforeHeaderData, file: FileRef): (next: BeforeHeaderData)
    ensures YearsImageSrc(next) == Some(Picked(file))
    ensures prev.yearsImage.Some? ==> TextAt(next, YearsImageAlt) == TextAt(prev, YearsImageAlt)
    ensures prev.yearsImage.None? ==> TextAt(next, YearsImageAlt) == Some("")
    ensures next.(yearsImage := prev.yearsImage) == prev
  {
    var y := prev.yearsImage.GetOr(YearsImage(None, Some("")));
    prev.(yearsImage := Some(y.(src := Some(Picked(file)))))
  }

  /** `handleTextChange(field, subfield, v)`: `{ ...prev[field], [subfield]: v }`. The input
      shows the new value; every other input, both image sources, the contacts and the id stay. */
  function HandleTextChange(prev: BeforeHeaderData, t: TextTarget, v: string): (next: BeforeHeaderData)
    ensures TextAt(next, t) == Some(v)
    ensures forall u: TextTarget :: u != t ==> TextAt(next, u) == TextAt(prev, u)
    ensures LogoSrc(next) == LogoSrc(prev) && YearsImageSrc(next) == YearsImageSrc(prev)
    ensures next.contacts == prev.contacts && next.id == prev.id
  {
    match t
    case LogoAltEnglish =>
      prev.(logo := Some(prev.logo.GetOr(Logo(None, None, None)).(altEnglish := Some(v))))
    case LogoAltTamil =>
      prev.(logo := Some(prev.logo.GetOr(Logo(None, None, None)).(altTamil := Some(v))))
    case YearsImageAlt =>
      prev.(yearsImage := Some(prev.yearsImage.GetOr(YearsImage(None, None)).(alt := Some(v))))
    case TitleEnglish =>
      prev.(title := Some(prev.title.GetOr(TamilEnglish(None, None)).(english := Some(v))))
    case TitleTamil =>
      prev.(title := Some(prev.title.GetOr(TamilEnglish(None, None)).(tamil := Some(v))))
    case SubtitleEnglish =>
      prev.(subtitle := Some(prev.subtitle.GetOr(TamilEnglish(None, None)).(english := Some(v))))
    case SubtitleTamil =>
      prev.(subtitle := Some(prev.subtitle.GetOr(TamilEnglish(None, None)).(tamil := Some(v))))
  }

  /** The keys of a contact the inputs edit; `KindKey` is the key `type`. */
  datatype ContactField = KindKey | ValueKey | DisplayKey | HrefKey | IconKey

  function ContactValue(c: Contact, field: ContactField): string {
    match field
    case KindKey => c.kind
    case ValueKey => c.value
    case DisplayKey => c.display
    case HrefKey => c.href
    case IconKey => c.icon
  }

  function SetContactField(c: Contact, field: ContactField, v: string): Contact {
    match field
    case KindKey => c.(kind := v)
    case ValueKey => c.(value := v)
    case DisplayKey => c.(display := v)
    case HrefKey => c.(href := v)
    case IconKey => c.(icon := v)
  }

  const BlankContact := Contact("", "", "", "", "")

  /** `handleContactChange`: contact i of the snapshot's list is copied and one key set; the
      latest state keeps everything but its contacts. */
  function HandleContactChange(snapshot: BeforeHeaderData, prev: BeforeHeaderData, i: int, field: ContactField, v: string): (next: BeforeHeaderData)
    requires 0 <= i < |Contacts(snapshot)|
    ensures |Contacts(next)| == |Contacts(snapshot)|
    ensures ContactValue(Contacts(next)[i], field) == v
    ensures forall f: ContactField :: f != field ==>
      ContactValue(Contacts(next)[i], f) == ContactValue(Contacts(snapshot)[i], f)
    ensures forall k :: 0 <= k < |Contacts(snapshot)| && k != i ==> Contacts(next)[k] == Contacts(snapshot)[k]
    ensures next.(contacts := prev.contacts) == prev
  {
    var cs := Contacts(snapshot);
    prev.(contacts := Some(cs[i := SetContactField(cs[i], field, v)]))
  }

  /** `addContact`: the snapshot's list with one blank contact at the end. */
  function AddContact(snapshot: BeforeHeaderData, prev: BeforeHeaderData): (next: BeforeHeaderData)
    ensures Contacts(next) == Contacts(snapshot) + [BlankContact]
    ensures next.(contacts := prev.contacts) == prev
  {
    prev.(contacts := Some(Contacts(snapshot) + [BlankContact]))
  }

  /** `removeContact`: `splice(i, 1)` on a copy of the snapshot's list. */
  function RemoveContact(snapshot: BeforeHeaderData, prev: BeforeHeaderData, i: int): (next: BeforeHeaderData)
    ensures 0 <= i < |Contacts(snapshot)| ==> Contacts(next) == Contacts(snapshot)[..i] + Contacts(snapshot)[i + 1..]
    ensures i >= |Contacts(snapshot)| ==> Contacts(next) == Contacts(snapshot)
    ensures next.(contacts := prev.contacts) == prev
  {
    prev.(contacts := Some(SpliceOne(Contacts(snapshot), i)))
  }

  /** Two contact updates queued from the same render both start from its snapshot, so the
      second overwrites the first: two clicks on "Add Contact" before a re-render add one
      contact, and an edit followed by an add loses the edit. */
  lemma QueuedContactUpdatesFromOneRenderKeepOnlyTheLast(snapshot: BeforeHeaderData, i: int, field: ContactField, v: string)
    requires 0 <= i < |Contacts(snapshot)|
    ensures |Contacts(AddContact(snapshot, AddContact(snapshot, snapshot)))| == |Contacts(snapshot)| + 1
    ensures Contacts(AddContact(snapshot, HandleContactChange(snapshot, snapshot, i, field, v)))[i] == Contacts(snapshot)[i]
  {
  }

  /** When the handler's snapshot is the latest state (one update per render), adding and then
      editing the new contact is an ordinary sequential update. */
  lemma AddThenEditAcrossRenders(d: BeforeHeaderData, field: ContactField, v: string)
    ensures var added := AddContact(d, d);
      var edited := HandleContactChange(added, added, |Contacts(d)|, field, v);
      Contacts(edited) == Contacts(d) + [SetContactField(BlankContact, field, v)]
      && edited.(contacts := d.contacts) == d
  {
  }

  /** With the intended fetch, every input of the page shows the stored value. */
  lemma FixedFetchFillsEveryInput(r: StoredBeforeHeader)
    ensures var d := GetBeforeHeaderFixed(r);
      && TextAt(d, LogoAltTamil) == Some(r.logoAltTamil) && TextAt(d, LogoAltEnglish) == Some(r.logoAltEnglish)
      && TextAt(d, TitleTamil) == Some(r.titleTamil) && TextAt(d, TitleEnglish) == Some(r.titleEnglish)
      && TextAt(d, SubtitleTamil) == Some(r.subtitleTamil) && TextAt(d, SubtitleEnglish) == Some(r.subtitleEnglish)
      && TextAt(d, YearsImageAlt) == Some(r.yearsImageAlt)
      && LogoSrc(d) == Some(Path(r.logo)) && YearsImageSrc(d) == Some(Path(r.yearsImage))
      && Contacts(d) == r.contacts
  {
  }

  const BeforeHeaderMessages := Messages("Failed to fetch data.", "Data updated successfully!", "Failed to save data.")

  /** The page's initial state: the initial draft, loading, and a fetch that leaves an earlier
      error in place. */
  method NewBeforeHeaderPage() returns (page: SingletonPage<BeforeHeaderData>)
    ensures fresh(page)
    ensures page.draft == InitialDraft() && page.messages == BeforeHeaderMessages
    ensures !page.fetchClearsError && page.isLoading && !page.isSaving
    ensures page.error == None && page.success == None && page.calls == []
  {
    page := new SingletonPage(InitialDraft(), BeforeHeaderMessages, false);
  }

  /** The render guard: only the loading notice; an error is shown above the form, never instead of it. */
  function Render(page: SingletonPage<BeforeHeaderData>): (s: Screen)
    reads page
    ensures s == LoadingNotice <==> page.isLoading
    ensures s == EditForm <==> !page.isLoading
    ensures !s.ErrorOnly?
  {
    if page.isLoading then LoadingNotice else EditForm
  }

  /** The mount-time fetch: the object `getBeforeHeader` returns (None when the request fails)
      is stored as the draft. After a successful fetch every text input is empty and only the
      contacts hold the stored values. */
  method LoadBeforeHeader(page: SingletonPage<BeforeHeaderData>, stored: Option<StoredBeforeHeader>)
    requires !page.fetchClearsError
    modifies page
    ensures page.calls == old(page.calls) + [Get] && !page.isLoading
    ensures stored.Some? ==>
      page.draft == DraftOf(GetBeforeHeader(stored.value))
      && (forall t :: TextAt(page.draft, t) == None)
      && Contacts(page.draft) == stored.value.contacts
      && page.error == old(page.error)
    ensures stored.None? ==> page.draft == old(page.draft) && page.error == Some(page.messages.fetchFailed)
  {
    ghost var loadingAtCall, errorAtCall;
    if stored.Some? {
      loadingAtCall, errorAtCall := page.Fetch(Succeeded(DraftOf(GetBeforeHeader(stored.value))));
    } else {
      loadingAtCall, errorAtCall := page.Fetch(Failed);
    }
  }

  /** `handleSubmit`: the draft goes through the encoder; a draft it cannot encode fails the
      save like a rejected request does. */
  method HandleSubmit(page: SingletonPage<BeforeHeaderData>, json: seq<Contact> -> string, accepted: bool) returns (form: Option<seq<FormField>>)
    modifies page
    ensures form == BeforeHeaderForm(old(page.draft), json)
    ensures page.calls == old(page.calls) + [Update(old(page.draft))]
    ensures form.Some? && accepted ==> page.success == Some(page.messages.saved) && page.error == None
    ensures form.None? || !accepted ==> page.error == Some(page.messages.saveFailed) && page.success == None
    ensures page.draft == old(page.draft) && !page.isSaving
  {
    form := UpdateBeforeHeader(page.draft, json);
    ghost var savingAtCall, errorAtCall, successAtCall := page.Submit(form.Some? && accepted);
  }
}
