/** The before-header service: `getBeforeHeader` maps the backend's flat record into nested
    pairs, and `updateBeforeHeader` encodes a draft as a multipart form. The two do not use
    the same shape, so a fetched document does not survive being saved back. */
module BeforeHeaderService {
  import opened Common
  import opened Entities

  /** The flat record the backend keeps under /before-header; `logo` and `yearsImage` are stored paths. */
  datatype StoredBeforeHeader = StoredBeforeHeader(
    id: string,
    logo: string, logoAltTamil: string, logoAltEnglish: string,
    titleTamil: string, titleEnglish: string,
    subtitleTamil: string, subtitleEnglish: string,
    yearsImage: string, yearsImageAlt: string,
    contacts: seq<Contact>)

  datatype TaEn = TaEn(ta: string, en: string)

  /** The object `getBeforeHeader` returns. */
  datatype Fetched = Fetched(
    logo: string, logoAlt: TaEn, title: TaEn, subtitle: TaEn,
    yearsImage: string, yearsImageAlt: string, contacts: seq<Contact>)

  /** `getBeforeHeader`: the flat Tamil/English keys become `{ ta, en }` pairs; the paths, the
      years-image alt text and the contacts are copied; the id is not. */
  function GetBeforeHeader(r: StoredBeforeHeader): (f: Fetched)
    ensures f.logoAlt == TaEn(r.logoAltTamil, r.logoAltEnglish)
    ensures f.title == TaEn(r.titleTamil, r.titleEnglish) && f.subtitle == TaEn(r.subtitleTamil, r.subtitleEnglish)
    ensures f.logo == r.logo && f.yearsImage == r.yearsImage
    ensures f.yearsImageAlt == r.yearsImageAlt && f.contacts == r.contacts
  {
    Fetched(r.logo, TaEn(r.logoAltTamil, r.logoAltEnglish), TaEn(r.titleTamil, r.titleEnglish),
            TaEn(r.subtitleTamil, r.subtitleEnglish), r.yearsImage, r.yearsImageAlt, r.contacts)
  }

  /** The fetched object keeps everything stored except the id: two records fetch alike
      exactly when they differ at most in their id. */
  lemma FetchKeepsAllButId(r1: StoredBeforeHeader, r2: StoredBeforeHeader)
    ensures GetBeforeHeader(r1) == GetBeforeHeader(r2) <==> r1.(id := r2.id) == r2
  {
    if GetBeforeHeader(r1) == GetBeforeHeader(r2) {
      assert GetBeforeHeader(r1).title.ta == GetBeforeHeader(r2).title.ta;
    }
  }

  /** The page's draft once it stores a fetched object, read through the keys the page and the
      encoder use. `logo` and `yearsImage` hold path strings, which have none of the keys `src`,
      `altTamil`, `altEnglish` or `alt`; `title` and `subtitle` hold `{ ta, en }`, which has no
      `tamil` or `english`; there is no `_id`. Only the contacts come through. */
  function DraftOf(f: Fetched): (d: BeforeHeaderData)
    ensures d.id.None? && d.contacts == Some(f.contacts)
    ensures d.logo.Some? && d.logo.value.src.None? && d.logo.value.altTamil.None? && d.logo.value.altEnglish.None?
    ensures d.title.Some? && d.title.value.tamil.None? && d.title.value.english.None?
    ensures d.subtitle.Some? && d.subtitle.value.tamil.None? && d.subtitle.value.english.None?
    ensures d.yearsImage.Some? && d.yearsImage.value.src.None? && d.yearsImage.value.alt.None?
  {
    BeforeHeaderData(None, Some(Logo(None, None, None)), Some(TamilEnglish(None, None)),
                     Some(TamilEnglish(None, None)), Some(YearsImage(None, None)), Some(f.contacts))
  }

  /** `FormData.append(name, v)` for a value that is not a file: an absent key is sent as "undefined". */
  function Stringify(v: Option<string>): string {
    if v.Some? then v.value else "undefined"
  }

  /** The image field: the file itself under `fileName` when one was picked, otherwise the
      stored path (stringified) under `pathName`. */
  function ImageField(src: Option<ImageSrc>, fileName: string, pathName: string): FormField {
    if src.Some? && src.value.Picked? then FormField(fileName, Blob(src.value.file))
    else FormField(pathName, Str(if src.Some? then src.value.path else "undefined"))
  }

  predicate PickedFile(src: Option<ImageSrc>) {
    src.Some? && src.value.Picked?
  }

  /** `JSON.stringify(contacts)`, with the encoding itself a parameter; `undefined` is sent as "undefined". */
  function ContactsText(contacts: Option<seq<Contact>>, json: seq<Contact> -> string): string {
    if contacts.Some? then json(contacts.value) else "undefined"
  }

  const TextFieldNames := ["_id", "logoAltTamil", "logoAltEnglish", "titleTamil", "titleEnglish",
                           "subtitleTamil", "subtitleEnglish", "yearsImageAlt"]

  /** The eleven fields `updateBeforeHeader` appends once the four nested objects are present:
      the texts under their flat names ("undefined" for a missing key), then exactly one of
      `logo`/`logoSrc` and one of `yearsImage`/`yearsImageSrc` (the file when one was picked,
      the path otherwise), then the JSON contacts. */
  function EncodedFields(id: Option<string>, logo: Logo, title: TamilEnglish, subtitle: TamilEnglish,
                         years: YearsImage, contacts: Option<seq<Contact>>, json: seq<Contact> -> string): (fields: seq<FormField>)
    ensures |fields| == 11
    ensures forall k :: 0 <= k < 8 ==> fields[k].name == TextFieldNames[k]
    ensures fields[8].name == (if PickedFile(logo.src) then "logo" else "logoSrc")
    ensures fields[9].name == (if PickedFile(years.src) then "yearsImage" else "yearsImageSrc")
    ensures fields[10].name == "contacts"
    ensures fields[0].value == Str(id.GetOr(""))
    ensures fields[1].value == Str(Stringify(logo.altTamil)) && fields[2].value == Str(Stringify(logo.altEnglish))
    ensures fields[3].value == Str(Stringify(title.tamil)) && fields[4].value == Str(Stringify(title.english))
    ensures fields[5].value == Str(Stringify(subtitle.tamil)) && fields[6].value == Str(Stringify(subtitle.english))
    ensures fields[7].value == Str(Stringify(years.alt))
    ensures PickedFile(logo.src) ==> fields[8].value == Blob(logo.src.value.file)
    ensures PickedFile(years.src) ==> fields[9].value == Blob(years.src.value.file)
    ensures fields[10].value == Str(ContactsText(contacts, json))
  {
    [FormField("_id", Str(id.GetOr(""))),
     FormField("logoAltTamil", Str(Stringify(logo.altTamil))),
     FormField("logoAltEnglish", Str(Stringify(logo.altEnglish))),
     FormField("titleTamil", Str(Stringify(title.tamil))),
     FormField("titleEnglish", Str(Stringify(title.english))),
     FormField("subtitleTamil", Str(Stringify(subtitle.tamil))),
     FormField("subtitleEnglish", Str(Stringify(subtitle.english))),
     FormField("yearsImageAlt", Str(Stringify(years.alt))),
     ImageField(logo.src, "logo", "logoSrc"),
     ImageField(years.src, "yearsImage", "yearsImageSrc"),
     FormField("contacts", Str(ContactsText(contacts, json)))]
  }

  /** The multipart form `updateBeforeHeader` sends, or None when reading a key of an absent
      `logo`, `title`, `subtitle` or `yearsImage` throws before anything is sent. */
  function BeforeHeaderForm(d: BeforeHeaderData, json: seq<Contact> -> string): (r: Option<seq<FormField>>)
    ensures r.Some? <==> d.logo.Some? && d.title.Some? && d.subtitle.Some? && d.yearsImage.Some?
  {
    if d.logo.None? || d.title.None? || d.subtitle.None? || d.yearsImage.None? then None
    else Some(EncodedFields(d.id, d.logo.value, d.title.value, d.subtitle.value, d.yearsImage.value, d.contacts, json))
  }

  /** `updateBeforeHeader`: fills a FormData buffer append by append. A TypeError from reading
      a key of an absent object abandons the buffer, and no request is made. */
  method UpdateBeforeHeader(d: BeforeHeaderData, json: seq<Contact> -> string) returns (r: Option<seq<FormField>>)
    ensures r == BeforeHeaderForm(d, json)
  {
    var form: seq<FormField> := [];
    form := form + [FormField("_id", Str(d.id.GetOr("")))];
    if d.logo.None? {
      return None;
    }
    form := form + [FormField("logoAltTamil", Str(Stringify(d.logo.value.altTamil)))];
    form := form + [FormField("logoAltEnglish", Str(Stringify(d.logo.value.altEnglish)))];
    if d.title.None? {
      return None;
    }
    form := form + [FormField("titleTamil", Str(Stringify(d.title.value.tamil)))];
    form := form + [FormField("titleEnglish", Str(Stringify(d.title.value.english)))];
    if d.subtitle.None? {
      return None;
    }
    form := form + [FormField("subtitleTamil", Str(Stringify(d.subtitle.value.tamil)))];
    form := form + [FormField("subtitleEnglish", Str(Stringify(d.subtitle.value.english)))];
    if d.yearsImage.None? {
      return None;
    }
    form := form + [FormField("yearsImageAlt", Str(Stringify(d.yearsImage.value.alt)))];
    form := form + [ImageField(d.logo.value.src, "logo", "logoSrc")];
    form := form + [ImageField(d.yearsImage.value.src, "yearsImage", "yearsImageSrc")];
    form := form + [FormField("contacts", Str(ContactsText(d.contacts, json)))];
    assert form == EncodedFields(d.id, d.logo.value, d.title.value, d.subtitle.value, d.yearsImage.value, d.contacts, json) by {
      assert |form| == 11;
    }
    r := Some(form);
  }

  /** The stored record as the multipart fields the backend reads back: every text under its
      flat key, and the stored image paths under the keep-the-stored-path keys. */
  function StoredFields(r: StoredBeforeHeader, json: seq<Contact> -> string): (fields: seq<FormField>)
    ensures Names(fields) == TextFieldNames + ["logoSrc", "yearsImageSrc", "contacts"]
    ensures forall k :: 0 <= k < |fields| ==> fields[k].value.Str?
  {
    [FormField("_id", Str(r.id)),
     FormField("logoAltTamil", Str(r.logoAltTamil)), FormField("logoAltEnglish", Str(r.logoAltEnglish)),
     FormField("titleTamil", Str(r.titleTamil)), FormField("titleEnglish", Str(r.titleEnglish)),
     FormField("subtitleTamil", Str(r.subtitleTamil)), FormField("subtitleEnglish", Str(r.subtitleEnglish)),
     FormField("yearsImageAlt", Str(r.yearsImageAlt)),
     FormField("logoSrc", Str(r.logo)), FormField("yearsImageSrc", Str(r.yearsImage)),
     FormField("contacts", Str(json(r.contacts)))]
  }

  /** Fetching and saving back unchanged, as written: the form carries "undefined" for every
      alt text, title, subtitle and image path, and an empty `_id`; only the contacts survive.
      So whenever the stored Tamil title is not literally "undefined", the save differs from
      what was stored. */
  lemma FetchThenSaveLosesStoredText(r: StoredBeforeHeader, json: seq<Contact> -> string)
    ensures var form := BeforeHeaderForm(DraftOf(GetBeforeHeader(r)), json);
      form.Some?
      && (forall k :: 1 <= k < 10 ==> form.value[k].value == Str("undefined"))
      && form.value[0].value == Str("")
      && form.value[10].value == Str(json(r.contacts))
    ensures r.titleTamil != "undefined" ==>
      BeforeHeaderForm(DraftOf(GetBeforeHeader(r)), json) != Some(StoredFields(r, json))
  {
  }

  /** The fetch as intended: the flat record mapped into the shape the page and the encoder read. */
  function GetBeforeHeaderFixed(r: StoredBeforeHeader): (d: BeforeHeaderData)
    ensures d.id == Some(r.id) && d.contacts == Some(r.contacts)
    ensures d.logo.Some? && d.title.Some? && d.subtitle.Some? && d.yearsImage.Some?
  {
    BeforeHeaderData(
      Some(r.id),
      Some(Logo(Some(Path(r.logo)), Some(r.logoAltTamil), Some(r.logoAltEnglish))),
      Some(TamilEnglish(Some(r.titleTamil), Some(r.titleEnglish))),
      Some(TamilEnglish(Some(r.subtitleTamil), Some(r.subtitleEnglish))),
      Some(YearsImage(Some(Path(r.yearsImage)), Some(r.yearsImageAlt))),
      Some(r.contacts))
  }

  /** With the intended fetch, saving an unchanged document sends back exactly what is stored. */
  lemma FixedFetchThenSaveRoundTrips(r: StoredBeforeHeader, json: seq<Contact> -> string)
    ensures BeforeHeaderForm(GetBeforeHeaderFixed(r), json) == Some(StoredFields(r, json))
  {
  }
}
