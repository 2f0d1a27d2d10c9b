# Bank admin panel: editors and list pages

This project models the client side of a bilingual (English/Tamil) content-management panel
for a bank's marketing website, and proves properties of the model in Dafny.

The panel has two kinds of screens.

- **Singleton editors**: header, footer, quick services, contact information, hero banner and
  the before-header strip. Each holds one draft document, loads it once, lets the user edit it
  through small reducers, and sends the whole draft back on submit. The reducers are pure
  functions from the previous draft to the next one (`Header.HandleInputChange`,
  `Footer.HandleAddLink`, …). The loading/saving flags and the banners live in one generic
  class, `Editor.SingletonPage<D>`, whose methods change them step by step.
- **List pages**: slides, loans, announcements and videos. Each keeps the fetched items, a
  loading flag, an error banner and an add/edit modal (`Listing.ListPage<T>`). Each has a form
  class (`Slides.SlideForm`, …) that builds a payload and makes exactly one create or update call.

The before-header service is modelled on its own (`BeforeHeaderService`). It has two halves.
`getBeforeHeader` maps the backend's flat record into nested pairs. `updateBeforeHeader`
encodes a draft as an eleven-field multipart form.

Modelling conventions:

- A JavaScript object whose keys may be missing is a datatype of `Option` fields. Spreading
  `undefined` and then setting one key gives an object with that key only. So `MultiLangText`
  has optional `en` and `ta`.
- Backend calls are not executed. Each call is appended to a `calls` log on the page or form,
  and its outcome (success with data, or failure) is a parameter of the handler.
- The flags while a request is in flight are returned as ghost out-parameters.
- `window.confirm`, `Date.now()`, the media base URL, `URL.createObjectURL` and
  `JSON.stringify` are parameters.
- The before-header contact handlers read the list from the render that bound them, but write
  into the latest state. They therefore take both: `snapshot` and `prev`.

Notes on behaviour:

- A successful fetch replaces the draft with the response. It does not merge the response into
  the draft.
- The header's link edit writes into the link object that the previous state also holds (see
  Findings). No other editor mutates its previous state.
- The before-header fetch does not clear an earlier error. Its render has no error-only screen.
- A list page keeps its previous items when a fetch fails. After a failed first load these are
  the initial empty list.

## Model

| member | source | states |
|---|---|---|
| Common.SetLang | src/app/hero/page.tsx:30-35 | `{ ...t, [lang]: v }` sets the chosen language to v and keeps the other language, also when the section was absent |
| Common.EditLink | src/app/footer/page.tsx:54-64 | an href edit sets only the href; a text edit with a language sets only that language; a text edit without a language changes nothing |
| Common.WithoutIndex | src/app/header/page.tsx:56-61 | filtering out index i gives the list without position i, in order; an index outside the list leaves it unchanged |
| Common.SpliceOne | src/app/footer/page.tsx:84-94 | `splice(i, 1)` removes position i for 0 <= i, and position n+i for a negative i that is in range (JavaScript's negative index) |
| Common.Decimal | src/app/quick-services/page.tsx:54 | the decimal text of a clock reading is non-empty, all digits, and one digit long exactly for readings below 10 |
| Common.DecimalDenotes | src/app/quick-services/page.tsx:54 | `n.toString()` read back as decimal digits is n, and it has no leading zero unless n is 0 |
| Common.FirstFile | src/components/slides/SlideForm.tsx:115 | the picked file is the first of the list, and there is none when the list is absent or empty |
| Common.Get | src/components/slides/SlideForm.tsx:36-44 | a field read back from a multipart form is one that the form contains under that name |
| Common.GetFirst | src/components/slides/SlideForm.tsx:36-44 | a field whose name no earlier field has is what is read back under that name |
| Common.GetMissing | src/components/slides/SlideForm.tsx:42-44 | a name no field has reads back as absent |
| Common.ValueOf | src/components/announcements/AnnouncementForm.tsx:31 | a key read from a JSON object is a member the object has |
| Common.ValueOfFirst | src/components/announcements/AnnouncementForm.tsx:31 | a member whose key no earlier member has is what is read under that key |
| Common.ValueOfMissing | src/components/videos/VideoForm.tsx:31 | a key no member has reads as absent |
| Editor.Guard | src/app/header/page.tsx:78-79 | the loading notice exactly while loading; the error alone exactly when loading is done, there is an error and the key section is missing |
| Editor.SingletonPage.constructor | src/app/hero/page.tsx:8-12 | the page starts with the given draft, loading, not saving, with no banner and no call made |
| Editor.SingletonPage.Fetch | src/app/hero/page.tsx:14-28 | loading is set (and the error cleared, on every page but the before-header) before the one get call; success replaces the draft; failure keeps it and sets the fetch error; loading is false afterwards |
| Editor.SingletonPage.Submit | src/app/hero/page.tsx:37-50 | both banners are cleared and saving is set before the one update call, which carries the draft; success sets only the success banner, failure only the error; saving is false afterwards and the draft is unchanged |
| Header.NewHeaderPage | src/app/header/page.tsx:8-12 | an empty draft, the header's three messages, loading, no banner, no call |
| Header.Render | src/app/header/page.tsx:78-79 | loading notice exactly while loading; the error alone exactly when loading is done, there is an error and no logo text; the form in every other case |
| Header.HandleInputChange | src/app/header/page.tsx:30-35 | one language of the logo text or language selector is set; the sibling language, the other section and the links are unchanged |
| Header.HandleLinkChange | src/app/header/page.tsx:37-47 | as written: the new state holds the same link objects, and link i of the previous state now shows the edit (href only, or one language of the text) while the other links keep their contents |
| Header.EditShowsInPreviousState | src/app/header/page.tsx:37-47 | a concrete edit of a one-link draft whose href was empty: afterwards the previous state itself reads the new href |
| Header.HandleLinkChangeCopying | src/app/header/page.tsx:37-47 | as intended: the new list has the edited copy at i and the other links unchanged, and the previous state's link contents are untouched |
| Header.HandleAddLink | src/app/header/page.tsx:49-54 | one new blank link at the end; earlier links unchanged and in order; an absent list counts as empty |
| Header.HandleRemoveLink | src/app/header/page.tsx:56-61 | for 0 <= i < n, position i is dropped and the rest keep their order; otherwise the list is unchanged |
| Footer.NewFooterPage | src/app/footer/page.tsx:8-12 | an empty draft, the footer's three messages, loading, no banner, no call |
| Footer.Render | src/app/footer/page.tsx:112-116 | loading notice exactly while loading; the error alone exactly when loading is done, there is an error and no bank name; the form in every other case |
| Footer.HandleInputChange | src/app/footer/page.tsx:30-42 | a text section gets one language set with the sibling kept; for the newsletter the key `en`/`ta` of the block itself is set and its title and description are unchanged; every other section is unchanged |
| Footer.NewsletterInputIsLost | src/app/footer/page.tsx:289-323 | as written: after typing into a newsletter title or description input, that input still shows its old value, so any different value typed is lost |
| Footer.HandleNewsletterChange | src/app/footer/page.tsx:289-323 | as intended: the input shows the typed value; the sibling language, the other part, the stray keys and the other sections are unchanged |
| Footer.HandleLinkChange | src/app/footer/page.tsx:44-68 | link i of that group is the edited copy; group title and length kept; other links, the other group and all sections unchanged |
| Footer.HandleAddLink | src/app/footer/page.tsx:70-82 | one blank link appended to that group only; title kept; an absent group is treated as an empty one |
| Footer.HandleRemoveLink | src/app/footer/page.tsx:84-94 | for 0 <= i < n exactly link i is removed, order kept; an index past the end changes nothing; the other group is untouched |
| QuickServices.NewQuickServicesPage | src/app/quick-services/page.tsx:8-12 | an empty draft, the quick-services messages, loading, no banner, no call |
| QuickServices.Render | src/app/quick-services/page.tsx:80-81 | loading notice exactly while loading; the error alone exactly when loading is done, there is an error and no section title; the form in every other case |
| QuickServices.HandleSectionChange | src/app/quick-services/page.tsx:30-35 | one language of the section title or description is set; sibling language, the other section and the services unchanged |
| QuickServices.HandleServiceChange | src/app/quick-services/page.tsx:37-49 | item i: title/description with a language set that language only; icon, href or id set only that key; any other combination leaves the item as it was; list length and other items unchanged |
| QuickServices.HandleAddService | src/app/quick-services/page.tsx:51-56 | exactly one item appended, with the clock reading in decimal as id and blank texts; earlier items unchanged |
| QuickServices.HandleRemoveService | src/app/quick-services/page.tsx:58-63 | filtering out index i drops exactly that item, order kept; an index outside the list changes nothing |
| ContactInfo.NewContactInfoPage | src/app/contact-info/page.tsx:8-12 | an empty draft, the contact-info messages, loading, no banner, no call |
| ContactInfo.Render | src/app/contact-info/page.tsx:54-55 | loading notice exactly while loading; the error alone exactly when loading is done, there is an error and no address; the form in every other case |
| ContactInfo.HandleInputChange | src/app/contact-info/page.tsx:30-37 | for address, working hours and working days, one language is set and the sibling kept; for any other section the top-level key `field` is set; nothing else changes in either branch |
| ContactInfo.DirectInputsSetTheirKey | src/app/contact-info/page.tsx:77-79 | the phone and email inputs, passing the same key twice, set exactly that key |
| Hero.NewHeroPage | src/app/hero/page.tsx:8-12 | an empty draft, the hero messages, loading, no banner, no call |
| Hero.Render | src/app/hero/page.tsx:52-53 | loading notice exactly while loading; the error alone exactly when loading is done, there is an error and no main text; the form in every other case |
| Hero.HandleInputChange | src/app/hero/page.tsx:30-35 | one language of one section is set; the sibling language and the other sections are unchanged |
| BeforeHeader.InitialDraft | src/components/before-header/BeforeHeader.tsx:13-19 | all seven text inputs read "", both image sources are the empty path, no contacts, no id, and the draft can be encoded |
| BeforeHeader.GetImageUrl | src/components/before-header/BeforeHeader.tsx:26-33 | no source or an empty path gives ""; a path gives the media base followed by it; a picked file gives its object URL |
| BeforeHeader.HandleLogoChange | src/components/before-header/BeforeHeader.tsx:48-56 | the logo source becomes the file; the alt texts are kept, or "" when there was no logo; nothing else changes |
| BeforeHeader.HandleYearsImageChange | src/components/before-header/BeforeHeader.tsx:58-66 | the years-image source becomes the file; its alt is kept, or "" when absent; nothing else changes |
| BeforeHeader.HandleTextChange | src/components/before-header/BeforeHeader.tsx:69-77 | the chosen input shows the value; every other input, both image sources, the contacts and the id are unchanged |
| BeforeHeader.HandleContactChange | src/components/before-header/BeforeHeader.tsx:79-83 | contact i of the render-time list gets the one key set and keeps the others; other contacts and the length come from that list; the rest of the latest state is kept |
| BeforeHeader.AddContact | src/components/before-header/BeforeHeader.tsx:85-88 | the render-time list with one blank contact at the end; the rest of the latest state is kept |
| BeforeHeader.RemoveContact | src/components/before-header/BeforeHeader.tsx:90-94 | splicing a copy of the render-time list removes exactly index i for 0 <= i < n, order kept; an index past the end changes nothing |
| BeforeHeader.QueuedContactUpdatesFromOneRenderKeepOnlyTheLast | src/components/before-header/BeforeHeader.tsx:79-88 | two contact updates from the same render: two adds give one new contact, and an edit followed by an add loses the edit |
| BeforeHeader.AddThenEditAcrossRenders | src/components/before-header/BeforeHeader.tsx:79-88 | with one update per render, adding and then editing the new contact gives the list plus the edited blank contact |
| BeforeHeader.FixedFetchFillsEveryInput | src/services/beforeHeaderService.ts:4-24 | with the corrected fetch every text input, both image sources and the contacts show the stored values |
| BeforeHeader.NewBeforeHeaderPage | src/components/before-header/BeforeHeader.tsx:13-23 | the initial draft, the before-header messages, loading, a fetch that keeps an earlier error, no call |
| BeforeHeader.Render | src/components/before-header/BeforeHeader.tsx:126 | the loading notice exactly while loading and the form otherwise; an error never replaces the form |
| BeforeHeader.LoadBeforeHeader | src/components/before-header/BeforeHeader.tsx:96-109 | one get call; on success the fetched object becomes the draft, so every text input reads as absent and only the contacts hold stored values; on failure the draft is kept and the error set |
| BeforeHeader.HandleSubmit | src/components/before-header/BeforeHeader.tsx:111-124 | the draft goes through the encoder; a draft it cannot encode fails like a rejected request; success or error banner as for the other editors; the draft is unchanged |
| BeforeHeaderService.GetBeforeHeader | src/services/beforeHeaderService.ts:4-24 | the Tamil/English pairs of the logo alt, title and subtitle become `{ ta, en }` objects; both paths, the years-image alt and the contacts are copied |
| BeforeHeaderService.FetchKeepsAllButId | src/services/beforeHeaderService.ts:4-24 | two stored records fetch to the same object exactly when they differ at most in their id, so the fetch drops the id and nothing else |
| BeforeHeaderService.DraftOf | src/components/before-header/BeforeHeader.tsx:96-109 | the fetched object as the page reads it: the four nested objects present, every key the inputs and the encoder read absent, no id, the contacts as fetched |
| BeforeHeaderService.StoredFields | src/services/beforeHeaderService.ts:26-53 | the stored record as a form: the eight text names, then logoSrc, yearsImageSrc and contacts, all string values |
| BeforeHeaderService.GetBeforeHeaderFixed | src/services/beforeHeaderService.ts:4-24 | the intended fetch keeps the id and the contacts and gives all four nested objects, so the encoder accepts the draft |
| BeforeHeaderService.EncodedFields | src/services/beforeHeaderService.ts:26-53 | 11 fields in the fixed order; the texts under their flat names, with "undefined" for a missing key; exactly one of logo/logoSrc and one of yearsImage/yearsImageSrc, the file when one was picked; the JSON contacts last |
| BeforeHeaderService.BeforeHeaderForm | src/services/beforeHeaderService.ts:26-53 | there is a form exactly when logo, title, subtitle and years image are all present; otherwise reading one of their keys throws and nothing is sent |
| BeforeHeaderService.UpdateBeforeHeader | src/services/beforeHeaderService.ts:26-53 | the appends build exactly the encoder's form, or stop with none when a read of an absent object throws |
| BeforeHeaderService.FetchThenSaveLosesStoredText | src/services/beforeHeaderService.ts:4-37 | as written: fetching and saving back unchanged sends "undefined" for all alt texts, titles, subtitles and image paths and an empty id; only the contacts survive, so the save differs from what is stored |
| BeforeHeaderService.FixedFetchThenSaveRoundTrips | src/services/beforeHeaderService.ts:4-53 | with the corrected fetch, saving back unchanged sends exactly the stored record |
| Listing.SaveCallFor | src/components/slides/SlideForm.tsx:47-51 | exactly one call carrying the payload: an update of the edited record's id when there is one, otherwise a create |
| Listing.ListPage.constructor | src/app/slides/page.tsx:9-13 | no items, loading, no error, modal closed, nothing selected, no call |
| Listing.ListPage.Fetch | src/app/slides/page.tsx:15-26 | loading set and error cleared before the one list call; success replaces the items; failure keeps them and sets the fetch error; loading false afterwards; modal and selection untouched |
| Listing.ListPage.HandleAdd | src/app/slides/page.tsx:32-35 | the modal opens with nothing selected; items, flags and calls unchanged |
| Listing.ListPage.HandleEdit | src/app/slides/page.tsx:37-40 | the modal opens with the given item selected; items, flags and calls unchanged |
| Listing.ListPage.HandleDelete | src/app/slides/page.tsx:42-51 | a declined prompt changes nothing; a confirmed one makes one delete call, then on success one refetch, and on failure no refetch, the delete error and the items unchanged |
| Listing.ListPage.HandleSave | src/app/slides/page.tsx:53-56 | the modal closes and the list is fetched again |
| Listing.ListPage.Cancel | src/app/slides/page.tsx:77 | the modal closes and nothing else changes |
| Listing.ListPage.EmptyNoticeShown | src/app/videos/page.tsx:120-122 | the "nothing found" notice needs an empty list; on the videos page it also waits for loading to end, on the others it does not |
| Slides.NewSlidesPage | src/app/slides/page.tsx:9-13 | the slides page starts empty, loading, with its two messages |
| Slides.SlidePayloadReadsBack | src/components/slides/SlideForm.tsx:36-44 | the fields are exactly the five texts in append order, then `image` if and only if a file was picked; each text reads back under its own name and the image is the picked file |
| Slides.SlideForm.constructor | src/components/slides/SlideForm.tsx:12-29 | the texts of the slide being edited (empty when adding), no file, no error, not saving |
| Slides.SlideForm.Edit | src/components/slides/SlideForm.tsx:65-109 | the changed input takes the value and nothing else changes |
| Slides.SlideForm.ChooseImage | src/components/slides/SlideForm.tsx:115 | the image is the first picked file, or none |
| Slides.SlideForm.BuildFormData | src/components/slides/SlideForm.tsx:36-44 | the appends build exactly the payload of the current fields |
| Slides.SlideForm.HandleSubmit | src/components/slides/SlideForm.tsx:31-57 | error cleared and saving set before exactly one update-or-create call with the payload; success calls onSave once, failure sets the error without onSave; saving cleared |
| Slides.SlideForm.Submit | src/components/slides/SlideForm.tsx:61-108 | while any of the five texts is empty the `required` check blocks the submit: nothing changes and no call is made; otherwise exactly the one save call of `handleSubmit`, with its outcome |
| Loans.NewLoansPage | src/app/loans/page.tsx:10-14 | the loans page starts empty, loading, with its two messages |
| Loans.LoanPayloadReadsBack | src/components/loans/LoanForm.tsx:34-41 | the fields are exactly the four texts in append order, then `image` if and only if a file was picked; each text reads back under its own name, there is no link, and the image is the picked file |
| Loans.LoanForm.constructor | src/components/loans/LoanForm.tsx:12-27 | the texts of the loan being edited (empty when adding), no file, no error, not saving |
| Loans.LoanForm.Edit | src/components/loans/LoanForm.tsx:62-98 | the changed input takes the value and nothing else changes |
| Loans.LoanForm.ChooseImage | src/components/loans/LoanForm.tsx:103 | the image is the first picked file, or none |
| Loans.LoanForm.BuildFormData | src/components/loans/LoanForm.tsx:34-41 | the appends build exactly the payload of the current fields |
| Loans.LoanForm.HandleSubmit | src/components/loans/LoanForm.tsx:29-55 | error cleared and saving set before exactly one update-or-create call with the payload; success calls onSave once, failure sets the error without onSave; saving cleared |
| Loans.LoanForm.Submit | src/components/loans/LoanForm.tsx:58-95 | while any of the four texts is empty the `required` check blocks the submit: nothing changes and no call is made; otherwise exactly the one save call of `handleSubmit`, with its outcome |
| Announcements.NewAnnouncementsPage | src/app/announcements/page.tsx:9-13 | the announcements page starts empty, loading, with its two messages |
| Announcements.AnnouncementPayloadReadsBack | src/components/announcements/AnnouncementForm.tsx:31 | the payload has exactly the keys text_en, text_ta and speed, each reading back as the form's value, and no other key |
| Announcements.AnnouncementForm.constructor | src/components/announcements/AnnouncementForm.tsx:12-24 | the fields of the announcement being edited, or empty texts and the speed "normal" (one of the options) when adding |
| Announcements.AnnouncementForm.Edit | src/components/announcements/AnnouncementForm.tsx:52-67 | the changed text takes the value; the other text and the speed are unchanged |
| Announcements.AnnouncementForm.SelectSpeed | src/components/announcements/AnnouncementForm.tsx:72-80 | the speed becomes the chosen option, one of slow, normal and fast |
| Announcements.AnnouncementForm.HandleSubmit | src/components/announcements/AnnouncementForm.tsx:26-45 | error cleared and saving set before exactly one update-or-create call with the payload; success calls onSave once, failure sets the error without onSave; saving cleared |
| Announcements.AnnouncementForm.Submit | src/components/announcements/AnnouncementForm.tsx:48-66 | while either text is empty the `required` check blocks the submit: nothing changes and no call is made; otherwise exactly the one save call of `handleSubmit`, with its outcome |
| Videos.NewVideosPage | src/app/videos/page.tsx:9-13 | the videos page starts empty, loading, with its two messages |
| Videos.VideoPayloadReadsBack | src/components/videos/VideoForm.tsx:31 | the payload has exactly the keys title_en, title_ta and videoId, each reading back as the form's value, and no other key |
| Videos.VideoForm.constructor | src/components/videos/VideoForm.tsx:12-24 | the fields of the video being edited, or empty when adding |
| Videos.VideoForm.Edit | src/components/videos/VideoForm.tsx:52-79 | the changed input takes the value and nothing else changes |
| Videos.VideoForm.HandleSubmit | src/components/videos/VideoForm.tsx:26-45 | error cleared and saving set before exactly one update-or-create call with the payload; success calls onSave once, failure sets the error without onSave; saving cleared |
| Videos.VideoForm.Submit | src/components/videos/VideoForm.tsx:48-78 | while any of the three inputs is empty the `required` check blocks the submit: nothing changes and no call is made; otherwise exactly the one save call of `handleSubmit`, with its outcome |

## Left out

- HTTP, the API client and the backend: every call is an entry in a `calls` log, and its outcome is a parameter.
- Asynchrony: each handler runs to completion at once. Overlapping fetches or submits, and their races, are not modelled.
- The object-URL lifecycle (`URL.createObjectURL` / `revokeObjectURL` and the cleanup effect) is not modelled. The object URL is a parameter of `BeforeHeader.GetImageUrl`.
- `window.confirm`, `Date.now()`, the media base URL and `JSON.stringify` are parameters.
- The file-upload component, JSX markup, CSS and the layout shell are not modelled. Only the guards that choose between the loading notice, the error screen and the form are kept.
- The wrappers in the other service modules are not modelled. Only their call events are kept.
- The declared shared types are used only where the pages agree with them. Announcement speed is a string, and videos have titles and a video id, as the forms use them.
- Footer.HandleLinkChange, QuickServices.HandleServiceChange, Header.HandleLinkChange and BeforeHeader.HandleContactChange: require an index inside the list. The UI only passes such indices. Outside the list the code would write a sparse entry or throw.
- ContactInfo.HandleInputChange: requires the section/field pairs the inputs pass (a language for the nested sections, a top-level key otherwise). Other pairs write odd keys that no input reads.
- Footer.HandleInputChange: covers the four sections the inputs pass. The link groups go through the link handlers.
- BeforeHeaderService.DraftOf: assumes the backend returns a non-empty path string for `logo` and `yearsImage`. If either is missing, reading its keys would throw. If either is the empty string, it is falsy, and the model does not capture this. Picking a logo then takes the default alt texts (`prev.logo || {...}`), and the save sends "" for `logoAltTamil`/`logoAltEnglish`. The model still sends "undefined". The years image and `yearsImageAlt` behave the same way.
- BeforeHeader.LoadBeforeHeader: requires the page configured as the before-header page builds it (a fetch that keeps the error).
- The render of the list items and of each editor's form fields is not modelled.
- The `type="email"` input of the contact-info page: the browser's check of the address format before submit is not modelled.

## Findings

| source | as written | input that shows it | evidently intended | confidence | as-written member | corrected member |
|---|---|---|---|---|---|---|
| src/app/footer/page.tsx:289-323 | all four newsletter inputs call `handleInputChange('newsletter', lang, v)`, which sets `newsletter.en`/`newsletter.ta` | typing "Subscribe" into the English newsletter title of an empty footer: the input still shows "" | set `newsletter.title[lang]` or `newsletter.description[lang]` | high, not executed | Footer.NewsletterInputIsLost | Footer.HandleNewsletterChange |
| src/services/beforeHeaderService.ts:8-15 | `getBeforeHeader` returns `logoAlt`, `title.ta/en` and bare image paths, but the page and `updateBeforeHeader` read `logo.altTamil`, `title.tamil`, `logo.src`, … | a stored record with Tamil title "வணக்கம்": fetch then save unchanged sends titleTamil = "undefined" | map the record into the shape the page edits, so saving an unchanged document sends back what is stored | high, not executed | BeforeHeaderService.FetchThenSaveLosesStoredText | BeforeHeaderService.FixedFetchThenSaveRoundTrips |
| src/app/header/page.tsx:39-43 | the link array is copied but link i is not, and the assignment writes into the object the previous state holds | a draft with one link whose href is "": after an href edit to "/loans" the previous state also reads "/loans" | copy link i before writing, as the footer and quick-services editors do | medium, not executed | Header.EditShowsInPreviousState | Header.HandleLinkChangeCopying |
