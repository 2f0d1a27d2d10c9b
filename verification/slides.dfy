/** The slides page and its add/edit form. The form sends a multipart payload: the five texts,
    and the image only when a file was picked, so an edit without a new file keeps the stored
    image. */
module Slides {
  import opened Common
  import opened Entities
  import opened Listing

  const SlidesMessages := ListMessages(
    "Failed to fetch slides. Please make sure the backend server is running.",
    "Failed to delete slide.")

  const SlideSaveFailed := "Failed to save slide. Please check the details and try again."

  /** The slides page's initial state. */
  method NewSlidesPage() returns (page: ListPage<Slide>)
    ensures fresh(page) && page.messages == SlidesMessages
    ensures page.items == [] && page.isLoading && page.error == None
    ensures !page.isModalOpen && page.selected == None && page.calls == []
  {
    page := new ListPage(SlidesMessages);
  }

  /** The multipart payload: the five texts in order, then `image` if a file was picked. */
  function SlidePayload(titleEn: string, titleTa: string, descriptionEn: string, descriptionTa: string,
                        link: string, image: Option<FileRef>): seq<FormField>
  {
    [FormField("title_en", Str(titleEn)), FormField("title_ta", Str(titleTa)),
     FormField("description_en", Str(descriptionEn)), FormField("description_ta", Str(descriptionTa)),
     FormField("link", Str(link))]
    + (if image.Some? then [FormField("image", Blob(image.value))] else [])
  }

  /** What the backend receives: exactly the five text fields in the order they are appended,
      then `image` if and only if a file was picked; each text reads back under its own name. */
  lemma SlidePayloadReadsBack(titleEn: string, titleTa: string, descriptionEn: string, descriptionTa: string,
                             link: string, image: Option<FileRef>)
    ensures Names(SlidePayload(titleEn, titleTa, descriptionEn, descriptionTa, link, image))
      == ["title_en", "title_ta", "description_en", "description_ta", "link"] + (if image.Some? then ["image"] else [])
    ensures var form := SlidePayload(titleEn, titleTa, descriptionEn, descriptionTa, link, image);
      Get(form, "title_en") == Some(Str(titleEn)) && Get(form, "title_ta") == Some(Str(titleTa))
      && Get(form, "description_en") == Some(Str(descriptionEn))
      && Get(form, "description_ta") == Some(Str(descriptionTa))
      && Get(form, "link") == Some(Str(link))
      && (image.None? ==> Get(form, "image") == None)
      && (image.Some? ==> Get(form, "image") == Some(Blob(image.value)))
  {
    SlidePayloadNames(titleEn, titleTa, descriptionEn, descriptionTa, link, image);
    SlideTextsReadBack(titleEn, titleTa, descriptionEn, descriptionTa, link, image);
    SlideImageReadsBack(titleEn, titleTa, descriptionEn, descriptionTa, link, image);
  }

  /** The text half of SlidePayloadReadsBack. */
  lemma SlideTextsReadBack(titleEn: string, titleTa: string, descriptionEn: string, descriptionTa: string,
                           link: string, image: Option<FileRef>)
    ensures var form := SlidePayload(titleEn, titleTa, descriptionEn, descriptionTa, link, image);
      Get(form, "title_en") == Some(Str(titleEn)) && Get(form, "title_ta") == Some(Str(titleTa))
      && Get(form, "description_en") == Some(Str(descriptionEn))
      && Get(form, "description_ta") == Some(Str(descriptionTa))
      && Get(form, "link") == Some(Str(link))
  {
    var form := SlidePayload(titleEn, titleTa, descriptionEn, descriptionTa, link, image);
    GetFirst(form, 0);
    GetFirst(form, 1);
    GetFirst(form, 2);
    GetFirst(form, 3);
    GetFirst(form, 4);
  }

  /** The field-order half of SlidePayloadReadsBack. */
  lemma SlidePayloadNames(titleEn: string, titleTa: string, descriptionEn: string, descriptionTa: string,
                           link: string, image: Option<FileRef>)
    ensures Names(SlidePayload(titleEn, titleTa, descriptionEn, descriptionTa, link, image))
      == ["title_en", "title_ta", "description_en", "description_ta", "link"] + (if image.Some? then ["image"] else [])
  {
  }

  /** The image half of SlidePayloadReadsBack. */
  lemma SlideImageReadsBack(titleEn: string, titleTa: string, descriptionEn: string, descriptionTa: string,
                            link: string, image: Option<FileRef>)
    ensures var form := SlidePayload(titleEn, titleTa, descriptionEn, descriptionTa, link, image);
      && (image.None? ==> Get(form, "image") == None)
      && (image.Some? ==> Get(form, "image") == Some(Blob(image.value)))
  {
    var form := SlidePayload(titleEn, titleTa, descriptionEn, descriptionTa, link, image);
    if image.Some? {
      GetFirst(form, 5);
    } else {
      GetMissing(form, "image");
    }
  }

  /** The five text inputs of the form. */
  datatype SlideText = TitleEn | TitleTa | DescriptionEn | DescriptionTa | Link

  class SlideForm {
    /** The slide being edited, or None when adding. */
    const slide: Option<Slide>
    var titleEn: string
    var titleTa: string
    var descriptionEn: string
    var descriptionTa: string
    var link: string
    var image: Option<FileRef>
    var error: Option<string>
    var isSaving: bool
    /** The service calls made so far, oldest first. */
    var calls: seq<SaveCall<seq<FormField>>>
    /** How many times `onSave` was called. */
    var saves: nat

    /** The form as opened: the texts of the slide being edited (empty when adding), no file,
        no error, not saving. */
    constructor(slide: Option<Slide>)
      ensures this.slide == slide && image == None && error == None && !isSaving
      ensures calls == [] && saves == 0
      ensures slide.None? ==> titleEn == "" && titleTa == "" && descriptionEn == "" && descriptionTa == "" && link == ""
      ensures slide.Some? ==>
        titleEn == slide.value.titleEn && titleTa == slide.value.titleTa
        && descriptionEn == slide.value.descriptionEn && descriptionTa == slide.value.descriptionTa
        && link == slide.value.link
    {
      this.slide := slide;
      titleEn, titleTa, descriptionEn, descriptionTa, link := "", "", "", "", "";
      image := None;
      error := None;
      isSaving := false;
      calls := [];
      saves := 0;
      new;
      if slide.Some? {
        titleEn := slide.value.titleEn;
        titleTa := slide.value.titleTa;
        descriptionEn := slide.value.descriptionEn;
        descriptionTa := slide.value.descriptionTa;
        link := slide.value.link;
      }
    }

    function Text(f: SlideText): string
      reads this
    {
      match f
      case TitleEn => titleEn
      case TitleTa => titleTa
      case DescriptionEn => descriptionEn
      case DescriptionTa => descriptionTa
      case Link => link
    }

    /** A text input's `onChange`: that text takes the value; nothing else changes. */
    method Edit(f: SlideText, v: string)
      modifies this
      ensures Text(f) == v
      ensures forall g :: g != f ==> Text(g) == old(Text(g))
      ensures image == old(image) && error == old(error) && isSaving == old(isSaving)
      ensures calls == old(calls) && saves == old(saves)
    {
      match f {
        case TitleEn => titleEn := v;
        case TitleTa => titleTa := v;
        case DescriptionEn => descriptionEn := v;
        case DescriptionTa => descriptionTa := v;
        case Link => link := v;
      }
    }

    /** The file input's `onChange`: the first picked file, or none. */
    method ChooseImage(files: Option<seq<FileRef>>)
      modifies this
      ensures image == FirstFile(files)
      ensures forall g :: Text(g) == old(Text(g))
      ensures error == old(error) && isSaving == old(isSaving) && calls == old(calls) && saves == old(saves)
    {
      image := FirstFile(files);
    }

    /** The `FormData` built by successive appends. */
    method BuildFormData() returns (form: seq<FormField>)
      ensures form == SlidePayload(titleEn, titleTa, descriptionEn, descriptionTa, link, image)
    {
      form := [];
      form := form + [FormField("title_en", Str(titleEn))];
      form := form + [FormField("title_ta", Str(titleTa))];
      form := form + [FormField("description_en", Str(descriptionEn))];
      form := form + [FormField("description_ta", Str(descriptionTa))];
      form := form + [FormField("link", Str(link))];
      if image.Some? {
        form := form + [FormField("image", Blob(image.value))];
      }
    }

    /** `handleSubmit`: the error is cleared and saving set, exactly one create or update call
        carries the payload, then `onSave` is called on success or the error is set on failure;
        saving is cleared in both cases. `accepted` is whether the call succeeded. */
    method HandleSubmit(accepted: bool) returns (ghost savingAtCall: bool, ghost errorAtCall: Option<string>)
      modifies this
      ensures savingAtCall && errorAtCall == None
      ensures calls == old(calls) + [SaveCallFor(if slide.Some? then Some(slide.value.id) else None,
                                                 SlidePayload(titleEn, titleTa, descriptionEn, descriptionTa, link, image))]
      ensures accepted ==> saves == old(saves) + 1 && error == None
      ensures !accepted ==> saves == old(saves) && error == Some(SlideSaveFailed)
      ensures !isSaving && image == old(image) && forall g :: Text(g) == old(Text(g))
    {
      isSaving := true;
      error := None;
      savingAtCall, errorAtCall := isSaving, error;
      var form := BuildFormData();
      if slide.Some? {
        calls := calls + [UpdateById(slide.value.id, form)];
      } else {
        calls := calls + [Create(form)];
      }
      if accepted {
        saves := saves + 1;
      } else {
        error := Some(SlideSaveFailed);
      }
      isSaving := false;
    }

    /** The `required` attribute on all five text inputs: the browser refuses to submit while one of
        them is empty. */
    predicate Complete()
      reads this
    {
      forall g: SlideText :: Text(g) != ""
    }

    /** Submitting the form element: while a required input is empty the browser blocks the
        submit, so nothing changes and no call is made; otherwise `handleSubmit` runs. */
    method Submit(accepted: bool)
      modifies this
      ensures Complete() == old(Complete()) && image == old(image) && forall g :: Text(g) == old(Text(g))
      ensures !Complete() ==> unchanged(this)
      ensures Complete() ==>
        calls == old(calls) + [SaveCallFor(if slide.Some? then Some(slide.value.id) else None, SlidePayload(titleEn, titleTa, descriptionEn, descriptionTa, link, image))]
        && !isSaving
      ensures Complete() && accepted ==> saves == old(saves) + 1 && error == None
      ensures Complete() && !accepted ==> saves == old(saves) && error == Some(SlideSaveFailed)
    {
      if Complete() {
        ghost var savingAtCall, errorAtCall := HandleSubmit(accepted);
      }
    }
  }
}
