/** The loans page and its add/edit form. The form sends a multipart payload: the four texts
    (there is no link), and the image only when a file was picked, so an edit without a new file
    keeps the stored image. */
module Loans {
  import opened Common
  import opened Entities
  import opened Listing

  const LoansMessages := ListMessages(
    "Failed to fetch loans. Please make sure the backend server is running.",
    "Failed to delete loan.")

  const LoanSaveFailed := "Failed to save loan. Please check the details and try again."

  /** The loans page's initial state. */
  method NewLoansPage() returns (page: ListPage<Loan>)
    ensures fresh(page) && page.messages == LoansMessages
    ensures page.items == [] && page.isLoading && page.error == None
    ensures !page.isModalOpen && page.selected == None && page.calls == []
  {
    page := new ListPage(LoansMessages);
  }

  /** The multipart payload: the four texts in order, then `image` if a file was picked. */
  function LoanPayload(titleEn: string, titleTa: string, descriptionEn: string, descriptionTa: string,
                       image: Option<FileRef>): seq<FormField>
  {
    [FormField("title_en", Str(titleEn)), FormField("title_ta", Str(titleTa)),
     FormField("description_en", Str(descriptionEn)), FormField("description_ta", Str(descriptionTa))]
    + (if image.Some? then [FormField("image", Blob(image.value))] else [])
  }

  /** What the backend receives: exactly the four text fields in the order they are appended,
      then `image` if and only if a file was picked, and no `link`; each text reads back under
      its own name. */
  lemma LoanPayloadReadsBack(titleEn: string, titleTa: string, descriptionEn: string, descriptionTa: string,
                            image: Option<FileRef>)
    ensures Names(LoanPayload(titleEn, titleTa, descriptionEn, descriptionTa, image))
      == ["title_en", "title_ta", "description_en", "description_ta"] + (if image.Some? then ["image"] else [])
    ensures var form := LoanPayload(titleEn, titleTa, descriptionEn, descriptionTa, image);
      Get(form, "title_en") == Some(Str(titleEn)) && Get(form, "title_ta") == Some(Str(titleTa))
      && Get(form, "description_en") == Some(Str(descriptionEn))
      && Get(form, "description_ta") == Some(Str(descriptionTa))
      && Get(form, "link") == None
      && (image.None? ==> Get(form, "image") == None)
      && (image.Some? ==> Get(form, "image") == Some(Blob(image.value)))
  {
    LoanPayloadNames(titleEn, titleTa, descriptionEn, descriptionTa, image);
    LoanTextsReadBack(titleEn, titleTa, descriptionEn, descriptionTa, image);
    LoanImageReadsBack(titleEn, titleTa, descriptionEn, descriptionTa, image);
  }

  /** The text half of LoanPayloadReadsBack. */
  lemma LoanTextsReadBack(titleEn: string, titleTa: string, descriptionEn: string, descriptionTa: string,
                          image: Option<FileRef>)
    ensures var form := LoanPayload(titleEn, titleTa, descriptionEn, descriptionTa, image);
      Get(form, "title_en") == Some(Str(titleEn)) && Get(form, "title_ta") == Some(Str(titleTa))
      && Get(form, "description_en") == Some(Str(descriptionEn))
      && Get(form, "description_ta") == Some(Str(descriptionTa))
      && Get(form, "link") == None
  {
    var form := LoanPayload(titleEn, titleTa, descriptionEn, descriptionTa, image);
    GetFirst(form, 0);
    GetFirst(form, 1);
    GetFirst(form, 2);
    GetFirst(form, 3);
    GetMissing(form, "link");
  }

  /** The field-order half of LoanPayloadReadsBack. */
  lemma LoanPayloadNames(titleEn: string, titleTa: string, descriptionEn: string, descriptionTa: string,
                          image: Option<FileRef>)
    ensures Names(LoanPayload(titleEn, titleTa, descriptionEn, descriptionTa, image))
      == ["title_en", "title_ta", "description_en", "description_ta"] + (if image.Some? then ["image"] else [])
  {
  }

  /** The image half of LoanPayloadReadsBack. */
  lemma LoanImageReadsBack(titleEn: string, titleTa: string, descriptionEn: string, descriptionTa: string,
                           image: Option<FileRef>)
    ensures var form := LoanPayload(titleEn, titleTa, descriptionEn, descriptionTa, image);
      && (image.None? ==> Get(form, "image") == None)
      && (image.Some? ==> Get(form, "image") == Some(Blob(image.value)))
  {
    var form := LoanPayload(titleEn, titleTa, descriptionEn, descriptionTa, image);
    if image.Some? {
      GetFirst(form, 4);
    } else {
      GetMissing(form, "image");
    }
  }

  /** The four text inputs of the form. */
  datatype LoanText = TitleEn | TitleTa | DescriptionEn | DescriptionTa

  class LoanForm {
    /** The loan being edited, or None when adding. */
    const loan: Option<Loan>
    var titleEn: string
    var titleTa: string
    var descriptionEn: string
    var descriptionTa: string
    var image: Option<FileRef>
    var error: Option<string>
    var isSaving: bool
    /** The service calls made so far, oldest first. */
    var calls: seq<SaveCall<seq<FormField>>>
    /** How many times `onSave` was called. */
    var saves: nat

    /** The form as opened: the texts of the loan being edited (empty when adding), no file,
        no error, not saving. */
    constructor(loan: Option<Loan>)
      ensures this.loan == loan && image == None && error == None && !isSaving
      ensures calls == [] && saves == 0
      ensures loan.None? ==> titleEn == "" && titleTa == "" && descriptionEn == "" && descriptionTa == ""
      ensures loan.Some? ==>
        titleEn == loan.value.titleEn && titleTa == loan.value.titleTa
        && descriptionEn == loan.value.descriptionEn && descriptionTa == loan.value.descriptionTa
    {
      this.loan := loan;
      titleEn, titleTa, descriptionEn, descriptionTa := "", "", "", "";
      image := None;
      error := None;
      isSaving := false;
      calls := [];
      saves := 0;
      new;
      if loan.Some? {
        titleEn := loan.value.titleEn;
        titleTa := loan.value.titleTa;
        descriptionEn := loan.value.descriptionEn;
        descriptionTa := loan.value.descriptionTa;
      }
    }

    function Text(f: LoanText): string
      reads this
    {
      match f
      case TitleEn => titleEn
      case TitleTa => titleTa
      case DescriptionEn => descriptionEn
      case DescriptionTa => descriptionTa
    }

    /** A text input's `onChange`: that text takes the value; nothing else changes. */
    method Edit(f: LoanText, v: string)
      modifies this
      ensures Text(f) == v
      ensures forall g :: g != f ==> Text(g) == old(Text(g))
      ensures image == old(image) && error == old(error) && isSaving == old(isSaving)
      ensures calls == old(calls) && saves == old(saves)
    {
      match f {
        case TitleEn => titleEn := v;
        case TitleTa => titleTa := v;
        case DescriptionEn => descriptionEn := v;
        case DescriptionTa => descriptionTa := v;
      }
    }

    /** The file input's `onChange`: the first picked file, or none. */
    method ChooseImage(files: Option<seq<FileRef>>)
      modifies this
      ensures image == FirstFile(files)
      ensures forall g :: Text(g) == old(Text(g))
      ensures error == old(error) && isSaving == old(isSaving) && calls == old(calls) && saves == old(saves)
    {
      image := FirstFile(files);
    }

    /** The `FormData` built by successive appends. */
    method BuildFormData() returns (form: seq<FormField>)
      ensures form == LoanPayload(titleEn, titleTa, descriptionEn, descriptionTa, image)
    {
      form := [];
      form := form + [FormField("title_en", Str(titleEn))];
      form := form + [FormField("title_ta", Str(titleTa))];
      form := form + [FormField("description_en", Str(descriptionEn))];
      form := form + [FormField("description_ta", Str(descriptionTa))];
      if image.Some? {
        form := form + [FormField("image", Blob(image.value))];
      }
    }

    /** `handleSubmit`: the error is cleared and saving set, exactly one create or update call
        carries the payload, then `onSave` is called on success or the error is set on failure;
        saving is cleared in both cases. `accepted` is whether the call succeeded. */
    method HandleSubmit(accepted: bool) returns (ghost savingAtCall: bool, ghost errorAtCall: Option<string>)
      modifies this
      ensures savingAtCall && errorAtCall == None
      ensures calls == old(calls) + [SaveCallFor(if loan.Some? then Some(loan.value.id) else None,
                                                 LoanPayload(titleEn, titleTa, descriptionEn, descriptionTa, image))]
      ensures accepted ==> saves == old(saves) + 1 && error == None
      ensures !accepted ==> saves == old(saves) && error == Some(LoanSaveFailed)
      ensures !isSaving && image == old(image) && forall g :: Text(g) == old(Text(g))
    {
      isSaving := true;
      error := None;
      savingAtCall, errorAtCall := isSaving, error;
      var form := BuildFormData();
      if loan.Some? {
        calls := calls + [UpdateById(loan.value.id, form)];
      } else {
        calls := calls + [Create(form)];
      }
      if accepted {
        saves := saves + 1;
      } else {
        error := Some(LoanSaveFailed);
      }
      isSaving := false;
    }

    /** The `required` attribute on all four text inputs: the browser refuses to submit while one of
        them is empty. */
    predicate Complete()
      reads this
    {
      forall g: LoanText :: Text(g) != ""
    }

    /** Submitting the form element: while a required input is empty the browser blocks the
        submit, so nothing changes and no call is made; otherwise `handleSubmit` runs. */
    method Submit(accepted: bool)
      modifies this
      ensures Complete() == old(Complete()) && image == old(image) && forall g :: Text(g) == old(Text(g))
      ensures !Complete() ==> unchanged(this)
      ensures Complete() ==>
        calls == old(calls) + [SaveCallFor(if loan.Some? then Some(loan.value.id) else None, LoanPayload(titleEn, titleTa, descriptionEn, descriptionTa, image))]
        && !isSaving
      ensures Complete() && accepted ==> saves == old(saves) + 1 && error == None
      ensures Complete() && !accepted ==> saves == old(saves) && error == Some(LoanSaveFailed)
    {
      if Complete() {
        ghost var savingAtCall, errorAtCall := HandleSubmit(accepted);
      }
    }
  }
}
