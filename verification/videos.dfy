/** The videos page and its add/edit form. The form sends a JSON object with the two titles
    and the YouTube video id. */
module Videos {
  import opened Common
  import opened Entities
  import opened Listing

  const VideosMessages := ListMessages(
    "Failed to fetch videos. Please make sure the backend server is running.",
    "Failed to delete video.")

  const VideoSaveFailed := "Failed to save video. Please check the details and try again."

  /** The videos page's initial state. */
  method NewVideosPage() returns (page: ListPage<Video>)
    ensures fresh(page) && page.messages == VideosMessages
    ensures page.items == [] && page.isLoading && page.error == None
    ensures !page.isModalOpen && page.selected == None && page.calls == []
  {
    page := new ListPage(VideosMessages);
  }

  /** The JSON payload `{ title_en, title_ta, videoId }`. */
  function VideoPayload(titleEn: string, titleTa: string, videoId: string): seq<Member> {
    [Member("title_en", titleEn), Member("title_ta", titleTa), Member("videoId", videoId)]
  }

  /** The payload has exactly the three keys, and each reads back as the form's value. */
  lemma VideoPayloadReadsBack(titleEn: string, titleTa: string, videoId: string, other: string)
    requires other !in {"title_en", "title_ta", "videoId"}
    ensures var obj := VideoPayload(titleEn, titleTa, videoId);
      && Keys(obj) == ["title_en", "title_ta", "videoId"]
      && ValueOf(obj, "title_en") == Some(titleEn) && ValueOf(obj, "title_ta") == Some(titleTa)
      && ValueOf(obj, "videoId") == Some(videoId)
      && ValueOf(obj, other) == None
  {
    var obj := VideoPayload(titleEn, titleTa, videoId);
    ValueOfFirst(obj, 0);
    ValueOfFirst(obj, 1);
    ValueOfFirst(obj, 2);
    ValueOfMissing(obj, other);
  }

  /** The three text inputs of the form. */
  datatype VideoText = TitleEn | TitleTa | VideoId

  class VideoForm {
    /** The video being edited, or None when adding. */
    const video: Option<Video>
    var titleEn: string
    var titleTa: string
    var videoId: string
    var error: Option<string>
    var isSaving: bool
    /** The service calls made so far, oldest first. */
    var calls: seq<SaveCall<seq<Member>>>
    /** How many times `onSave` was called. */
    var saves: nat

    /** The form as opened: the fields of the video being edited, or empty when adding. */
    constructor(video: Option<Video>)
      ensures this.video == video && error == None && !isSaving
      ensures calls == [] && saves == 0
      ensures video.None? ==> titleEn == "" && titleTa == "" && videoId == ""
      ensures video.Some? ==>
        titleEn == video.value.titleEn && titleTa == video.value.titleTa && videoId == video.value.videoId
    {
      this.video := video;
      titleEn, titleTa, videoId := "", "", "";
      error := None;
      isSaving := false;
      calls := [];
      saves := 0;
      new;
      if video.Some? {
        titleEn := video.value.titleEn;
        titleTa := video.value.titleTa;
        videoId := video.value.videoId;
      }
    }

    function Text(f: VideoText): string
      reads this
    {
      match f
      case TitleEn => titleEn
      case TitleTa => titleTa
      case VideoId => videoId
    }

    /** A text input's `onChange`: that text takes the value; nothing else changes. */
    method Edit(f: VideoText, v: string)
      modifies this
      ensures Text(f) == v
      ensures forall g :: g != f ==> Text(g) == old(Text(g))
      ensures error == old(error) && isSaving == old(isSaving) && calls == old(calls) && saves == old(saves)
    {
      match f {
        case TitleEn => titleEn := v;
        case TitleTa => titleTa := v;
        case VideoId => videoId := v;
      }
    }

    /** `handleSubmit`: the error is cleared and saving set, exactly one create or update call
        carries the payload, then `onSave` is called on success or the error is set on failure;
        saving is cleared in both cases. `accepted` is whether the call succeeded. */
    method HandleSubmit(accepted: bool) returns (ghost savingAtCall: bool, ghost errorAtCall: Option<string>)
      modifies this
      ensures savingAtCall && errorAtCall == None
      ensures calls == old(calls) + [SaveCallFor(if video.Some? then Some(video.value.id) else None,
                                                 VideoPayload(titleEn, titleTa, videoId))]
      ensures accepted ==> saves == old(saves) + 1 && error == None
      ensures !accepted ==> saves == old(saves) && error == Some(VideoSaveFailed)
      ensures !isSaving && forall g :: Text(g) == old(Text(g))
    {
      isSaving := true;
      error := None;
      savingAtCall, errorAtCall := isSaving, error;
      var data := VideoPayload(titleEn, titleTa, videoId);
      if video.Some? {
        calls := calls + [UpdateById(video.value.id, data)];
      } else {
        calls := calls + [Create(data)];
      }
      if accepted {
        saves := saves + 1;
      } else {
        error := Some(VideoSaveFailed);
      }
      isSaving := false;
    }

    /** The `required` attribute on all three inputs: the browser refuses to submit while one of
        them is empty. */
    predicate Complete()
      reads this
    {
      forall g: VideoText :: Text(g) != ""
    }

    /** Submitting the form element: while a required input is empty the browser blocks the
        submit, so nothing changes and no call is made; otherwise `handleSubmit` runs. */
    method Submit(accepted: bool)
      modifies this
      ensures Complete() == old(Complete()) && forall g :: Text(g) == old(Text(g))
      ensures !Complete() ==> unchanged(this)
      ensures Complete() ==>
        calls == old(calls) + [SaveCallFor(if video.Some? then Some(video.value.id) else None, VideoPayload(titleEn, titleTa, videoId))]
        && !isSaving
      ensures Complete() && accepted ==> saves == old(saves) + 1 && error == None
      ensures Complete() && !accepted ==> saves == old(saves) && error == Some(VideoSaveFailed)
    {
      if Complete() {
        ghost var savingAtCall, errorAtCall := HandleSubmit(accepted);
      }
    }
  }
}
