/** The announcements page and its add/edit form. The form sends a JSON object with the two
    texts and the scroll speed, chosen from slow, normal and fast. */
module Announcements {
  import opened Common
  import opened Entities
  import opened Listing

  const AnnouncementsMessages := ListMessages(
    "Failed to fetch announcements. Please make sure the backend server is running.",
    "Failed to delete announcement.")

  const AnnouncementSaveFailed := "Failed to save announcement. Please check the details and try again."

  /** The values the speed selector offers, in order. */
  const SpeedOptions := ["slow", "normal", "fast"]

  const DefaultSpeed := "normal"

  /** The announcements page's initial state. */
  method NewAnnouncementsPage() returns (page: ListPage<Announcement>)
    ensures fresh(page) && page.messages == AnnouncementsMessages
    ensures page.items == [] && page.isLoading && page.error == None
    ensures !page.isModalOpen && page.selected == None && page.calls == []
  {
    page := new ListPage(AnnouncementsMessages);
  }

  /** The JSON payload `{ text_en, text_ta, speed }`. */
  function AnnouncementPayload(textEn: string, textTa: string, speed: string): seq<Member> {
    [Member("text_en", textEn), Member("text_ta", textTa), Member("speed", speed)]
  }

  /** The payload has exactly the three keys, and each reads back as the form's value. */
  lemma AnnouncementPayloadReadsBack(textEn: string, textTa: string, speed: string, other: string)
    requires other !in {"text_en", "text_ta", "speed"}
    ensures var obj := AnnouncementPayload(textEn, textTa, speed);
      && Keys(obj) == ["text_en", "text_ta", "speed"]
      && ValueOf(obj, "text_en") == Some(textEn) && ValueOf(obj, "text_ta") == Some(textTa)
      && ValueOf(obj, "speed") == Some(speed)
      && ValueOf(obj, other) == None
  {
    var obj := AnnouncementPayload(textEn, textTa, speed);
    ValueOfFirst(obj, 0);
    ValueOfFirst(obj, 1);
    ValueOfFirst(obj, 2);
    ValueOfMissing(obj, other);
  }

  /** The two text inputs of the form. */
  datatype AnnouncementText = TextEn | TextTa

  class AnnouncementForm {
    /** The announcement being edited, or None when adding. */
    const announcement: Option<Announcement>
    var textEn: string
    var textTa: string
    var speed: string
    var error: Option<string>
    var isSaving: bool
    /** The service calls made so far, oldest first. */
    var calls: seq<SaveCall<seq<Member>>>
    /** How many times `onSave` was called. */
    var saves: nat

    /** The form as opened: the fields of the announcement being edited, or empty texts and
        the normal speed when adding. */
    constructor(announcement: Option<Announcement>)
      ensures this.announcement == announcement && error == None && !isSaving
      ensures calls == [] && saves == 0
      ensures announcement.None? ==> textEn == "" && textTa == "" && speed == DefaultSpeed && speed in SpeedOptions
      ensures announcement.Some? ==>
        textEn == announcement.value.textEn && textTa == announcement.value.textTa
        && speed == announcement.value.speed
    {
      this.announcement := announcement;
      textEn, textTa, speed := "", "", DefaultSpeed;
      error := None;
      isSaving := false;
      calls := [];
      saves := 0;
      new;
      if announcement.Some? {
        textEn := announcement.value.textEn;
        textTa := announcement.value.textTa;
        speed := announcement.value.speed;
      }
    }

    function Text(f: AnnouncementText): string
      reads this
    {
      if f.TextEn? then textEn else textTa
    }

    /** A text input's `onChange`: that text takes the value; nothing else changes. */
    method Edit(f: AnnouncementText, v: string)
      modifies this
      ensures Text(f) == v && Text(if f.TextEn? then TextTa else TextEn) == old(Text(if f.TextEn? then TextTa else TextEn))
      ensures speed == old(speed) && error == old(error) && isSaving == old(isSaving)
      ensures calls == old(calls) && saves == old(saves)
    {
      if f.TextEn? {
        textEn := v;
      } else {
        textTa := v;
      }
    }

    /** The speed selector's `onChange` with its option-th entry. */
    method SelectSpeed(option: int)
      requires 0 <= option < |SpeedOptions|
      modifies this
      ensures speed == SpeedOptions[option] && speed in SpeedOptions
      ensures textEn == old(textEn) && textTa == old(textTa)
      ensures error == old(error) && isSaving == old(isSaving) && calls == old(calls) && saves == old(saves)
    {
      speed := SpeedOptions[option];
    }

    /** `handleSubmit`: the error is cleared and saving set, exactly one create or update call
        carries the payload, then `onSave` is called on success or the error is set on failure;
        saving is cleared in both cases. `accepted` is whether the call succeeded. */
    method HandleSubmit(accepted: bool) returns (ghost savingAtCall: bool, ghost errorAtCall: Option<string>)
      modifies this
      ensures savingAtCall && errorAtCall == None
      ensures calls == old(calls) + [SaveCallFor(if announcement.Some? then Some(announcement.value.id) else None,
                                                 AnnouncementPayload(textEn, textTa, speed))]
      ensures accepted ==> saves == old(saves) + 1 && error == None
      ensures !accepted ==> saves == old(saves) && error == Some(AnnouncementSaveFailed)
      ensures !isSaving && textEn == old(textEn) && textTa == old(textTa) && speed == old(speed)
    {
      isSaving := true;
      error := None;
      savingAtCall, errorAtCall := isSaving, error;
      var data := AnnouncementPayload(textEn, textTa, speed);
      if announcement.Some? {
        calls := calls + [UpdateById(announcement.value.id, data)];
      } else {
        calls := calls + [Create(data)];
      }
      if accepted {
        saves := saves + 1;
      } else {
        error := Some(AnnouncementSaveFailed);
      }
      isSaving := false;
    }

    /** The `required` attribute on both text inputs (the speed select always has a value): the browser refuses to submit while one of
        them is empty. */
    predicate Complete()
      reads this
    {
      textEn != "" && textTa != ""
    }

    /** Submitting the form element: while a required input is empty the browser blocks the
        submit, so nothing changes and no call is made; otherwise `handleSubmit` runs. */
    method Submit(accepted: bool)
      modifies this
      ensures Complete() == old(Complete()) && textEn == old(textEn) && textTa == old(textTa) && speed == old(speed)
      ensures !Complete() ==> unchanged(this)
      ensures Complete() ==>
        calls == old(calls) + [SaveCallFor(if announcement.Some? then Some(announcement.value.id) else None, AnnouncementPayload(textEn, textTa, speed))]
        && !isSaving
      ensures Complete() && accepted ==> saves == old(saves) + 1 && error == None
      ensures Complete() && !accepted ==> saves == old(saves) && error == Some(AnnouncementSaveFailed)
    {
      if Complete() {
        ghost var savingAtCall, errorAtCall := HandleSubmit(accepted);
      }
    }
  }
}
