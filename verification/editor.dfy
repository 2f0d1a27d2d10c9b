/** The state every singleton editor (header, footer, quick services, contact info, hero,
    before-header) keeps beside its draft document: the loading and saving flags and the
    error and success banners, updated step by step around one awaited backend call. */
module Editor {
  import opened Common

  /** The three banners a singleton page can show. */
  datatype Messages = Messages(fetchFailed: string, saved: string, saveFailed: string)

  /** What the page renders before its form. */
  datatype Screen = LoadingNotice | ErrorOnly(message: string) | EditForm

  /** The service calls a singleton page makes: fetch the document, or send the whole draft. */
  datatype SingletonCall<D> = Get | Update(document: D)

  /** The two early returns of a page: a loading notice, then the error alone when the
      page's key section is missing (nothing was ever loaded to show beside it). */
  function Guard(isLoading: bool, error: Option<string>, hasKeySection: bool): (s: Screen)
    ensures s == LoadingNotice <==> isLoading
    ensures s.ErrorOnly? <==> !isLoading && error.Some? && !hasKeySection
    ensures s.ErrorOnly? ==> s.message == error.value
  {
    if isLoading then LoadingNotice
    else if error.Some? && !hasKeySection then ErrorOnly(error.value)
    else EditForm
  }

  class SingletonPage<D> {
    var draft: D
    var isLoading: bool
    var isSaving: bool
    var error: Option<string>
    var success: Option<string>
    /** The service calls made so far, oldest first. */
    var calls: seq<SingletonCall<D>>
    const messages: Messages
    /** Whether the fetch clears the error banner before it calls the service. */
    const fetchClearsError: bool

    /** The `useState` initial values: the page starts loading, with nothing saved and no banner. */
    constructor(initial: D, messages: Messages, fetchClearsError: bool)
      ensures draft == initial && isLoading && !isSaving && error == None && success == None
      ensures calls == []
      ensures this.messages == messages && this.fetchClearsError == fetchClearsError
    {
      draft := initial;
      isLoading, isSaving := true, false;
      error, success := None, None;
      calls := [];
      this.messages := messages;
      this.fetchClearsError := fetchClearsError;
    }

    /** The mount-time fetch. The ghost results are the flags while the request is in flight. */
    method Fetch(outcome: Outcome<D>) returns (ghost loadingAtCall: bool, ghost errorAtCall: Option<string>)
      modifies this
      ensures loadingAtCall && errorAtCall == (if fetchClearsError then None else old(error))
      ensures calls == old(calls) + [Get]
      ensures outcome.Succeeded? ==> draft == outcome.data && error == errorAtCall
      ensures outcome.Failed? ==> draft == old(draft) && error == Some(messages.fetchFailed)
      ensures !isLoading && isSaving == old(isSaving) && success == old(success)
    {
      isLoading := true;
      if fetchClearsError {
        error := None;
      }
      loadingAtCall, errorAtCall := isLoading, error;
      calls := calls + [Get];
      match outcome {
        case Succeeded(data) => draft := data;
        case Failed => error := Some(messages.fetchFailed);
      }
      isLoading := false;
    }

    /** `handleSubmit`: both banners are cleared and saving is set before the update call;
        exactly one of them is set after it, and saving is always cleared. */
    method Submit(accepted: bool) returns (ghost savingAtCall: bool, ghost errorAtCall: Option<string>, ghost successAtCall: Option<string>)
      modifies this
      ensures savingAtCall && errorAtCall == None && successAtCall == None
      ensures calls == old(calls) + [Update(old(draft))]
      ensures accepted ==> success == Some(messages.saved) && error == None
      ensures !accepted ==> error == Some(messages.saveFailed) && success == None
      ensures !isSaving && draft == old(draft) && isLoading == old(isLoading)
    {
      isSaving := true;
      error := None;
      success := None;
      savingAtCall, errorAtCall, successAtCall := isSaving, error, success;
      calls := calls + [Update(draft)];
      if accepted {
        success := Some(messages.saved);
      } else {
        error := Some(messages.saveFailed);
      }
      isSaving := false;
    }
  }
}
