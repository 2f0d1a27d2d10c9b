/** The state every list page (slides, loans, announcements, videos) keeps: the items last
    fetched, a loading flag, an error banner, and the add/edit modal with its selection. Each
    handler updates these fields in order around one backend call, whose outcome is a parameter. */
module Listing {
  import opened Common

  /** The two banners a list page can show. */
  datatype ListMessages = ListMessages(fetchFailed: string, deleteFailed: string)

  /** The service calls a list page makes. */
  datatype ListCall = GetAll | Delete(id: int)

  /** The service calls a form makes: create a new record, or update the one it was opened with. */
  datatype SaveCall<P> = Create(payload: P) | UpdateById(id: int, payload: P)

  /** The one call a form's submit makes: an update of the record being edited, or a create. */
  function SaveCallFor<P>(editedId: Option<int>, payload: P): (c: SaveCall<P>)
    ensures c.payload == payload
    ensures c.UpdateById? <==> editedId.Some?
    ensures c.UpdateById? ==> c.id == editedId.value
  {
    if editedId.Some? then UpdateById(editedId.value, payload) else Create(payload)
  }

  class ListPage<T> {
    var items: seq<T>
    var isLoading: bool
    var error: Option<string>
    var isModalOpen: bool
    var selected: Option<T>
    /** The service calls made so far, oldest first. */
    var calls: seq<ListCall>
    const messages: ListMessages

    /** The `useState` initial values: no items, loading, no error, the modal closed and nothing selected. */
    constructor(messages: ListMessages)
      ensures items == [] && isLoading && error == None && !isModalOpen && selected == None
      ensures calls == [] && this.messages == messages
    {
      items := [];
      isLoading := true;
      error := None;
      isModalOpen := false;
      selected := None;
      calls := [];
      this.messages := messages;
    }

    /** The fetch: loading is set and the error cleared before the call; a success replaces
        the items, a failure sets the error and keeps them; loading is cleared after. The ghost
        results are the flags while the request is in flight. */
    method Fetch(outcome: Outcome<seq<T>>) returns (ghost loadingAtCall: bool, ghost errorAtCall: Option<string>)
      modifies this
      ensures loadingAtCall && errorAtCall == None
      ensures calls == old(calls) + [GetAll]
      ensures outcome.Succeeded? ==> items == outcome.data && error == None
      ensures outcome.Failed? ==> items == old(items) && error == Some(messages.fetchFailed)
      ensures !isLoading && isModalOpen == old(isModalOpen) && selected == old(selected)
    {
      isLoading := true;
      error := None;
      loadingAtCall, errorAtCall := isLoading, error;
      calls := calls + [GetAll];
      match outcome {
        case Succeeded(data) => items := data;
        case Failed => error := Some(messages.fetchFailed);
      }
      isLoading := false;
    }

    /** `handleAdd`: the modal opens with nothing selected. */
    method HandleAdd()
      modifies this
      ensures isModalOpen && selected == None
      ensures items == old(items) && isLoading == old(isLoading) && error == old(error) && calls == old(calls)
    {
      selected := None;
      isModalOpen := true;
    }

    /** `handleEdit(item)`: the modal opens with that item selected. */
    method HandleEdit(item: T)
      modifies this
      ensures isModalOpen && selected == Some(item)
      ensures items == old(items) && isLoading == old(isLoading) && error == old(error) && calls == old(calls)
    {
      selected := Some(item);
      isModalOpen := true;
    }

    /** `handleDelete(id)`. `confirmed` is the answer to the confirmation prompt, `deleted`
        whether the delete call succeeded, `refetch` the outcome of the fetch that follows one.
        A declined prompt changes nothing; a failed delete sets the error and does not refetch. */
    method HandleDelete(id: int, confirmed: bool, deleted: bool, refetch: Outcome<seq<T>>)
      modifies this
      ensures !confirmed ==> unchanged(this)
      ensures confirmed && !deleted ==>
        calls == old(calls) + [Delete(id)]
        && error == Some(messages.deleteFailed) && items == old(items) && isLoading == old(isLoading)
      ensures confirmed && deleted ==>
        calls == old(calls) + [Delete(id), GetAll] && !isLoading
        && (refetch.Succeeded? ==> items == refetch.data && error == None)
        && (refetch.Failed? ==> items == old(items) && error == Some(messages.fetchFailed))
      ensures isModalOpen == old(isModalOpen) && selected == old(selected)
    {
      if confirmed {
        calls := calls + [Delete(id)];
        if deleted {
          ghost var loadingAtCall, errorAtCall := Fetch(refetch);
        } else {
          error := Some(messages.deleteFailed);
        }
      }
    }

    /** `handleSave`, the form's `onSave`: the modal closes and the list is fetched again. */
    method HandleSave(refetch: Outcome<seq<T>>)
      modifies this
      ensures !isModalOpen && selected == old(selected)
      ensures calls == old(calls) + [GetAll] && !isLoading
      ensures refetch.Succeeded? ==> items == refetch.data && error == None
      ensures refetch.Failed? ==> items == old(items) && error == Some(messages.fetchFailed)
    {
      isModalOpen := false;
      ghost var loadingAtCall, errorAtCall := Fetch(refetch);
    }

    /** The form's `onCancel`: the modal closes and nothing else happens. */
    method Cancel()
      modifies this
      ensures !isModalOpen
      ensures items == old(items) && isLoading == old(isLoading) && error == old(error)
      ensures selected == old(selected) && calls == old(calls)
    {
      isModalOpen := false;
    }

    /** The "nothing found" notice. `waitsForLoad` is whether the page hides it while loading
        (only the videos page does). */
    function EmptyNoticeShown(waitsForLoad: bool): (shown: bool)
      reads this
      ensures shown ==> |items| == 0
      ensures !waitsForLoad ==> (shown <==> |items| == 0)
      ensures waitsForLoad ==> (shown <==> |items| == 0 && !isLoading)
    {
      |items| == 0 && !(waitsForLoad && isLoading)
    }
  }
}
