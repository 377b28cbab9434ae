/** The delete flow the list screens share: a confirmation modal opened on a
    row, and a delete handler that drops the row from the list only when the
    server answers `status === "deleted"`, then always closes the modal. */
module ListViews {
  import opened Js

  /** The state one list screen keeps for deleting: the list, whether the
      confirmation modal is shown, and the row picked for deletion. */
  datatype ListView<T> = ListView(items: seq<T>, showModal: bool, selected: Option<T>)

  /** What the DELETE request came back with: a JSON body with a `status`
      field, or an exception (network failure, body not JSON). */
  datatype DeleteResponse = Responded(status: JsValue) | Threw

  predicate Deleted(resp: DeleteResponse)
  {
    resp.Responded? && resp.status == Str("deleted")
  }

  /** `handleOpenModal(row)`: select the row and show the modal. */
  function OpenModal<T>(v: ListView<T>, row: T): (r: ListView<T>)
    ensures r.showModal && r.selected == Some(row) && r.items == v.items
  {
    v.(showModal := true, selected := Some(row))
  }

  /** `handleCloseModal()`: hide the modal and clear the selection. */
  function CloseModal<T>(v: ListView<T>): (r: ListView<T>)
    ensures !r.showModal && r.selected == None && r.items == v.items
  {
    v.(showModal := false, selected := None)
  }

  /** `handleDelete()`. Without a selection it returns before the `try`, so the
      modal is left as it is. Otherwise the list loses the rows whose id is the
      selected one when the server says "deleted", and the `finally` closes the modal. */
  function HandleDelete<T(!new), Id(==)>(v: ListView<T>, id: T -> Id, resp: DeleteResponse): (r: ListView<T>)
    ensures v.selected == None ==> r == v
    ensures v.selected != None ==> !r.showModal && r.selected == None
    ensures v.selected != None && Deleted(resp) ==>
              (forall x :: x in r.items <==> x in v.items && id(x) != id(v.selected.value))
              && IsSubsequence(r.items, v.items)
    ensures !Deleted(resp) ==> r.items == v.items
  {
    if v.selected.None? then v
    else
      var sel := v.selected.value;
      var items := if Deleted(resp) then Filter(v.items, x => id(x) != id(sel)) else v.items;
      CloseModal(v.(items := items))
  }

  /** Opening the modal on a row and confirming deletes exactly that row's id
      when the server agrees, and leaves the screen closed either way. */
  lemma OpenThenDelete<T(!new), Id>(v: ListView<T>, row: T, id: T -> Id, resp: DeleteResponse)
    ensures var r := HandleDelete(OpenModal(v, row), id, resp);
      && !r.showModal && r.selected == None
      && (Deleted(resp) ==> forall x :: x in r.items <==> x in v.items && id(x) != id(row))
      && (!Deleted(resp) ==> r.items == v.items)
  {
  }

  /** A second confirmation finds no selection and changes nothing. */
  lemma DeleteTwiceIsDeleteOnce<T(!new), Id>(v: ListView<T>, id: T -> Id, resp1: DeleteResponse, resp2: DeleteResponse)
    ensures v.selected != None ==> HandleDelete(HandleDelete(v, id, resp1), id, resp2) == HandleDelete(v, id, resp1)
  {
  }
}
