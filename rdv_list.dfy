/** The appointment list screen: search by number plate and deletion through
    the confirmation modal. */
module RdvList {
  import opened Js
  import opened Appointments
  import LV = ListViews

  /** `Rdv.immat?.toLowerCase().includes(q.toLowerCase())`: an appointment without
      a plate reads as `undefined` and never matches. */
  predicate PlateMatches(r: Rdv, query: string)
  {
    r.immat.Str? && Matches(r.immat.s, query)
  }

  /** `filteredPage` */
  function FilteredRdvs(rdvs: seq<Rdv>, query: string): (r: seq<Rdv>)
    ensures forall x :: x in r <==> x in rdvs && PlateMatches(x, query)
    ensures IsSubsequence(r, rdvs)
  {
    Filter(rdvs, (x: Rdv) => PlateMatches(x, query))
  }

  /** Even an empty search hides the appointments that have no plate, and only those. */
  lemma EmptySearchKeepsPlated(rdvs: seq<Rdv>)
    ensures forall x :: x in FilteredRdvs(rdvs, "") <==> x in rdvs && x.immat.Str?
  {
    forall x | x in rdvs && x.immat.Str?
      ensures PlateMatches(x, "")
    {
      EmptyQueryMatches(x.immat.s);
    }
  }

  /** `handleDelete()` on the appointment list. */
  function HandleDelete(v: LV.ListView<Rdv>, resp: LV.DeleteResponse): (r: LV.ListView<Rdv>)
    ensures v.selected == None ==> r == v
    ensures v.selected != None ==> !r.showModal && r.selected == None
    ensures v.selected != None && LV.Deleted(resp) ==>
              forall x :: x in r.items <==> x in v.items && x.id != v.selected.value.id
    ensures !LV.Deleted(resp) ==> r.items == v.items
  {
    LV.HandleDelete(v, (x: Rdv) => x.id, resp)
  }
}
