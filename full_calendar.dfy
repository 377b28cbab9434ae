/** The calendar view of the appointments: one calendar event per
    appointment, the lookup a click on an event performs, and the delete
    button of the detail modal. */
module FullCalendar {
  import opened Js
  import opened Appointments

  datatype CalendarEvent = CalendarEvent(id: string, title: string, start: string, allDay: bool)

  /** `${rdv.client_nom} ${rdv.client_prenom} - ${rdv.immat}` */
  function EventTitle(r: Rdv): string
  {
    ToText(r.clientNom) + " " + ToText(r.clientPrenom) + " - " + ToText(r.immat)
  }

  /** The event the calendar is given for one appointment. */
  function EventOf(r: Rdv): (e: CalendarEvent)
    ensures e.id == IntToString(r.id) && e.start == r.datePriseRdv && !e.allDay
    ensures e.title == EventTitle(r)
  {
    CalendarEvent(IntToString(r.id), EventTitle(r), r.datePriseRdv, false)
  }

  /** `rdvs.map(...)`: one event per appointment, in the same order. */
  function Events(rdvs: seq<Rdv>): (es: seq<CalendarEvent>)
    ensures |es| == |rdvs|
    ensures forall i :: 0 <= i < |rdvs| ==> es[i] == EventOf(rdvs[i])
  {
    seq(|rdvs|, i requires 0 <= i < |rdvs| => EventOf(rdvs[i]))
  }

  /** `rdvs.find(r => r.id.toString() === eventId)`: the first appointment with that id string. */
  function FindById(rdvs: seq<Rdv>, eventId: string): (r: Option<Rdv>)
    ensures r == None <==> forall i :: 0 <= i < |rdvs| ==> IntToString(rdvs[i].id) != eventId
    ensures r != None ==> exists i :: 0 <= i < |rdvs| && rdvs[i] == r.value
                            && IntToString(rdvs[i].id) == eventId
                            && forall j :: 0 <= j < i ==> IntToString(rdvs[j].id) != eventId
    decreases |rdvs|
  {
    if rdvs == [] then None
    else if IntToString(rdvs[0].id) == eventId then Some(rdvs[0])
    else
      var r := FindById(rdvs[1..], eventId);
      assert forall j :: 1 <= j < |rdvs| ==> rdvs[j] == rdvs[1..][j - 1];
      r
  }

  /** `handleEventClick`: select the appointment found, keep the selection when none is. */
  function HandleEventClick(selected: Option<Rdv>, rdvs: seq<Rdv>, eventId: string): (r: Option<Rdv>)
    ensures FindById(rdvs, eventId) == None ==> r == selected
    ensures FindById(rdvs, eventId) != None ==> r == FindById(rdvs, eventId)
  {
    var found := FindById(rdvs, eventId);
    if found.Some? then found else selected
  }

  /** Clicking the event drawn for `rdvs[i]` selects the first appointment with
      the same id, which is `rdvs[i]` itself when the ids are distinct. */
  lemma ClickSelectsItsAppointment(selected: Option<Rdv>, rdvs: seq<Rdv>, i: nat)
    requires i < |rdvs|
    ensures var r := HandleEventClick(selected, rdvs, Events(rdvs)[i].id);
      r != None && r.value.id == rdvs[i].id
      && ((forall a, b :: 0 <= a < b < |rdvs| ==> rdvs[a].id != rdvs[b].id) ==> r == Some(rdvs[i]))
  {
    var eventId := Events(rdvs)[i].id;
    assert IntToString(rdvs[i].id) == eventId;
    var r := FindById(rdvs, eventId);
    var k :| 0 <= k < |rdvs| && rdvs[k] == r.value && IntToString(rdvs[k].id) == eventId
             && forall j :: 0 <= j < k ==> IntToString(rdvs[j].id) != eventId;
    IntToStringInjective(rdvs[k].id, rdvs[i].id);
    assert k <= i;
  }

  /** The modal's delete button: clear the selection and hand the selected appointment on. */
  datatype DeleteRequest = DeleteRequest(newSelection: Option<Rdv>, requested: Option<Rdv>)

  function ModalDelete(selected: Option<Rdv>): (r: DeleteRequest)
    ensures r.newSelection == None && r.requested == selected
  {
    DeleteRequest(None, selected)
  }
}
