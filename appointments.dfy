/** The appointment record the garage screens read, and the list of services
    ("prestations") both appointment views define identically, with the rule
    that picks the services an appointment asks for. */
module Appointments {
  import opened Js

  /** An appointment. `attrs` holds the remaining fields read by name: the
      service flags (`pneus`, `vidange`, ...) and their details
      (`vidange_km`, `revision_km`, `autres_details`). */
  datatype Rdv = Rdv(
    id: int,
    clientNom: JsValue,
    clientPrenom: JsValue,
    immat: JsValue,
    datePriseRdv: string,
    attrs: map<string, JsValue>)

  datatype Prestation = Prestation(key: string, caption: string)

  const Prestations: seq<Prestation> := [
    Prestation("pneus", "Pneus"),
    Prestation("amortisseurs", "Amortisseurs"),
    Prestation("vidange", "Vidange"),
    Prestation("distribution", "Distribution"),
    Prestation("revision", "Révision"),
    Prestation("climatisation", "Climatisation"),
    Prestation("freinage", "Freinage"),
    Prestation("echappement", "Échappement"),
    Prestation("autres", "Autres")
  ]

  /** `selectedRdv[key] === 1`: only the number 1 counts, not `"1"` nor `true`. */
  predicate Flagged(r: Rdv, key: string)
  {
    Get(r.attrs, key) == Num(1)
  }

  /** `prestationsDemandées`: nothing without a selection, otherwise the services
      whose flag is strictly 1, in the fixed list order. */
  function RequestedServices(selected: Option<Rdv>): (r: seq<Prestation>)
    ensures selected == None ==> r == []
    ensures selected != None ==> forall p :: p in r <==> p in Prestations && Flagged(selected.value, p.key)
    ensures IsSubsequence(r, Prestations)
  {
    if selected.None? then []
    else Filter(Prestations, (p: Prestation) => Flagged(selected.value, p.key))
  }

  /** The detail line of a service is shown when its flag is 1 and the detail is truthy
      (`selectedRdv.vidange === 1 && selectedRdv.vidange_km`). */
  predicate DetailShown(r: Rdv, flag: string, detail: string)
  {
    Flagged(r, flag) && Truthy(Get(r.attrs, detail))
  }

  /** The three detail lines of the modal: last oil change, last service, other work. */
  const Details: seq<(Prestation, string)> := [
    (Prestation("vidange", "Vidange"), "vidange_km"),
    (Prestation("revision", "Révision"), "revision_km"),
    (Prestation("autres", "Autres"), "autres_details")
  ]

  /** A detail line is only ever shown for a service that is listed as requested. */
  lemma DetailOnlyForRequested(r: Rdv, d: nat)
    requires d < |Details|
    requires DetailShown(r, Details[d].0.key, Details[d].1)
    ensures Details[d].0 in RequestedServices(Some(r))
  {
    assert Details[d].0 in Prestations by {
      assert Details[0].0 == Prestations[2];
      assert Details[1].0 == Prestations[4];
      assert Details[2].0 == Prestations[8];
    }
  }

  /** Which services are listed depends on the flags alone; a `"1"` string flag lists nothing. */
  lemma StringFlagNotRequested(r: Rdv, p: Prestation)
    requires Get(r.attrs, p.key) == Str("1")
    ensures p !in RequestedServices(Some(r))
  {
  }
}
