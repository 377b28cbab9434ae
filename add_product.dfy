/** The product creation form: an empty product, the type and category
    selects, the same field, detail, image and promo-code handlers as the
    edition form, the check of the mandatory fields and the multipart payload
    of the creation request. */
module AddProduct {
  import opened Js
  import opened ImageUpload
  import opened ProductForm
  import ProductUpdate

  // ---------------------------------------------------------------------
  // Starting state

  /** The types offered when the type request throws: a slug and a `label`,
      so the `libelle` and the `id` the select reads are both undefined. */
  const FallbackTypes: seq<TypeOption> :=
    [ TypeOption(Str("piece"), Undefined, Undefined),
      TypeOption(Str("vehicule"), Undefined, Undefined) ]

  /** The fallback types carry no id, so no choice in the type select finds one of them. */
  lemma FallbackTypesNeverChosen(selectedId: Option<int>)
    ensures FindType(FallbackTypes, selectedId) == None
  {
    if selectedId.Some? {
      assert forall t :: t in FallbackTypes ==> t.id == Undefined;
    }
  }

  /** The empty form: no type, every text empty, active, no category yet. */
  const InitialProduct: Product :=
    Product(
      map[ "type_id" := Str(""), "libelle" := Str(""), "marque" := Str(""), "modele" := Str(""),
           "quantite" := Str(""), "prix" := Str(""), "prix_promo" := Str(""),
           "description" := Str(""), "actif" := Bool(true) ],
      [], [], [], [])

  /** What the type request gives: the types mapped from the answer, an error
      answer (the list stays as it was), or a request that throws. */
  datatype TypesFetch = Answered(ok: bool, types: seq<TypeOption>) | Thrown

  function TypesAfter(current: seq<TypeOption>, fetch: TypesFetch): (r: seq<TypeOption>)
    ensures fetch.Thrown? ==> r == FallbackTypes
    ensures fetch.Answered? && fetch.ok ==> r == fetch.types
    ensures fetch.Answered? && !fetch.ok ==> r == current
  {
    match fetch
    case Thrown => FallbackTypes
    case Answered(ok, ts) => if ok then ts else current
  }

  // ---------------------------------------------------------------------
  // Handlers

  /** `handleChange(e)`: a checkbox stores `checked`, any other input its text. */
  function FieldChanged(p: Product, e: InputEvent): (r: Product)
    ensures Get(r.fields, e.name) == if e.isCheckbox then Bool(e.checked) else Str(e.value)
    ensures forall f :: f != e.name ==> Get(r.fields, f) == Get(p.fields, f)
    ensures r.images == p.images && r.piece == p.piece && r.vehicule == p.vehicule && r.codesPromo == p.codesPromo
  {
    FieldSet(p, e.name, if e.isCheckbox then Bool(e.checked) else Str(e.value))
  }

  /** `parseInt(e.target.value)` of a select whose options carry integer ids: `NaN` for the empty choice. */
  function ParsedId(parsed: Option<int>): (r: JsValue)
    ensures Truthy(r) <==> parsed.Some? && parsed.value != 0
  {
    if parsed.Some? then Num(parsed.value) else NaN
  }

  /** The category select's `onChange`: the category takes the parsed id. */
  function CategoryChosen(p: Product, parsed: Option<int>): (r: Product)
    ensures Get(r.fields, "categorie_id") == ParsedId(parsed)
    ensures forall f :: f != "categorie_id" ==> Get(r.fields, f) == Get(p.fields, f)
    ensures r.images == p.images && r.piece == p.piece && r.vehicule == p.vehicule && r.codesPromo == p.codesPromo
  {
    FieldSet(p, "categorie_id", ParsedId(parsed))
  }

  // ---------------------------------------------------------------------
  // Validation

  const MissingFieldsMessage: string := "Type, catégorie, libellé et prix sont obligatoires."

  /** The four mandatory fields are all set. */
  predicate Complete(p: Product)
  {
    && Truthy(Get(p.fields, "type_id"))
    && Truthy(Get(p.fields, "categorie_id"))
    && Truthy(Get(p.fields, "libelle"))
    && Truthy(Get(p.fields, "prix"))
  }

  /** The submit button is enabled: nothing loading, a type selected, and the
      mandatory fields set. */
  predicate ButtonEnabled(loading: bool, sel: Option<TypeOption>, p: Product)
  {
    !(loading || sel.None? || !Complete(p))
  }

  /** What `handleSubmit` does before the request: refuse with the message, or build the payload. */
  datatype Submission = Rejected(message: string) | Sent(formData: seq<Entry>)

  // ---------------------------------------------------------------------
  // The payload

  /** The type and the category, appended first and as they are. */
  function IdFields(p: Product): seq<Field>
  {
    [ Field("type_id", true, Get(p.fields, "type_id")),
      Field("categorie_id", true, Get(p.fields, "categorie_id")) ]
  }

  /** The top-level appends: the type and the category, then the same appends
      as the update makes. */
  function HeadFields(p: Product): seq<Field>
  {
    IdFields(p) + ProductUpdate.HeadFields(p)
  }

  /** `images[i]`: the key of image `i`. */
  function ImagePath(i: nat): Path
  {
    Path("images", [NatToString(i)])
  }

  function ImageBlocks(images: seq<Image>): (bs: seq<seq<Entry>>)
    ensures |bs| == |images|
    ensures forall i :: 0 <= i < |images| ==> bs[i] == [Append(ImagePath(i), AsValue(images[i]))]
  {
    seq(|images|, i requires 0 <= i < |images| => [Append(ImagePath(i), AsValue(images[i]))])
  }

  /** `product.images.forEach((img, i) => formData.append(`images[${i}]`, img))` */
  function ImageEntries(images: seq<Image>): seq<Entry>
  {
    Flatten(ImageBlocks(images))
  }

  /** A spare-part property is sent unless it is "". */
  function PieceField(pr: Prop): Field
  {
    Field(pr.name, pr.value != Str(""), pr.value)
  }

  /** A vehicle property is sent unless it is "", null or undefined; a boolean as "1" or "0". */
  function VehiculeField(pr: Prop): Field
  {
    var v := pr.value;
    Field(pr.name, !Blank(v), if v.Bool? then Str(if v.b then "1" else "0") else v)
  }

  function PieceEntries(sel: Option<TypeOption>, d: Dict): seq<Entry>
  {
    if SelectedIs(sel, "piece") then Emit("piece", [], FieldsOf(d, PieceField)) else []
  }

  function VehiculeEntries(sel: Option<TypeOption>, d: Dict): seq<Entry>
  {
    if SelectedIs(sel, "vehicule") then Emit("vehicule", [], FieldsOf(d, VehiculeField)) else []
  }

  /** The bracketed appends, one part per loop, each under its own root. */
  function Parts(p: Product, sel: Option<TypeOption>): seq<seq<Entry>>
  {
    [ ImageEntries(p.images), PieceEntries(sel, p.piece), VehiculeEntries(sel, p.vehicule),
      PromosPayload(p.codesPromo) ]
  }

  const Roots: seq<string> := ["images", "piece", "vehicule", "codes_promo"]

  /** What `handleSubmit` puts in the `FormData`, in order. */
  function Payload(p: Product, sel: Option<TypeOption>): seq<Entry>
  {
    EmitNamed(HeadFields(p)) + Flatten(Parts(p, sel))
  }

  /** `handleSubmit` up to the request: a product missing a mandatory field is
      refused with the message, any other one is sent with its payload. */
  function Submit(p: Product, sel: Option<TypeOption>): (r: Submission)
    ensures r.Sent? <==> Complete(p)
    ensures r.Rejected? ==> r.message == MissingFieldsMessage
  {
    if !Complete(p) then Rejected(MissingFieldsMessage) else Sent(Payload(p, sel))
  }

  // ---------------------------------------------------------------------
  // What the payload holds

  /** Every bracketed append sits under the root of its part. */
  lemma PartsShape(p: Product, sel: Option<TypeOption>)
    ensures var ps: seq<seq<Entry>> := Parts(p, sel);
      |ps| == |Roots|
      && forall k, j :: 0 <= k < |ps| && 0 <= j < |ps[k]| ==>
           ps[k][j].path.root == Roots[k] && ps[k][j].path.segs != []
  {
    var ps: seq<seq<Entry>> := Parts(p, sel);
    DetailShape("piece", p.piece, PieceField);
    DetailShape("vehicule", p.vehicule, VehiculeField);
    PromoBlocksShape(p.codesPromo);
    FlattenAll(PromoBlocks(p.codesPromo), (e: Entry) => e.path.root == "codes_promo" && e.path.segs != []);
    FlattenAll(ImageBlocks(p.images), (e: Entry) => e.path.root == "images" && e.path.segs != []);
    forall k, j | 0 <= k < |ps| && 0 <= j < |ps[k]|
      ensures ps[k][j].path.root == Roots[k] && ps[k][j].path.segs != []
    {
      if k == 0 {
        assert ps[k] == Flatten(ImageBlocks(p.images));
      } else if k == 3 {
        assert ps[k] == Flatten(PromoBlocks(p.codesPromo));
      }
    }
  }

  /** A bracketed key under root `Roots[m]` is looked up in part `m` alone. */
  lemma PartLookup(p: Product, sel: Option<TypeOption>, t: Path, m: nat)
    requires m < |Roots| && t.root == Roots[m] && t.segs != []
    ensures WithKey(Payload(p, sel), t) == WithKey(Parts(p, sel)[m], t)
  {
    PartsShape(p, sel);
    AssembledPartLookup(HeadFields(p), Parts(p, sel), Roots, t, m);
  }

  /** The type and the category are sent as they are, once each. */
  lemma PayloadIds(p: Product, sel: Option<TypeOption>)
    ensures var e := Payload(p, sel);
      && WithKey(e, Named("type_id")) == [Append(Named("type_id"), Get(p.fields, "type_id"))]
      && WithKey(e, Named("categorie_id")) == [Append(Named("categorie_id"), Get(p.fields, "categorie_id"))]
  {
    PartsShape(p, sel);
    ProductUpdate.HeadLayout(p);
    var h := HeadFields(p);
    assert h[0] == Field("type_id", true, Get(p.fields, "type_id"));
    assert h[1] == Field("categorie_id", true, Get(p.fields, "categorie_id"));
    assert DistinctNames(h);
    AssembledHeadLookup(h, Parts(p, sel), 0);
    AssembledHeadLookup(h, Parts(p, sel), 1);
  }

  /** Any other top-level key carries what the update would send under it:
      the label, the prices, the description and `actif` go the same way in both forms. */
  lemma SameFieldsAsUpdate(p: Product, sel: Option<TypeOption>, sel': Option<TypeOption>, deleted: seq<string>, n: string)
    requires n != "type_id" && n != "categorie_id"
    ensures WithKey(Payload(p, sel), Named(n)) == WithKey(ProductUpdate.Payload(p, sel', deleted), Named(n))
  {
    PartsShape(p, sel);
    FlattenAll(Parts(p, sel), (e: Entry) => e.path.segs != []);
    HeadLookup(HeadFields(p), Flatten(Parts(p, sel)), n);
    EmitNamedAppend(IdFields(p), ProductUpdate.HeadFields(p));
    WithKeyAppend(EmitNamed(IdFields(p)), EmitNamed(ProductUpdate.HeadFields(p)), Named(n));
    EmitNamedAbsent(IdFields(p), n);
    ProductUpdate.PartsShape(p, sel', deleted);
    FlattenAll(ProductUpdate.Parts(p, sel', deleted), (e: Entry) => e.path.segs != []);
    HeadLookup(ProductUpdate.HeadFields(p), Flatten(ProductUpdate.Parts(p, sel', deleted)), n);
  }

  /** Image `i` is sent under `images[i]`, files as files and stored paths as
      text, and there is no key past the last image. */
  lemma PayloadImage(p: Product, sel: Option<TypeOption>, i: nat)
    ensures WithKey(Payload(p, sel), ImagePath(i))
            == if i < |p.images| then [Append(ImagePath(i), AsValue(p.images[i]))] else []
  {
    PartLookup(p, sel, ImagePath(i), 0);
    var bs: seq<seq<Entry>> := ImageBlocks(p.images);
    forall k, j | 0 <= k < |bs| && 0 <= j < |bs[k]|
      ensures |bs[k][j].path.segs| > 0 && bs[k][j].path.segs[0] == NatToString(k)
    {
    }
    TaggedLookup(bs, 0, ImagePath(i), i);
    if i < |p.images| {
      WithKeyAll(bs[i], ImagePath(i));
    }
  }

  /** With the spare-part type selected, a spare-part property is sent unless
      it is ""; otherwise none is. */
  lemma PayloadPiece(p: Product, sel: Option<TypeOption>, n: string)
    requires UniqueNames(p.piece)
    ensures var v := Lookup(p.piece, n);
      WithKey(Payload(p, sel), Path("piece", [n]))
        == if SelectedIs(sel, "piece") && IndexOfName(p.piece, n) >= 0 && v != Str("")
           then [Append(Path("piece", [n]), v)] else []
  {
    PartLookup(p, sel, Path("piece", [n]), 1);
    if SelectedIs(sel, "piece") {
      DetailLookup("piece", p.piece, PieceField, n);
    }
  }

  /** With the vehicle type selected, a vehicle property is sent unless it is
      "", null or undefined; otherwise none is. */
  lemma PayloadVehicule(p: Product, sel: Option<TypeOption>, n: string)
    requires UniqueNames(p.vehicule)
    ensures var v := Lookup(p.vehicule, n);
      WithKey(Payload(p, sel), Path("vehicule", [n]))
        == if SelectedIs(sel, "vehicule") && IndexOfName(p.vehicule, n) >= 0 && !Blank(v)
           then [Append(Path("vehicule", [n]), VehiculeField(Prop(n, v)).value)] else []
  {
    PartLookup(p, sel, Path("vehicule", [n]), 2);
    if SelectedIs(sel, "vehicule") {
      DetailLookup("vehicule", p.vehicule, VehiculeField, n);
    }
  }

  /** The vehicle appends are the ones the update makes: an array appended as
      is turns into the same comma-joined text the update builds. */
  lemma VehiculeSameInBothFlows(sel: Option<TypeOption>, d: Dict)
    ensures VehiculeEntries(sel, d) == ProductUpdate.VehiculeEntries(sel, d)
  {
    if SelectedIs(sel, "vehicule") {
      var a := FieldsOf(d, VehiculeField);
      var b := FieldsOf(d, ProductUpdate.VehiculeField);
      forall k | 0 <= k < |a|
        ensures a[k].name == b[k].name && a[k].sent == b[k].sent && FormValueOf(a[k].value) == FormValueOf(b[k].value)
      {
      }
      EmitSameWire("vehicule", [], a, b);
    }
  }

  /** The promo-code keys carry exactly the appends of the promo-code rows. */
  lemma PayloadPromos(p: Product, sel: Option<TypeOption>, i: nat, f: string)
    ensures WithKey(Payload(p, sel), PromoPath(i, f)) == WithKey(PromosPayload(p.codesPromo), PromoPath(i, f))
  {
    PartLookup(p, sel, PromoPath(i, f), 3);
  }

  // ---------------------------------------------------------------------
  // When a submission goes through

  /** An enabled submit button never leads to the missing-fields message. */
  lemma EnabledButtonSends(loading: bool, sel: Option<TypeOption>, p: Product)
    requires ButtonEnabled(loading, sel, p)
    ensures Submit(p, sel) == Sent(Payload(p, sel))
  {
  }

  /** The empty form is refused. */
  lemma InitialIsRejected(sel: Option<TypeOption>)
    ensures Submit(InitialProduct, sel) == Rejected(MissingFieldsMessage)
  {
    assert Get(InitialProduct.fields, "type_id") == Str("");
  }

  /** With the fallback types, whatever the user picks leaves the type empty
      and the product cannot be created. */
  lemma FallbackTypesBlockSubmit(p: Product, selectedId: Option<int>, sel: Option<TypeOption>)
    ensures Submit(TypeChanged(p, FindType(FallbackTypes, selectedId)), sel) == Rejected(MissingFieldsMessage)
  {
    FallbackTypesNeverChosen(selectedId);
    assert Get(TypeChanged(p, None).fields, "type_id") == Str("");
  }

  /** Picking the empty category leaves the product refused. */
  lemma EmptyCategoryIsRejected(p: Product, sel: Option<TypeOption>)
    ensures Submit(CategoryChosen(p, None), sel) == Rejected(MissingFieldsMessage)
  {
  }

  /** A label typed into a complete form is what the creation request sends under `libelle`. */
  lemma TypedLabelIsSent(p: Product, sel: Option<TypeOption>, text: string)
    requires Complete(FieldChanged(p, InputEvent("libelle", text, false, false)))
    ensures var q := FieldChanged(p, InputEvent("libelle", text, false, false));
      Submit(q, sel).Sent?
      && WithKey(Submit(q, sel).formData, Named("libelle")) == [Append(Named("libelle"), Str(text))]
  {
    var q := FieldChanged(p, InputEvent("libelle", text, false, false));
    SameFieldsAsUpdate(q, sel, sel, [], "libelle");
    ProductUpdate.PayloadLabelAndPrice(q, sel, []);
  }

  // ---------------------------------------------------------------------
  // The form's state

  class ProductCreator {
    var product: Product
    var selectedType: Option<TypeOption>
    var types: seq<TypeOption>
    var error: string

    /** Each detail object holds each property once. */
    predicate Valid()
      reads this
    {
      UniqueNames(product.piece) && UniqueNames(product.vehicule)
    }

    /** The form as it mounts: the empty product, no type, no type list, no error. */
    constructor ()
      ensures Valid()
      ensures product == InitialProduct && selectedType == None && types == [] && error == ""
    {
      product := InitialProduct;
      selectedType := None;
      types := [];
      error := "";
    }

    /** The type request settles. */
    method TypesLoaded(fetch: TypesFetch)
      modifies this
      ensures types == TypesAfter(old(types), fetch)
      ensures product == old(product) && selectedType == old(selectedType) && error == old(error)
    {
      match fetch {
        case Thrown => types := FallbackTypes;
        case Answered(ok, ts) =>
          if ok {
            types := ts;
          }
      }
    }

    /** `handleTypeChange(option)` */
    method HandleTypeChange(option: Option<TypeOption>)
      requires Valid()
      modifies this
      ensures Valid()
      ensures selectedType == option && product == TypeChanged(old(product), option)
      ensures types == old(types) && error == old(error)
    {
      selectedType := option;
      product := TypeChanged(product, option);
    }

    /** The type select's `onChange`: the type whose id is the parsed choice, if any. */
    method SelectType(selectedId: Option<int>)
      requires Valid()
      modifies this
      ensures Valid()
      ensures selectedType == FindType(types, selectedId)
      ensures product == TypeChanged(old(product), FindType(types, selectedId))
      ensures types == old(types) && error == old(error)
    {
      var chosen := FindType(types, selectedId);
      HandleTypeChange(chosen);
    }

    /** The category select's `onChange`. */
    method SelectCategory(parsed: Option<int>)
      requires Valid()
      modifies this
      ensures Valid()
      ensures product == CategoryChosen(old(product), parsed)
      ensures selectedType == old(selectedType) && types == old(types) && error == old(error)
    {
      product := product.(fields := product.fields["categorie_id" := ParsedId(parsed)]);
    }

    /** `handleChange(e)` */
    method HandleChange(e: InputEvent)
      requires Valid()
      modifies this
      ensures Valid()
      ensures product == FieldChanged(old(product), e)
      ensures selectedType == old(selectedType) && types == old(types) && error == old(error)
    {
      var v := if e.isCheckbox then Bool(e.checked) else Str(e.value);
      product := product.(fields := product.fields[e.name := v]);
    }

    /** `handleDetailChange(section, name, value)` */
    method HandleDetailChange(section: Detail, name: string, value: JsValue)
      requires Valid()
      modifies this
      ensures Valid()
      ensures product == DetailChanged(old(product), section, name, value)
      ensures selectedType == old(selectedType) && types == old(types) && error == old(error)
    {
      product := DetailChanged(product, section, name, value);
    }

    /** `addCodePromo()` */
    method AddCodePromo()
      requires Valid()
      modifies this
      ensures Valid()
      ensures product == old(product).(codesPromo := PromoAdded(old(product.codesPromo)))
      ensures selectedType == old(selectedType) && types == old(types) && error == old(error)
    {
      product := product.(codesPromo := product.codesPromo + [NewPromo]);
    }

    /** `removeCodePromo(idx)` */
    method RemoveCodePromo(idx: int)
      requires Valid()
      modifies this
      ensures Valid()
      ensures product == old(product).(codesPromo := WithoutIndex(old(product.codesPromo), idx))
      ensures selectedType == old(selectedType) && types == old(types) && error == old(error)
    {
      product := product.(codesPromo := WithoutIndex(product.codesPromo, idx));
    }

    /** `handleCodePromoChange(idx, name, value)`, for a row on screen. */
    method HandleCodePromoChange(idx: nat, name: string, value: JsValue)
      requires Valid() && idx < |product.codesPromo|
      modifies this
      ensures Valid()
      ensures product == old(product).(codesPromo := PromoFieldSet(old(product.codesPromo), idx, name, value))
      ensures selectedType == old(selectedType) && types == old(types) && error == old(error)
    {
      var codes := product.codesPromo;
      codes := codes[idx := codes[idx][name := value]];
      product := product.(codesPromo := codes);
    }

    /** The image picker's `setImages(updater)`, given the list the updater returns. */
    method SetImages(newImages: seq<Image>)
      requires Valid()
      modifies this
      ensures Valid()
      ensures product == old(product).(images := newImages)
      ensures selectedType == old(selectedType) && types == old(types) && error == old(error)
    {
      product := product.(images := newImages);
    }

    /** `handleSubmit()` up to the request: the error shows the message of a
        refusal and is cleared otherwise. */
    method HandleSubmit() returns (result: Submission)
      modifies this
      ensures result == Submit(product, selectedType)
      ensures error == if result.Rejected? then result.message else ""
      ensures product == old(product) && selectedType == old(selectedType) && types == old(types)
    {
      error := "";
      var f := product.fields;
      if !Truthy(Get(f, "type_id")) || !Truthy(Get(f, "categorie_id"))
         || !Truthy(Get(f, "libelle")) || !Truthy(Get(f, "prix")) {
        error := MissingFieldsMessage;
        return Rejected(MissingFieldsMessage);
      }
      var head := HeadPass(product);
      var body := BodyPass(product, selectedType);
      return Sent(head + body);
    }
  }

  /** The top-level appends: the type and the category, then those of the update. */
  method HeadPass(p: Product) returns (formData: seq<Entry>)
    ensures formData == EmitNamed(HeadFields(p))
  {
    formData := [Append(Named("type_id"), Get(p.fields, "type_id"))];
    formData := formData + [Append(Named("categorie_id"), Get(p.fields, "categorie_id"))];
    var rest := ProductUpdate.HeadPass(p);
    IdEntries(p);
    formData := formData + rest;
  }

  lemma IdEntries(p: Product)
    ensures EmitNamed(HeadFields(p))
            == [ Append(Named("type_id"), Get(p.fields, "type_id")),
                 Append(Named("categorie_id"), Get(p.fields, "categorie_id")) ]
               + EmitNamed(ProductUpdate.HeadFields(p))
  {
    var ids := IdFields(p);
    EmitNamedAppend(ids, ProductUpdate.HeadFields(p));
    EmitNamedStep(ids, 1);
    EmitNamedStep(ids, 0);
    assert ids[0..] == ids && ids[2..] == [];
  }

  /** The loops of `handleSubmit`, one after the other. */
  method BodyPass(p: Product, sel: Option<TypeOption>) returns (body: seq<Entry>)
    ensures body == Flatten(Parts(p, sel))
  {
    var images := ImagesPass(p.images);
    var piece: seq<Entry> := [];
    if SelectedIs(sel, "piece") {
      piece := DetailPass("piece", p.piece, PieceField);
    }
    var vehicule: seq<Entry> := [];
    if SelectedIs(sel, "vehicule") {
      vehicule := DetailPass("vehicule", p.vehicule, VehiculeField);
    }
    var promos := PromosPass(p.codesPromo);
    FourParts(Parts(p, sel));
    body := images + piece + vehicule + promos;
  }

  /** The four parts one after the other. */
  lemma FourParts(ps: seq<seq<Entry>>)
    requires |ps| == 4
    ensures Flatten(ps) == ps[0] + ps[1] + ps[2] + ps[3]
  {
    assert ps[..0] == [];
    FlattenSnoc(ps, 0);
    assert Flatten(ps[..1]) == ps[0];
    FlattenSnoc(ps, 1);
    FlattenSnoc(ps, 2);
    FlattenSnoc(ps, 3);
    assert ps[..4] == ps;
  }

  /** `product.images.forEach((img, i) => ...)` */
  method ImagesPass(images: seq<Image>) returns (appended: seq<Entry>)
    ensures appended == ImageEntries(images)
  {
    appended := [];
    ghost var bs := ImageBlocks(images);
    var i := 0;
    while i < |images|
      invariant 0 <= i <= |images|
      invariant appended == Flatten(bs[..i])
    {
      appended := appended + [Append(ImagePath(i), AsValue(images[i]))];
      FlattenSnoc(bs, i);
      i := i + 1;
    }
    assert bs[..i] == bs;
  }
}
