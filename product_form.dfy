/** What the product creation and product edition forms share: the product
    being edited, the type select, the detail objects of a spare part or a
    vehicle, the promo-code rows and their appends, and the categories
    grouped by the slug of their product type. */
module ProductForm {
  import opened Js
  import opened Grouping
  import opened ImageUpload

  // ---------------------------------------------------------------------
  // Detail objects

  /** One property of a detail object (`product.piece`, `product.vehicule`). */
  datatype Prop = Prop(name: string, value: JsValue)

  /** A detail object, its properties in insertion order: the order
      `Object.entries` reports for property names that are not array indices. */
  type Dict = seq<Prop>

  /** Where property `name` is, or -1 when the object has no such property. */
  function IndexOfName(d: Dict, name: string): (r: int)
    ensures -1 <= r < |d|
    ensures 0 <= r ==> d[r].name == name
    ensures 0 <= r ==> forall j :: 0 <= j < r ==> d[j].name != name
    ensures r == -1 <==> forall j :: 0 <= j < |d| ==> d[j].name != name
    decreases |d|
  {
    if d == [] then -1
    else if d[0].name == name then 0
    else
      var r := IndexOfName(d[1..], name);
      if r < 0 then -1 else r + 1
  }

  /** An object holds each property once. */
  predicate UniqueNames(d: Dict)
  {
    forall a, b :: 0 <= a < b < |d| ==> d[a].name != d[b].name
  }

  /** `d[name]`: undefined for a missing property. */
  function Lookup(d: Dict, name: string): JsValue
  {
    var i := IndexOfName(d, name);
    if i < 0 then Undefined else d[i].value
  }

  /** Objects whose properties have the same names in the same order find every name at the same place. */
  lemma SameNamesSameIndex(d: Dict, e: Dict)
    requires |d| == |e| && forall j :: 0 <= j < |d| ==> d[j].name == e[j].name
    ensures forall n :: IndexOfName(d, n) == IndexOfName(e, n)
  {
    forall n
      ensures IndexOfName(d, n) == IndexOfName(e, n)
    {
      var a, b := IndexOfName(d, n), IndexOfName(e, n);
      if a >= 0 {
        assert e[a].name == n;
      }
      if b >= 0 {
        assert d[b].name == n;
      }
    }
  }

  /** A property added last leaves every other name where it was. */
  lemma IndexOfNameSnoc(d: Dict, p: Prop)
    ensures forall n :: n != p.name ==> IndexOfName(d + [p], n) == IndexOfName(d, n)
  {
    forall n | n != p.name
      ensures IndexOfName(d + [p], n) == IndexOfName(d, n)
    {
      var a, b := IndexOfName(d + [p], n), IndexOfName(d, n);
      assert forall j :: 0 <= j < |d| ==> (d + [p])[j] == d[j];
      if a >= 0 {
        assert a < |d|;
      }
      if b >= 0 {
        assert (d + [p])[b].name == n;
      }
    }
  }

  /** `{ ...d, [name]: value }`: an existing property is overwritten where it
      stands, a new one goes last, and every other property keeps its value. */
  function DictSet(d: Dict, name: string, value: JsValue): (r: Dict)
    ensures Lookup(r, name) == value
    ensures forall n :: n != name ==> Lookup(r, n) == Lookup(d, n)
    ensures IndexOfName(d, name) < 0 ==> r == d + [Prop(name, value)]
    ensures IndexOfName(d, name) >= 0 ==> |r| == |d| && forall j :: 0 <= j < |d| ==> r[j].name == d[j].name
    ensures UniqueNames(d) ==> UniqueNames(r)
  {
    var i := IndexOfName(d, name);
    if i < 0 then
      var r := d + [Prop(name, value)];
      IndexOfNameSnoc(d, Prop(name, value));
      assert forall j :: 0 <= j < |d| ==> r[j] == d[j];
      assert r[|d|].name == name;
      r
    else
      var r := d[i := Prop(name, value)];
      SameNamesSameIndex(d, r);
      r
  }

  // ---------------------------------------------------------------------
  // The product being edited

  /** A promo-code row: `{ code, reduction, valeur_remise, date_expiration }`. */
  type Promo = map<string, JsValue>

  /** `product`: the scalar fields by name (`type_id`, `libelle`, `prix`, `actif`, ...),
      the images, the two detail objects and the promo-code rows. */
  datatype Product = Product(
    fields: map<string, JsValue>,
    images: seq<Image>,
    piece: Dict,
    vehicule: Dict,
    codesPromo: seq<Promo>)

  /** The two detail objects `handleDetailChange` may address. */
  datatype Detail = PieceDetail | VehiculeDetail

  /** An entry of the type select: the type's slug, its label and its id. */
  datatype TypeOption = TypeOption(value: JsValue, libelle: JsValue, id: JsValue)

  /** `selectedType?.value === slug` */
  predicate SelectedIs(sel: Option<TypeOption>, slug: string)
  {
    sel.Some? && sel.value.value == Str(slug)
  }

  /** `handleTypeChange(option)`: the product takes the option's id, "" when
      there is none or it is falsy, and both detail objects are emptied. */
  function TypeChanged(p: Product, option: Option<TypeOption>): (r: Product)
    ensures Get(r.fields, "type_id") == (if option.Some? && Truthy(option.value.id) then option.value.id else Str(""))
    ensures r.piece == [] && r.vehicule == []
    ensures r.images == p.images && r.codesPromo == p.codesPromo
    ensures forall f :: f != "type_id" ==> Get(r.fields, f) == Get(p.fields, f)
  {
    var id := if option.None? then Undefined else option.value.id;
    p.(fields := p.fields["type_id" := Or(id, Str(""))], piece := [], vehicule := [])
  }

  /** What an input event of the main form carries. */
  datatype InputEvent = InputEvent(name: string, value: string, isCheckbox: bool, checked: bool)

  /** `[name]: newValue`: one scalar field takes a new value, nothing else changes. */
  function FieldSet(p: Product, name: string, v: JsValue): (r: Product)
    ensures Get(r.fields, name) == v
    ensures forall f :: f != name ==> Get(r.fields, f) == Get(p.fields, f)
    ensures r.images == p.images && r.piece == p.piece && r.vehicule == p.vehicule && r.codesPromo == p.codesPromo
  {
    p.(fields := p.fields[name := v])
  }

  /** `handleDetailChange(section, name, value)`: one property of one detail
      object takes the value; the other object and the rest of the product stay. */
  function DetailChanged(p: Product, section: Detail, name: string, value: JsValue): (r: Product)
    ensures section == PieceDetail ==>
              && Lookup(r.piece, name) == value
              && (forall n :: n != name ==> Lookup(r.piece, n) == Lookup(p.piece, n))
              && r.vehicule == p.vehicule
    ensures section == VehiculeDetail ==>
              && Lookup(r.vehicule, name) == value
              && (forall n :: n != name ==> Lookup(r.vehicule, n) == Lookup(p.vehicule, n))
              && r.piece == p.piece
    ensures r.fields == p.fields && r.images == p.images && r.codesPromo == p.codesPromo
    ensures UniqueNames(p.piece) && UniqueNames(p.vehicule) ==> UniqueNames(r.piece) && UniqueNames(r.vehicule)
  {
    match section
    case PieceDetail => p.(piece := DictSet(p.piece, name, value))
    case VehiculeDetail => p.(vehicule := DictSet(p.vehicule, name, value))
  }

  /** The type select's `onChange`: `types.find((t) => t.id === parseInt(selectedId)) || null`;
      `selectedId` is None when `parseInt` gives NaN (the empty choice). */
  function FindType(types: seq<TypeOption>, selectedId: Option<int>): (r: Option<TypeOption>)
    ensures r.Some? ==> selectedId.Some? && r.value in types && r.value.id == Num(selectedId.value)
    ensures r.None? <==> selectedId.None? || forall t :: t in types ==> t.id != Num(selectedId.value)
    decreases |types|
  {
    if selectedId.None? || types == [] then None
    else if types[0].id == Num(selectedId.value) then Some(types[0])
    else FindType(types[1..], selectedId)
  }

  /** `v !== "" && v !== null && v !== undefined` fails. */
  predicate Blank(v: JsValue)
  {
    v == Str("") || v == Null || v == Undefined
  }

  /** One append per property of a detail object, in `Object.entries` order. */
  function FieldsOf(d: Dict, toField: Prop -> Field): (fs: seq<Field>)
    ensures |fs| == |d| && forall k :: 0 <= k < |d| ==> fs[k] == toField(d[k])
  {
    seq(|d|, k requires 0 <= k < |d| => toField(d[k]))
  }

  /** `Object.entries(d).forEach(([k, v]) => ...)`: the appends under `root[k]`. */
  method DetailPass(root: string, d: Dict, toField: Prop -> Field) returns (appended: seq<Entry>)
    ensures appended == Emit(root, [], FieldsOf(d, toField))
  {
    appended := [];
    var k := 0;
    while k < |d|
      invariant 0 <= k <= |d|
      invariant appended == Emit(root, [], FieldsOf(d[..k], toField))
    {
      var f := toField(d[k]);
      if f.sent {
        appended := appended + [Append(Path(root, [f.name]), f.value)];
      }
      assert FieldsOf(d[..k + 1], toField) == FieldsOf(d[..k], toField) + [f];
      EmitSnoc(root, [], FieldsOf(d[..k], toField), f);
      assert [] + [f.name] == [f.name];
      k := k + 1;
    }
    assert d[..k] == d;
  }

  /** When each field keeps its property's name, the key `root[n]` carries the
      append of property `n` when it is made, and nothing for a missing property. */
  lemma DetailLookup(root: string, d: Dict, toField: Prop -> Field, n: string)
    requires UniqueNames(d) && forall pr :: toField(pr).name == pr.name
    ensures var k := IndexOfName(d, n);
      WithKey(Emit(root, [], FieldsOf(d, toField)), Path(root, [n]))
        == if k < 0 then [] else
             var f := toField(d[k]);
             if f.sent then [Append(Path(root, [n]), f.value)] else []
  {
    var fs := FieldsOf(d, toField);
    var k := IndexOfName(d, n);
    assert [] + [n] == [n];
    if k < 0 {
      EmitAbsent(root, [], fs, n);
    } else {
      assert DistinctNames(fs);
      EmitLookup(root, [], fs, k);
    }
  }

  /** Every append of a detail object sits under `root[...]`, one level down. */
  lemma DetailShape(root: string, d: Dict, toField: Prop -> Field)
    ensures forall j :: 0 <= j < |Emit(root, [], FieldsOf(d, toField))| ==>
      Emit(root, [], FieldsOf(d, toField))[j].path.root == root
      && Emit(root, [], FieldsOf(d, toField))[j].path.segs != []
  {
    EmitShape(root, [], FieldsOf(d, toField));
  }

  // ---------------------------------------------------------------------
  // Promo codes

  /** The row `addCodePromo` pushes: every field empty. */
  const NewPromo: Promo := map["code" := Str(""), "reduction" := Str(""), "valeur_remise" := Str(""), "date_expiration" := Str("")]

  /** `addCodePromo`: a new empty row goes last. */
  function PromoAdded(codes: seq<Promo>): (r: seq<Promo>)
    ensures |r| == |codes| + 1 && r[..|codes|] == codes
    ensures forall f :: f in {"code", "reduction", "valeur_remise", "date_expiration"} ==> Get(r[|codes|], f) == Str("")
    ensures r[|codes|].Keys == {"code", "reduction", "valeur_remise", "date_expiration"}
  {
    codes + [NewPromo]
  }

  /** Removing the row just added gives back the rows as they were. */
  lemma PromoAddThenRemove(codes: seq<Promo>)
    ensures WithoutIndex(PromoAdded(codes), |codes|) == codes
  {
    PushThenRemove(codes, NewPromo);
  }

  /** `handleCodePromoChange(idx, name, value)`: one field of one row changes. */
  function PromoFieldSet(codes: seq<Promo>, idx: nat, name: string, value: JsValue): (r: seq<Promo>)
    requires idx < |codes|
    ensures |r| == |codes|
    ensures Get(r[idx], name) == value
    ensures forall f :: f != name ==> Get(r[idx], f) == Get(codes[idx], f)
    ensures forall i :: 0 <= i < |codes| && i != idx ==> r[i] == codes[i]
  {
    codes[idx := codes[idx][name := value]]
  }

  /** The appends of one row: the code always, each other field only when truthy. */
  function PromoFields(cp: Promo): seq<Field>
  {
    [ Field("code", true, Get(cp, "code")),
      Field("reduction", Truthy(Get(cp, "reduction")), Get(cp, "reduction")),
      Field("valeur_remise", Truthy(Get(cp, "valeur_remise")), Get(cp, "valeur_remise")),
      Field("date_expiration", Truthy(Get(cp, "date_expiration")), Get(cp, "date_expiration")) ]
  }

  /** `codes_promo[i][...]`: the appends of row `i`. */
  function PromoEntries(i: nat, cp: Promo): seq<Entry>
  {
    Emit("codes_promo", [NatToString(i)], PromoFields(cp))
  }

  function PromoBlocks(codes: seq<Promo>): (bs: seq<seq<Entry>>)
    ensures |bs| == |codes| && forall i :: 0 <= i < |codes| ==> bs[i] == PromoEntries(i, codes[i])
  {
    seq(|codes|, i requires 0 <= i < |codes| => PromoEntries(i, codes[i]))
  }

  /** The appends of the promo-code `forEach`, row after row. */
  function PromosPayload(codes: seq<Promo>): seq<Entry>
  {
    Flatten(PromoBlocks(codes))
  }

  /** `codes_promo.forEach((cp, i) => ...)` */
  method PromosPass(codes: seq<Promo>) returns (appended: seq<Entry>)
    ensures appended == PromosPayload(codes)
  {
    appended := [];
    ghost var bs := PromoBlocks(codes);
    var i := 0;
    while i < |codes|
      invariant 0 <= i <= |codes|
      invariant appended == Flatten(bs[..i])
    {
      appended := appended + PromoEntries(i, codes[i]);
      FlattenSnoc(bs, i);
      i := i + 1;
    }
    assert bs[..i] == bs;
  }

  /** Every promo append sits under `codes_promo[i][...]`, `i` its row. */
  lemma PromoBlocksShape(codes: seq<Promo>)
    ensures var bs: seq<seq<Entry>> := PromoBlocks(codes);
      forall k, j :: 0 <= k < |bs| && 0 <= j < |bs[k]| ==>
        var q := bs[k][j].path;
        q.root == "codes_promo" && |q.segs| == 2 && q.segs[0] == NatToString(k)
  {
    var bs: seq<seq<Entry>> := PromoBlocks(codes);
    forall k, j | 0 <= k < |bs| && 0 <= j < |bs[k]|
      ensures var q := bs[k][j].path;
        q.root == "codes_promo" && |q.segs| == 2 && q.segs[0] == NatToString(k)
    {
      EmitShape("codes_promo", [NatToString(k)], PromoFields(codes[k]));
    }
  }

  /** `codes_promo[i][code]` path. */
  function PromoPath(i: nat, f: string): Path
  {
    Path("codes_promo", [NatToString(i), f])
  }

  /** Row `i` of the payload is the appends of row `i` of the form, and there is
      no row past the last. */
  lemma PromoRowLookup(codes: seq<Promo>, i: nat, f: string)
    ensures WithKey(PromosPayload(codes), PromoPath(i, f))
            == if i < |codes| then WithKey(PromoEntries(i, codes[i]), PromoPath(i, f)) else []
  {
    PromoBlocksShape(codes);
    TaggedLookup(PromoBlocks(codes), 0, PromoPath(i, f), i);
  }

  /** Field `k` of row `i` is sent exactly when that field's append is made. */
  lemma PromoPayloadField(codes: seq<Promo>, i: nat, k: nat)
    requires i < |codes| && k < 4
    ensures var fd := PromoFields(codes[i])[k];
      WithKey(PromosPayload(codes), PromoPath(i, fd.name))
        == if fd.sent then [Append(PromoPath(i, fd.name), fd.value)] else []
  {
    var fs := PromoFields(codes[i]);
    assert DistinctNames(fs);
    PromoRowLookup(codes, i, fs[k].name);
    EmitLookup("codes_promo", [NatToString(i)], fs, k);
    assert [NatToString(i)] + [fs[k].name] == [NatToString(i), fs[k].name];
  }

  /** Each row sends its code, even an empty one, and its reduction, discount
      value and expiry date only when they are filled in. */
  lemma PromoPayloadFields(codes: seq<Promo>, i: nat)
    requires i < |codes|
    ensures var cp := codes[i];
      var e := PromosPayload(codes);
      && WithKey(e, PromoPath(i, "code")) == [Append(PromoPath(i, "code"), Get(cp, "code"))]
      && WithKey(e, PromoPath(i, "reduction"))
         == (if Truthy(Get(cp, "reduction")) then [Append(PromoPath(i, "reduction"), Get(cp, "reduction"))] else [])
      && WithKey(e, PromoPath(i, "valeur_remise"))
         == (if Truthy(Get(cp, "valeur_remise")) then [Append(PromoPath(i, "valeur_remise"), Get(cp, "valeur_remise"))] else [])
      && WithKey(e, PromoPath(i, "date_expiration"))
         == (if Truthy(Get(cp, "date_expiration")) then [Append(PromoPath(i, "date_expiration"), Get(cp, "date_expiration"))] else [])
  {
    PromoPayloadField(codes, i, 0);
    PromoPayloadField(codes, i, 1);
    PromoPayloadField(codes, i, 2);
    PromoPayloadField(codes, i, 3);
  }

  /** A row the user just added sends only its empty code. */
  lemma NewPromoSendsOnlyCode(codes: seq<Promo>)
    ensures var e := PromosPayload(PromoAdded(codes));
      var i := |codes|;
      && WithKey(e, PromoPath(i, "code")) == [Append(PromoPath(i, "code"), Str(""))]
      && WithKey(e, PromoPath(i, "reduction")) == []
      && WithKey(e, PromoPath(i, "valeur_remise")) == []
      && WithKey(e, PromoPath(i, "date_expiration")) == []
  {
    PromoPayloadFields(PromoAdded(codes), |codes|);
  }

  // ---------------------------------------------------------------------
  // Categories grouped by type

  /** A category as fetched; `typeSlug` stands for `cat.type?.slug` (Undefined without a type). */
  datatype Category = Category(id: JsValue, nom: JsValue, typeId: JsValue, typeSlug: JsValue)

  /** What the grouping pushes: `{ id, nom, type_id }`. */
  datatype CategoryOption = CategoryOption(id: JsValue, nom: JsValue, typeId: JsValue)

  function OptionOf(c: Category): CategoryOption
  {
    CategoryOption(c.id, c.nom, c.typeId)
  }

  /** `cat.type?.slug || "autre"`, as a property name. */
  function CategoryKey(c: Category): (k: string)
    ensures !Truthy(c.typeSlug) ==> k == "autre"
    ensures Truthy(c.typeSlug) ==> k == ToText(c.typeSlug)
  {
    ToText(Or(c.typeSlug, Str("autre")))
  }

  /** The categories `forEach` that fills `grouped`. */
  method GroupCategories(cats: seq<Category>) returns (grouped: seq<Group<string, CategoryOption>>)
    ensures IsGrouping(grouped, cats, CategoryKey, OptionOf)
  {
    grouped := GroupInto(cats, CategoryKey, OptionOf);
  }

  /** `selectedType && categories[selectedType.value]`: the categories the
      category select offers, none before a type is chosen. */
  function CategoriesOffered(grouped: seq<Group<string, CategoryOption>>, sel: Option<TypeOption>): seq<CategoryOption>
  {
    if sel.None? then []
    else
      var g := IndexOfKey(grouped, ToText(sel.value.value));
      if g < 0 then [] else grouped[g].items
  }

  /** Once a type is chosen, the select offers exactly the categories of that
      type, in the order they were fetched; before, it offers none. */
  lemma OfferedAreOfSelectedType(cats: seq<Category>, sel: Option<TypeOption>)
    ensures var offered := CategoriesOffered(Grouped(cats, CategoryKey, OptionOf), sel);
      && (sel.None? ==> offered == [])
      && (sel.Some? ==> offered == Matching(cats, CategoryKey, OptionOf, ToText(sel.value.value)))
  {
    GroupedIsGrouping(cats, CategoryKey, OptionOf);
  }

  /** Each category is offered under one type only: the slug of its own type, or "autre". */
  lemma EachCategoryUnderItsType(cats: seq<Category>, i: nat)
    requires i < |cats|
    ensures var gs := Grouped(cats, CategoryKey, OptionOf);
      var g := IndexOfKey(gs, CategoryKey(cats[i]));
      0 <= g && OptionOf(cats[i]) in gs[g].items
      && forall h :: 0 <= h < |gs| && h != g ==> gs[h].key != CategoryKey(cats[i])
  {
    EachItemInOneGroup(cats, CategoryKey, OptionOf);
  }
}
