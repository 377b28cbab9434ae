/** The product edition form: price inputs shown with thousands separators
    and read back without them, stored images the user removes remembered for
    deletion, and the multipart payload the update sends. Loading the product
    is outside the model: the editor starts from the loaded product and type. */
module ProductUpdate {
  import opened Js
  import opened ImageUpload
  import opened ProductForm

  // ---------------------------------------------------------------------
  // Thousands separators

  /** `\w`: ASCII letters, digits and `_`. */
  predicate IsWordChar(c: char)
  {
    'a' <= c <= 'z' || 'A' <= c <= 'Z' || IsDigit(c) || c == '_'
  }

  /** How many digits follow position `p`. */
  function DigitRun(s: string, p: nat): (n: nat)
    requires p <= |s|
    ensures p + n <= |s|
    ensures forall j :: p <= j < p + n ==> IsDigit(s[j])
    ensures p + n < |s| ==> !IsDigit(s[p + n])
    decreases |s| - p
  {
    if p < |s| && IsDigit(s[p]) then 1 + DigitRun(s, p + 1) else 0
  }

  /** `\B(?=(\d{3})+(?!\d))` matches at position `p`: `p` is not a word boundary
      and the digits from `p` on come in whole groups of three up to the end of
      their run. Since `s[p]` is then a digit, not being a boundary means
      `s[p - 1]` is a word character. */
  predicate SpaceBefore(s: string, p: nat)
    requires p <= |s|
  {
    0 < p && IsWordChar(s[p - 1]) && DigitRun(s, p) > 0 && DigitRun(s, p) % 3 == 0
  }

  function FormatFrom(s: string, p: nat): string
    requires p <= |s|
    decreases |s| - p
  {
    if p == |s| then "" else (if SpaceBefore(s, p) then " " else "") + [s[p]] + FormatFrom(s, p + 1)
  }

  /** `formatNumberWithSpaces` on the text of the value: a space at every
      position the pattern matches in the original text. */
  function Format(s: string): string
  {
    FormatFrom(s, 0)
  }

  /** `unformatNumber`: `value.replace(/\s/g, "")`. */
  function Unformat(t: string): (r: string)
    ensures NoSpace(r) && |r| <= |t|
    decreases |t|
  {
    if t == [] then [] else (if IsSpace(t[0]) then [] else [t[0]]) + Unformat(t[1..])
  }

  lemma {:induction false} UnformatAppend(a: string, b: string)
    ensures Unformat(a + b) == Unformat(a) + Unformat(b)
    decreases |a|
  {
    if a != [] {
      assert (a + b)[0] == a[0] && (a + b)[1..] == a[1..] + b;
      UnformatAppend(a[1..], b);
    } else {
      assert a + b == b;
    }
  }

  lemma {:induction false} UnformatFormatFrom(s: string, p: nat)
    requires NoSpace(s) && p <= |s|
    ensures Unformat(FormatFrom(s, p)) == s[p..]
    decreases |s| - p
  {
    if p < |s| {
      var sep: string := if SpaceBefore(s, p) then " " else "";
      UnformatFormatFrom(s, p + 1);
      UnformatAppend(sep + [s[p]], FormatFrom(s, p + 1));
      UnformatSeparated(sep, s[p]);
      assert s[p..] == [s[p]] + s[p + 1..];
    }
  }

  lemma UnformatSeparated(sep: string, c: char)
    requires sep == " " || sep == ""
    requires !IsSpace(c)
    ensures Unformat(sep + [c]) == [c]
  {
    UnformatAppend(sep, [c]);
    assert Unformat(sep) == [];
    assert Unformat([c]) == [c];
  }

  /** Removing the separators gives back the text that was formatted. */
  lemma UnformatFormat(s: string)
    requires NoSpace(s)
    ensures Unformat(Format(s)) == s
  {
    UnformatFormatFrom(s, 0);
  }

  /** In a string of digits the separators group the digits by three from the
      right: a space goes before position `p` exactly when a positive multiple
      of three digits follows. */
  lemma DigitsGroupedByThousands(s: string, p: nat)
    requires AllDigits(s) && p <= |s|
    ensures SpaceBefore(s, p) <==> 0 < p < |s| && (|s| - p) % 3 == 0
  {
    var n := DigitRun(s, p);
    assert n == |s| - p;
  }

  lemma DigitsHaveNoSpace(s: string)
    requires AllDigits(s)
    ensures NoSpace(s)
  {
  }

  // ---------------------------------------------------------------------
  // The main fields

  predicate IsPriceField(name: string)
  {
    name == "prix" || name == "prix_promo"
  }

  /** `handleChange(e)`: a checkbox stores `checked`; a price stores its text
      without separators, and nothing changes when that text is not made of
      digits only (`/^\d*$/`); any other field stores its text. */
  function FieldChanged(p: Product, e: InputEvent): (r: Product)
    ensures !e.isCheckbox && IsPriceField(e.name) && !AllDigits(Unformat(e.value)) ==> r == p
    ensures !e.isCheckbox && IsPriceField(e.name) && AllDigits(Unformat(e.value)) ==>
              Get(r.fields, e.name) == Str(Unformat(e.value))
    ensures e.isCheckbox ==> Get(r.fields, e.name) == Bool(e.checked)
    ensures !e.isCheckbox && !IsPriceField(e.name) ==> Get(r.fields, e.name) == Str(e.value)
    ensures forall f :: f != e.name ==> Get(r.fields, f) == Get(p.fields, f)
    ensures r.images == p.images && r.piece == p.piece && r.vehicule == p.vehicule && r.codesPromo == p.codesPromo
  {
    if e.isCheckbox then FieldSet(p, e.name, Bool(e.checked))
    else if IsPriceField(e.name) then
      var raw := Unformat(e.value);
      if !AllDigits(raw) then p else FieldSet(p, e.name, Str(raw))
    else FieldSet(p, e.name, Str(e.value))
  }

  /** What a price input shows: `formatNumberWithSpaces(product.prix || "")`. */
  function Displayed(v: JsValue): string
  {
    Format(ToText(Or(v, Str(""))))
  }

  /** Both prices hold digit strings, the empty one included. */
  predicate PricesAreDigits(p: Product)
  {
    && Get(p.fields, "prix").Str? && AllDigits(Get(p.fields, "prix").s)
    && Get(p.fields, "prix_promo").Str? && AllDigits(Get(p.fields, "prix_promo").s)
  }

  /** Typing in the text inputs never puts anything but digits in a price. */
  lemma PricesStayDigits(p: Product, e: InputEvent)
    requires PricesAreDigits(p) && !(e.isCheckbox && IsPriceField(e.name))
    ensures PricesAreDigits(FieldChanged(p, e))
  {
  }

  /** Typing back what a price input shows stores the digits already there:
      formatting for display and reading the input back are inverse. */
  lemma PriceRoundTrip(p: Product, name: string, d: string)
    requires IsPriceField(name) && Get(p.fields, name) == Str(d) && AllDigits(d)
    ensures FieldChanged(p, InputEvent(name, Displayed(Str(d)), false, false)) == FieldSet(p, name, Str(d))
  {
    DigitsHaveNoSpace(d);
    UnformatFormat(d);
  }

  /** A price loaded as a number shows as its digits, and typing that back
      stores the digits as text; a zero price shows empty and stores "". */
  lemma LoadedPriceRoundTrip(p: Product, name: string, n: nat)
    requires IsPriceField(name) && Get(p.fields, name) == Num(n)
    ensures FieldChanged(p, InputEvent(name, Displayed(Num(n)), false, false))
            == FieldSet(p, name, Str(if n == 0 then "" else NatToString(n)))
  {
    var d := if n == 0 then "" else NatToString(n);
    assert ToText(Or(Num(n), Str(""))) == d;
    DigitsHaveNoSpace(d);
    UnformatFormat(d);
  }

  // ---------------------------------------------------------------------
  // Dates of the vehicle details

  /** `dateStr.split("T")[0]`: the text before the first "T". */
  function BeforeT(s: string): (r: string)
    ensures r <= s && 'T' !in r
    ensures |r| < |s| ==> s[|r|] == 'T'
    decreases |s|
  {
    if s == [] || s[0] == 'T' then [] else [s[0]] + BeforeT(s[1..])
  }

  /** `formatDate(dateStr)` on a string: "" for the empty string, otherwise the
      date part of an ISO timestamp; a text without "T" is kept whole. */
  function FormatDate(s: string): (r: string)
    ensures r <= s && 'T' !in r
    ensures 'T' !in s ==> r == s
    ensures 'T' in s ==> s[|r|] == 'T'
  {
    if s == "" then "" else BeforeT(s)
  }

  /** Formatting a formatted date changes nothing. */
  lemma FormatDateIdempotent(s: string)
    ensures FormatDate(FormatDate(s)) == FormatDate(s)
  {
  }

  // ---------------------------------------------------------------------
  // Images removed from the list

  /** `removed`: the stored paths of the old list that the new list no longer
      holds and that are not yet marked for deletion, in list order. */
  function Removed(prev: seq<Image>, next: seq<Image>, deleted: seq<string>): (r: seq<string>)
    ensures forall x :: x in r <==> Stored(x) in prev && Stored(x) !in next && x !in deleted
    decreases |prev|
  {
    if prev == [] then []
    else
      var n := |prev| - 1;
      var img := prev[n];
      assert forall x :: Stored(x) in prev <==> Stored(x) in prev[..n] || img == Stored(x) by {
        assert prev == prev[..n] + [img];
      }
      Removed(prev[..n], next, deleted)
      + (if img.Stored? && img !in next && img.path !in deleted then [img.path] else [])
  }

  /** The test `removed` applies to a stored path. */
  function Unkept(next: seq<Image>, deleted: seq<string>): string -> bool
  {
    (x: string) => Stored(x) !in next && x !in deleted
  }

  /** `removed` lists the stored paths of the old list that pass the test, in
      list order and as often as they are listed: so `deleted_images[]` follows
      the old list's order. */
  lemma {:induction false} RemovedInOrder(prev: seq<Image>, next: seq<Image>, deleted: seq<string>)
    ensures Removed(prev, next, deleted) == Filter(StoredPaths(prev), Unkept(next, deleted))
    ensures IsSubsequence(Removed(prev, next, deleted), StoredPaths(prev))
    decreases |prev|
  {
    if prev != [] {
      var n := |prev| - 1;
      var img := prev[n];
      assert prev == prev[..n] + [img];
      RemovedInOrder(prev[..n], next, deleted);
      StoredAppend(prev[..n], [img]);
      FilterAppend(StoredPaths(prev[..n]), StoredPaths([img]), Unkept(next, deleted));
    }
  }

  /** After a change of the list, every stored image of the old list is either
      still listed or marked for deletion, and only stored images get marked. */
  lemma NoStoredImageLost(prev: seq<Image>, next: seq<Image>, deleted: seq<string>)
    ensures var marked := deleted + Removed(prev, next, deleted);
      && (forall x :: Stored(x) in prev ==> Stored(x) in next || x in marked)
      && (forall x :: x in marked && x !in deleted ==> Stored(x) in prev)
  {
  }

  /** Removing a stored image that is listed once marks its path for deletion. */
  lemma RemoveStoredMarksIt(images: seq<Image>, index: nat, deleted: seq<string>)
    requires index < |images| && images[index].Stored?
    requires forall j :: 0 <= j < |images| && j != index ==> images[j] != images[index]
    ensures images[index].path in deleted + Removed(images, ImageRemoved(images, index), deleted)
  {
    var next := ImageRemoved(images, index);
    forall j | 0 <= j < |next|
      ensures next[j] != images[index]
    {
      if j >= index {
        assert next[j] == images[j + 1];
      }
    }
  }

  // ---------------------------------------------------------------------
  // The payload

  /** The top-level appends, in order: `type_id` and `categorie_id` are not sent. */
  function HeadFields(p: Product): seq<Field>
  {
    LeadFields(p) + [Field("prix_promo", Truthy(Get(p.fields, "prix_promo")), Get(p.fields, "prix_promo"))] + TailFields(p)
  }

  /** The appends before the promotional price, all made. */
  function LeadFields(p: Product): seq<Field>
  {
    var f := p.fields;
    [ Field("libelle", true, Get(f, "libelle")),
      Field("marque", true, Get(f, "marque")),
      Field("modele", true, Get(f, "modele")),
      Field("quantite", true, Get(f, "quantite")),
      Field("prix", true, Get(f, "prix")) ]
  }

  /** The appends after the promotional price, both made. */
  function TailFields(p: Product): seq<Field>
  {
    var f := p.fields;
    [ Field("description", true, Or(Get(f, "description"), Str(""))),
      Field("actif", true, Flag(Get(f, "actif"))) ]
  }

  const NewImagePath: Path := Path("images", [""])
  const ExistingImagePath: Path := Path("existing_images", [""])
  const DeletedImagePath: Path := Path("deleted_images", [""])

  /** The new files of the list, in order. */
  function Uploads(images: seq<Image>): (r: seq<File>)
    ensures forall f :: f in r <==> Upload(f) in images
    decreases |images|
  {
    if images == [] then []
    else
      assert images == [images[0]] + images[1..];
      (if images[0].Upload? then [images[0].file] else []) + Uploads(images[1..])
  }

  /** The stored paths of the list, in order. */
  function StoredPaths(images: seq<Image>): (r: seq<string>)
    ensures forall x :: x in r <==> Stored(x) in images
    decreases |images|
  {
    if images == [] then []
    else
      assert images == [images[0]] + images[1..];
      (if images[0].Stored? then [images[0].path] else []) + StoredPaths(images[1..])
  }

  /** Each image goes either to `images[]` or to `existing_images[]`. */
  lemma {:induction false} EachImageSentOnce(images: seq<Image>)
    ensures |Uploads(images)| + |StoredPaths(images)| == |images|
    decreases |images|
  {
    if images != [] {
      EachImageSentOnce(images[1..]);
    }
  }

  /** `images[]`: one append per new file. */
  function UploadEntries(images: seq<Image>): seq<Entry>
  {
    var fs := Uploads(images);
    seq(|fs|, k requires 0 <= k < |fs| => Append(NewImagePath, FileVal(fs[k])))
  }

  /** `existing_images[]`: one append per stored path. */
  function ExistingEntries(images: seq<Image>): seq<Entry>
  {
    var ps := StoredPaths(images);
    seq(|ps|, k requires 0 <= k < |ps| => Append(ExistingImagePath, Str(ps[k])))
  }

  /** `deleted_images[]`: one append per path marked for deletion. */
  function DeletedEntries(deleted: seq<string>): seq<Entry>
  {
    seq(|deleted|, k requires 0 <= k < |deleted| => Append(DeletedImagePath, Str(deleted[k])))
  }

  /** The guard of the spare-part loop as written, `v !== "" || v !== null || v !== undefined`. */
  predicate PieceGuard(v: JsValue)
  {
    v != Str("") || v != Null || v != Undefined
  }

  /** The guard holds of every value: every spare-part property is sent. */
  lemma PieceGuardAlwaysHolds(v: JsValue)
    ensures PieceGuard(v)
  {
  }

  function PieceField(pr: Prop): Field
  {
    Field(pr.name, PieceGuard(pr.value), pr.value)
  }

  /** A boolean goes as "1" or "0", an array as its items joined with ",". */
  function VehiculeValue(v: JsValue): JsValue
  {
    match v
    case Bool(b) => Str(if b then "1" else "0")
    case List(xs) => Str(Join(xs, ","))
    case _ => v
  }

  /** A vehicle property is sent unless it is "", null or undefined. */
  function VehiculeField(pr: Prop): Field
  {
    Field(pr.name, !Blank(pr.value), VehiculeValue(pr.value))
  }

  function PieceEntries(sel: Option<TypeOption>, d: Dict): seq<Entry>
  {
    if SelectedIs(sel, "piece") then Emit("piece", [], FieldsOf(d, PieceField)) else []
  }

  function VehiculeEntries(sel: Option<TypeOption>, d: Dict): seq<Entry>
  {
    if SelectedIs(sel, "vehicule") then Emit("vehicule", [], FieldsOf(d, VehiculeField)) else []
  }

  /** The bracketed appends, one part per loop, each under its own root. */
  function Parts(p: Product, sel: Option<TypeOption>, deleted: seq<string>): seq<seq<Entry>>
  {
    [ UploadEntries(p.images), ExistingEntries(p.images), DeletedEntries(deleted),
      PieceEntries(sel, p.piece), VehiculeEntries(sel, p.vehicule), PromosPayload(p.codesPromo) ]
  }

  const Roots: seq<string> := ["images", "existing_images", "deleted_images", "piece", "vehicule", "codes_promo"]

  /** What `handleSubmit` puts in the `FormData`, in order. */
  function Payload(p: Product, sel: Option<TypeOption>, deleted: seq<string>): seq<Entry>
  {
    EmitNamed(HeadFields(p)) + Flatten(Parts(p, sel, deleted))
  }

  /** Every bracketed append sits under the root of its part. */
  lemma PartsShape(p: Product, sel: Option<TypeOption>, deleted: seq<string>)
    ensures var ps: seq<seq<Entry>> := Parts(p, sel, deleted);
      |ps| == |Roots|
      && forall k, j :: 0 <= k < |ps| && 0 <= j < |ps[k]| ==>
           ps[k][j].path.root == Roots[k] && ps[k][j].path.segs != []
  {
    var ps: seq<seq<Entry>> := Parts(p, sel, deleted);
    DetailShape("piece", p.piece, PieceField);
    DetailShape("vehicule", p.vehicule, VehiculeField);
    PromoBlocksShape(p.codesPromo);
    FlattenAll(PromoBlocks(p.codesPromo), (e: Entry) => e.path.root == "codes_promo" && e.path.segs != []);
    forall k, j | 0 <= k < |ps| && 0 <= j < |ps[k]|
      ensures ps[k][j].path.root == Roots[k] && ps[k][j].path.segs != []
    {
      if k == 5 {
        assert ps[k] == Flatten(PromoBlocks(p.codesPromo));
      }
    }
  }

  /** A bracketed key under root `Roots[m]` is looked up in part `m` alone. */
  lemma PartLookup(p: Product, sel: Option<TypeOption>, deleted: seq<string>, t: Path, m: nat)
    requires m < |Roots| && t.root == Roots[m] && t.segs != []
    ensures WithKey(Payload(p, sel, deleted), t) == WithKey(Parts(p, sel, deleted)[m], t)
  {
    PartsShape(p, sel, deleted);
    AssembledPartLookup(HeadFields(p), Parts(p, sel, deleted), Roots, t, m);
  }

  /** Top-level field `k` is sent exactly when its append is made. */
  lemma HeadFieldSent(p: Product, sel: Option<TypeOption>, deleted: seq<string>, k: nat)
    requires k < |HeadFields(p)|
    ensures var fd := HeadFields(p)[k];
      WithKey(Payload(p, sel, deleted), Named(fd.name)) == if fd.sent then [Append(Named(fd.name), fd.value)] else []
  {
    PartsShape(p, sel, deleted);
    HeadFieldsDistinct(p);
    AssembledHeadLookup(HeadFields(p), Parts(p, sel, deleted), k);
  }

  lemma HeadFieldsDistinct(p: Product)
    ensures DistinctNames(HeadFields(p))
  {
  }

  /** Where each top-level field sits among the appends. */
  lemma HeadLayout(p: Product)
    ensures var h := HeadFields(p);
      var f := p.fields;
      && |h| == 8
      && h[0] == Field("libelle", true, Get(f, "libelle"))
      && h[4] == Field("prix", true, Get(f, "prix"))
      && h[5] == Field("prix_promo", Truthy(Get(f, "prix_promo")), Get(f, "prix_promo"))
      && h[6] == Field("description", true, Or(Get(f, "description"), Str("")))
      && h[7] == Field("actif", true, Flag(Get(f, "actif")))
      && forall m :: 0 <= m < |h| ==> h[m].name != "type_id" && h[m].name != "categorie_id"
  {
  }

  /** The update sends the label and the price as they are. */
  lemma PayloadLabelAndPrice(p: Product, sel: Option<TypeOption>, deleted: seq<string>)
    ensures var e := Payload(p, sel, deleted);
      && WithKey(e, Named("libelle")) == [Append(Named("libelle"), Get(p.fields, "libelle"))]
      && WithKey(e, Named("prix")) == [Append(Named("prix"), Get(p.fields, "prix"))]
  {
    HeadLayout(p);
    HeadFieldSent(p, sel, deleted, 0);
    HeadFieldSent(p, sel, deleted, 4);
  }

  /** The promotional price is sent only when it is set. */
  lemma PayloadPromoPrice(p: Product, sel: Option<TypeOption>, deleted: seq<string>)
    ensures var v := Get(p.fields, "prix_promo");
      WithKey(Payload(p, sel, deleted), Named("prix_promo")) == if Truthy(v) then [Append(Named("prix_promo"), v)] else []
  {
    HeadLayout(p);
    HeadFieldSent(p, sel, deleted, 5);
  }

  /** The description defaults to "", and `actif` goes as 1 or 0. */
  lemma PayloadDescriptionAndActif(p: Product, sel: Option<TypeOption>, deleted: seq<string>)
    ensures var e := Payload(p, sel, deleted);
      && WithKey(e, Named("description")) == [Append(Named("description"), Or(Get(p.fields, "description"), Str("")))]
      && WithKey(e, Named("actif")) == [Append(Named("actif"), Flag(Get(p.fields, "actif")))]
  {
    HeadLayout(p);
    HeadFieldSent(p, sel, deleted, 6);
    HeadFieldSent(p, sel, deleted, 7);
  }

  /** The update never sends the type or the category. */
  lemma PayloadNeverTypeOrCategory(p: Product, sel: Option<TypeOption>, deleted: seq<string>)
    ensures var e := Payload(p, sel, deleted);
      WithKey(e, Named("type_id")) == [] && WithKey(e, Named("categorie_id")) == []
  {
    HeadLayout(p);
    PartsShape(p, sel, deleted);
    AssembledHeadAbsent(HeadFields(p), Parts(p, sel, deleted), "type_id");
    AssembledHeadAbsent(HeadFields(p), Parts(p, sel, deleted), "categorie_id");
  }

  /** New files go under `images[]`. */
  lemma PayloadUploads(p: Product, sel: Option<TypeOption>, deleted: seq<string>)
    ensures WithKey(Payload(p, sel, deleted), NewImagePath) == UploadEntries(p.images)
  {
    PartLookup(p, sel, deleted, NewImagePath, 0);
    WithKeyAll(UploadEntries(p.images), NewImagePath);
  }

  /** Stored paths go under `existing_images[]`, in list order. */
  lemma PayloadExisting(p: Product, sel: Option<TypeOption>, deleted: seq<string>)
    ensures WithKey(Payload(p, sel, deleted), ExistingImagePath) == ExistingEntries(p.images)
  {
    PartLookup(p, sel, deleted, ExistingImagePath, 1);
    WithKeyAll(ExistingEntries(p.images), ExistingImagePath);
  }

  /** The paths marked for deletion go under `deleted_images[]`, in order. */
  lemma PayloadDeleted(p: Product, sel: Option<TypeOption>, deleted: seq<string>)
    ensures WithKey(Payload(p, sel, deleted), DeletedImagePath) == DeletedEntries(deleted)
  {
    PartLookup(p, sel, deleted, DeletedImagePath, 2);
    WithKeyAll(DeletedEntries(deleted), DeletedImagePath);
  }

  /** With the spare-part type selected, every property of `piece` is sent,
      the empty ones included; otherwise none is. */
  lemma PayloadPiece(p: Product, sel: Option<TypeOption>, deleted: seq<string>, n: string)
    requires UniqueNames(p.piece)
    ensures WithKey(Payload(p, sel, deleted), Path("piece", [n]))
            == if SelectedIs(sel, "piece") && IndexOfName(p.piece, n) >= 0
               then [Append(Path("piece", [n]), Lookup(p.piece, n))] else []
  {
    PartLookup(p, sel, deleted, Path("piece", [n]), 3);
    if SelectedIs(sel, "piece") {
      DetailLookup("piece", p.piece, PieceField, n);
    }
  }

  /** With the vehicle type selected, a vehicle property is sent unless it is
      "", null or undefined, booleans as "1"/"0" and arrays joined with ",";
      otherwise none is. */
  lemma PayloadVehicule(p: Product, sel: Option<TypeOption>, deleted: seq<string>, n: string)
    requires UniqueNames(p.vehicule)
    ensures var v := Lookup(p.vehicule, n);
      WithKey(Payload(p, sel, deleted), Path("vehicule", [n]))
        == if SelectedIs(sel, "vehicule") && IndexOfName(p.vehicule, n) >= 0 && !Blank(v)
           then [Append(Path("vehicule", [n]), VehiculeValue(v))] else []
  {
    PartLookup(p, sel, deleted, Path("vehicule", [n]), 4);
    if SelectedIs(sel, "vehicule") {
      DetailLookup("vehicule", p.vehicule, VehiculeField, n);
    }
  }

  /** The promo-code keys carry exactly the appends of the promo-code rows. */
  lemma PayloadPromos(p: Product, sel: Option<TypeOption>, deleted: seq<string>, i: nat, f: string)
    ensures WithKey(Payload(p, sel, deleted), PromoPath(i, f)) == WithKey(PromosPayload(p.codesPromo), PromoPath(i, f))
  {
    PartLookup(p, sel, deleted, PromoPath(i, f), 5);
  }

  /** After a change of type no detail is sent until one is filled in again. */
  lemma TypeChangeClearsDetails(p: Product, option: Option<TypeOption>, deleted: seq<string>, n: string)
    ensures var e := Payload(TypeChanged(p, option), option, deleted);
      WithKey(e, Path("piece", [n])) == [] && WithKey(e, Path("vehicule", [n])) == []
  {
    PayloadPiece(TypeChanged(p, option), option, deleted, n);
    PayloadVehicule(TypeChanged(p, option), option, deleted, n);
  }

  /** A vehicle detail the user fills in is what the next submission sends under its name. */
  lemma DetailChangeThenSubmit(p: Product, sel: Option<TypeOption>, deleted: seq<string>, n: string, v: JsValue)
    requires UniqueNames(p.vehicule) && SelectedIs(sel, "vehicule") && !Blank(v)
    ensures WithKey(Payload(DetailChanged(p, VehiculeDetail, n, v), sel, deleted), Path("vehicule", [n]))
            == [Append(Path("vehicule", [n]), VehiculeValue(v))]
  {
    var q := DetailChanged(p, VehiculeDetail, n, v);
    PayloadVehicule(q, sel, deleted, n);
    assert IndexOfName(q.vehicule, n) >= 0;
  }

  // ---------------------------------------------------------------------
  // The form's state

  class ProductEditor {
    var product: Product
    var selectedType: Option<TypeOption>
    var deletedImages: seq<string>

    /** Each detail object holds each property once. */
    predicate Valid()
      reads this
    {
      UniqueNames(product.piece) && UniqueNames(product.vehicule)
    }

    /** The form once the product and its type are loaded; nothing is marked for deletion yet. */
    constructor (loaded: Product, sel: Option<TypeOption>)
      requires UniqueNames(loaded.piece) && UniqueNames(loaded.vehicule)
      ensures Valid()
      ensures product == loaded && selectedType == sel && deletedImages == []
    {
      product := loaded;
      selectedType := sel;
      deletedImages := [];
    }

    /** `handleTypeChange(option)` */
    method HandleTypeChange(option: Option<TypeOption>)
      requires Valid()
      modifies this
      ensures Valid()
      ensures selectedType == option && product == TypeChanged(old(product), option)
      ensures deletedImages == old(deletedImages)
    {
      selectedType := option;
      product := TypeChanged(product, option);
    }

    /** `handleChange(e)` */
    method HandleChange(e: InputEvent)
      requires Valid()
      modifies this
      ensures Valid()
      ensures product == FieldChanged(old(product), e)
      ensures selectedType == old(selectedType) && deletedImages == old(deletedImages)
    {
      if e.isCheckbox {
        product := product.(fields := product.fields[e.name := Bool(e.checked)]);
      } else if e.name == "prix" || e.name == "prix_promo" {
        var raw := Unformat(e.value);
        if !AllDigits(raw) {
          return;
        }
        product := product.(fields := product.fields[e.name := Str(raw)]);
      } else {
        product := product.(fields := product.fields[e.name := Str(e.value)]);
      }
    }

    /** `handleDetailChange(section, name, value)` */
    method HandleDetailChange(section: Detail, name: string, value: JsValue)
      requires Valid()
      modifies this
      ensures Valid()
      ensures product == DetailChanged(old(product), section, name, value)
      ensures selectedType == old(selectedType) && deletedImages == old(deletedImages)
    {
      product := DetailChanged(product, section, name, value);
    }

    /** `addCodePromo()` */
    method AddCodePromo()
      requires Valid()
      modifies this
      ensures Valid()
      ensures product == old(product).(codesPromo := PromoAdded(old(product.codesPromo)))
      ensures selectedType == old(selectedType) && deletedImages == old(deletedImages)
    {
      product := product.(codesPromo := product.codesPromo + [NewPromo]);
    }

    /** `removeCodePromo(idx)` */
    method RemoveCodePromo(idx: int)
      requires Valid()
      modifies this
      ensures Valid()
      ensures product == old(product).(codesPromo := WithoutIndex(old(product.codesPromo), idx))
      ensures selectedType == old(selectedType) && deletedImages == old(deletedImages)
    {
      product := product.(codesPromo := WithoutIndex(product.codesPromo, idx));
    }

    /** `handleCodePromoChange(idx, name, value)`, for a row on screen. */
    method HandleCodePromoChange(idx: nat, name: string, value: JsValue)
      requires Valid() && idx < |product.codesPromo|
      modifies this
      ensures Valid()
      ensures product == old(product).(codesPromo := PromoFieldSet(old(product.codesPromo), idx, name, value))
      ensures selectedType == old(selectedType) && deletedImages == old(deletedImages)
    {
      var codes := product.codesPromo;
      codes := codes[idx := codes[idx][name := value]];
      product := product.(codesPromo := codes);
    }

    /** `handleImagesChange(updater)`, given the list the updater returns. */
    method HandleImagesChange(newImages: seq<Image>)
      requires Valid()
      modifies this
      ensures Valid()
      ensures product == old(product).(images := newImages)
      ensures deletedImages == old(deletedImages) + Removed(old(product.images), newImages, old(deletedImages))
      ensures selectedType == old(selectedType)
    {
      var prev := product.images;
      var removed: seq<string> := [];
      var i := 0;
      while i < |prev|
        invariant 0 <= i <= |prev|
        invariant removed == Removed(prev[..i], newImages, deletedImages)
      {
        var img := prev[i];
        assert prev[..i + 1][..i] == prev[..i];
        if img.Stored? && img !in newImages && img.path !in deletedImages {
          removed := removed + [img.path];
        }
        i := i + 1;
      }
      assert prev[..i] == prev;
      if |removed| > 0 {
        deletedImages := deletedImages + removed;
      }
      product := product.(images := newImages);
    }

    /** The `FormData` `handleSubmit` builds and sends. */
    method BuildPayload() returns (formData: seq<Entry>)
      ensures formData == Payload(product, selectedType, deletedImages)
    {
      formData := HeadPass(product);
      var body := BodyPass(product, selectedType, deletedImages);
      formData := formData + body;
    }
  }

  /** The top-level appends of `handleSubmit`. */
  method HeadPass(p: Product) returns (formData: seq<Entry>)
    ensures formData == EmitNamed(HeadFields(p))
  {
    var f := p.fields;
    formData := LeadPass(p);
    if Truthy(Get(f, "prix_promo")) {
      formData := formData + [Append(Named("prix_promo"), Get(f, "prix_promo"))];
    }
    formData := formData + [Append(Named("description"), Or(Get(f, "description"), Str("")))];
    formData := formData + [Append(Named("actif"), Flag(Get(f, "actif")))];
    HeadEntries(p);
  }

  /** The appends before the promotional price. */
  method LeadPass(p: Product) returns (formData: seq<Entry>)
    ensures formData == EmitNamed(LeadFields(p))
  {
    var f := p.fields;
    formData := [Append(Named("libelle"), Get(f, "libelle"))];
    formData := formData + [Append(Named("marque"), Get(f, "marque"))];
    formData := formData + [Append(Named("modele"), Get(f, "modele"))];
    formData := formData + [Append(Named("quantite"), Get(f, "quantite"))];
    formData := formData + [Append(Named("prix"), Get(f, "prix"))];
    LeadEntries(p);
  }

  /** The loops of `handleSubmit`, one after the other. */
  method BodyPass(p: Product, sel: Option<TypeOption>, deletedImages: seq<string>) returns (body: seq<Entry>)
    ensures body == Flatten(Parts(p, sel, deletedImages))
  {
    var uploads := UploadsPass(p.images);
    var existing := ExistingPass(p.images);
    var deleted := DeletedPass(deletedImages);
    var piece: seq<Entry> := [];
    if SelectedIs(sel, "piece") {
      piece := DetailPass("piece", p.piece, PieceField);
    }
    var vehicule: seq<Entry> := [];
    if SelectedIs(sel, "vehicule") {
      vehicule := DetailPass("vehicule", p.vehicule, VehiculeField);
    }
    var promos := PromosPass(p.codesPromo);
    BodyParts(Parts(p, sel, deletedImages));
    body := uploads + existing + deleted + piece + vehicule + promos;
  }

  lemma LeadEntries(p: Product)
    ensures var f := p.fields;
      EmitNamed(LeadFields(p))
        == [ Append(Named("libelle"), Get(f, "libelle")),
             Append(Named("marque"), Get(f, "marque")),
             Append(Named("modele"), Get(f, "modele")),
             Append(Named("quantite"), Get(f, "quantite")),
             Append(Named("prix"), Get(f, "prix")) ]
  {
    var fs := LeadFields(p);
    EmitNamedStep(fs, 4);
    assert fs[5..] == [];
    EmitNamedStep(fs, 3);
    EmitNamedStep(fs, 2);
    EmitNamedStep(fs, 1);
    EmitNamedStep(fs, 0);
    assert fs[0..] == fs;
  }

  /** The top-level appends one by one. */
  lemma HeadEntries(p: Product)
    ensures var f := p.fields;
      EmitNamed(HeadFields(p))
        == EmitNamed(LeadFields(p))
           + (if Truthy(Get(f, "prix_promo")) then [Append(Named("prix_promo"), Get(f, "prix_promo"))] else [])
           + [ Append(Named("description"), Or(Get(f, "description"), Str(""))),
               Append(Named("actif"), Flag(Get(f, "actif"))) ]
  {
    var promo := [Field("prix_promo", Truthy(Get(p.fields, "prix_promo")), Get(p.fields, "prix_promo"))];
    EmitNamedAppend(LeadFields(p) + promo, TailFields(p));
    EmitNamedAppend(LeadFields(p), promo);
    var tail := TailFields(p);
    EmitNamedStep(tail, 1);
    EmitNamedStep(tail, 0);
    assert tail[0..] == tail && tail[2..] == [];
  }

  /** The six parts one after the other. */
  lemma BodyParts(ps: seq<seq<Entry>>)
    requires |ps| == 6
    ensures Flatten(ps) == ps[0] + ps[1] + ps[2] + ps[3] + ps[4] + ps[5]
  {
    assert ps[..0] == [];
    FlattenSnoc(ps, 0);
    assert Flatten(ps[..1]) == ps[0];
    FlattenSnoc(ps, 1);
    FlattenSnoc(ps, 2);
    FlattenSnoc(ps, 3);
    FlattenSnoc(ps, 4);
    FlattenSnoc(ps, 5);
    assert ps[..6] == ps;
  }

  /** `product.images.forEach(...)`: the new files under `images[]`. */
  method UploadsPass(images: seq<Image>) returns (appended: seq<Entry>)
    ensures appended == UploadEntries(images)
  {
    appended := [];
    var i := 0;
    while i < |images|
      invariant 0 <= i <= |images|
      invariant appended == UploadEntries(images[..i])
    {
      UploadsSnoc(images, i);
      if images[i].Upload? {
        appended := appended + [Append(NewImagePath, FileVal(images[i].file))];
      }
      i := i + 1;
    }
    assert images[..i] == images;
  }

  /** `existingImages.forEach(...)`: the stored paths under `existing_images[]`. */
  method ExistingPass(images: seq<Image>) returns (appended: seq<Entry>)
    ensures appended == ExistingEntries(images)
  {
    appended := [];
    var i := 0;
    while i < |images|
      invariant 0 <= i <= |images|
      invariant appended == ExistingEntries(images[..i])
    {
      StoredSnoc(images, i);
      if images[i].Stored? {
        appended := appended + [Append(ExistingImagePath, Str(images[i].path))];
      }
      i := i + 1;
    }
    assert images[..i] == images;
  }

  /** `deletedImages.forEach(...)` */
  method DeletedPass(deleted: seq<string>) returns (appended: seq<Entry>)
    ensures appended == DeletedEntries(deleted)
  {
    appended := [];
    var i := 0;
    while i < |deleted|
      invariant 0 <= i <= |deleted|
      invariant appended == DeletedEntries(deleted[..i])
    {
      appended := appended + [Append(DeletedImagePath, Str(deleted[i]))];
      i := i + 1;
    }
    assert deleted[..i] == deleted;
  }

  /** The new files of two lists one after the other are those of each list, in order. */
  lemma {:induction false} UploadsAppend(a: seq<Image>, b: seq<Image>)
    ensures Uploads(a + b) == Uploads(a) + Uploads(b)
    decreases |a|
  {
    if a == [] {
      assert a + b == b;
    } else {
      assert (a + b)[0] == a[0] && (a + b)[1..] == a[1..] + b;
      UploadsAppend(a[1..], b);
    }
  }

  lemma {:induction false} StoredAppend(a: seq<Image>, b: seq<Image>)
    ensures StoredPaths(a + b) == StoredPaths(a) + StoredPaths(b)
    decreases |a|
  {
    if a == [] {
      assert a + b == b;
    } else {
      assert (a + b)[0] == a[0] && (a + b)[1..] == a[1..] + b;
      StoredAppend(a[1..], b);
    }
  }

  lemma UploadsSnoc(images: seq<Image>, i: nat)
    requires i < |images|
    ensures UploadEntries(images[..i + 1])
            == UploadEntries(images[..i]) + (if images[i].Upload? then [Append(NewImagePath, FileVal(images[i].file))] else [])
  {
    assert images[..i + 1] == images[..i] + [images[i]];
    UploadsAppend(images[..i], [images[i]]);
    assert Uploads([images[i]]) == if images[i].Upload? then [images[i].file] else [];
  }

  lemma StoredSnoc(images: seq<Image>, i: nat)
    requires i < |images|
    ensures ExistingEntries(images[..i + 1])
            == ExistingEntries(images[..i]) + (if images[i].Stored? then [Append(ExistingImagePath, Str(images[i].path))] else [])
  {
    assert images[..i + 1] == images[..i] + [images[i]];
    StoredAppend(images[..i], [images[i]]);
    assert StoredPaths([images[i]]) == if images[i].Stored? then [images[i].path] else [];
  }
}
