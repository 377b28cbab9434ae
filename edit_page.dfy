/** The page editor: a page holds an ordered list of sections, each holding
    ordered lists of subsections and custom blocks. The handlers insert,
    remove and edit them; removing a subsection that exists on the server
    records its id; submitting flattens the tree into a multipart payload
    with bracketed keys. */
module EditPage {
  import opened Js

  // ---------------------------------------------------------------------
  // Data model

  /** A subsection: its fields by name (`id`, `title`, `prix`, `image`, `order`, ...). */
  datatype Subsection = Subsection(fields: map<string, JsValue>)

  /** A custom block. `configJson` is the text `JSON.stringify(block.config || {})` produces. */
  datatype CustomBlock = CustomBlock(blockType: JsValue, configJson: string)

  /** A section: its own fields by name, and its two nested lists. */
  datatype Section = Section(fields: map<string, JsValue>, subsections: seq<Subsection>, customBlocks: seq<CustomBlock>)

  /** The page being edited: its own fields by name, and its sections in display order. */
  datatype Page = Page(fields: map<string, JsValue>, sections: seq<Section>)

  const InitialPage: Page := Page(
    map["title" := Str(""), "subtitle" := Str(""), "template" := Str("default"),
        "order" := Num(0), "is_active" := Bool(true), "main_image" := Null],
    [])

  /** The section `addSection` inserts; its order is set by the renumbering. */
  const NewSection: Section := Section(
    map["title" := Str(""), "subtitle" := Str(""), "type" := Str("hero"), "variant" := Str(""),
        "content" := Str(""), "button_text" := Str(""), "button_link" := Str(""),
        "image" := Null, "image_mobile" := Null, "order" := Num(0), "is_active" := Bool(true)],
    [], [])

  /** The subsection `addSubsection` appends, numbered after the existing ones. */
  function NewSubsection(order: int): Subsection
  {
    Subsection(map["title" := Str(""), "subtitle" := Str(""), "content" := Str(""), "date" := Str(""),
                   "prix" := Str(""), "image" := Null, "button_text" := Str(""), "button_link" := Str(""),
                   "order" := Num(order)])
  }

  /** The layouts each section type offers, the first being the default. */
  const SectionTypeVariants: map<string, seq<string>> := map[
    "hero" := ["default", "split", "split-inverse", "minimal", "carousel", "localisation", "info", "info-inverse"],
    "grid" := ["columns", "icons", "cards", "split", "split-dark", "sections"],
    "carousel" := ["simple", "with-captions"],
    "faq" := ["accordion", "list"],
    "calltoaction" := ["centered", "split", "app", "newsletter", "contact"]
  ]

  // ---------------------------------------------------------------------
  // The handlers, as functions of the state they start from

  /** `handlePageChange`: a checkbox stores `checked`, any other input its value. */
  function PageFieldSet(p: Page, name: string, isCheckbox: bool, checked: bool, value: JsValue): (r: Page)
    ensures r.sections == p.sections
    ensures Get(r.fields, name) == (if isCheckbox then Bool(checked) else value)
    ensures forall f :: f != name ==> Get(r.fields, f) == Get(p.fields, f)
  {
    p.(fields := p.fields[name := if isCheckbox then Bool(checked) else value])
  }

  /** Where `array.splice(k, ...)` starts in an array of length `len`. */
  function SpliceStart(k: int, len: nat): (r: nat)
    ensures r <= len
  {
    if k < 0 then (if len + k > 0 then len + k else 0)
    else if k < len then k
    else len
  }

  /** Where `addSection(insertIndex)` puts the new section: at the index, or at the end without one. */
  function InsertPosition(len: nat, insertIndex: Option<int>): (r: nat)
    ensures r <= len
    ensures insertIndex == None ==> r == len
    ensures insertIndex != None && 0 <= insertIndex.value <= len ==> r == insertIndex.value
  {
    if insertIndex.None? then len else SpliceStart(insertIndex.value, len)
  }

  function Order(s: Section): JsValue
  {
    Get(s.fields, "order")
  }

  function WithOrder(s: Section, n: int): Section
  {
    s.(fields := s.fields["order" := Num(n)])
  }

  /** `addSection(insertIndex)`: splice or push a new section, then set every order to index + 1. */
  function SectionInserted(secs: seq<Section>, insertIndex: Option<int>): (r: seq<Section>)
    ensures |r| == |secs| + 1
    ensures var p := InsertPosition(|secs|, insertIndex);
      && r[p] == WithOrder(NewSection, p + 1)
      && (forall i :: 0 <= i < p ==> r[i] == WithOrder(secs[i], i + 1))
      && (forall i :: p < i < |r| ==> r[i] == WithOrder(secs[i - 1], i + 1))
    ensures forall i :: 0 <= i < |r| ==> Order(r[i]) == Num(i + 1)
  {
    var p := InsertPosition(|secs|, insertIndex);
    var spliced := secs[..p] + [NewSection] + secs[p..];
    seq(|spliced|, i requires 0 <= i < |spliced| => WithOrder(spliced[i], i + 1))
  }

  /** `removeSection(index)`: `splice(index, 1)` on the sections, nothing renumbered. */
  function SectionRemoved(secs: seq<Section>, index: int): (r: seq<Section>)
    ensures var p := SpliceStart(index, |secs|);
      if p < |secs| then
        |r| == |secs| - 1
        && (forall i :: 0 <= i < p ==> r[i] == secs[i])
        && (forall i :: p <= i < |r| ==> r[i] == secs[i + 1])
      else r == secs
  {
    var p := SpliceStart(index, |secs|);
    if p < |secs| then secs[..p] + secs[p + 1..] else secs
  }

  /** Orders stay as stored after a removal: removing a section other than the
      last from a renumbered list leaves a gap in the orders. */
  lemma RemoveSectionLeavesGap(secs: seq<Section>, index: nat)
    requires forall i :: 0 <= i < |secs| ==> Order(secs[i]) == Num(i + 1)
    requires index + 1 < |secs|
    ensures var r := SectionRemoved(secs, index);
      Order(r[index]) == Num(index + 2) && Order(r[index]) != Num(index + 1)
  {
  }

  /** `handleSectionChange(index, field, value)`: one field of one section. */
  function SectionFieldSet(secs: seq<Section>, index: nat, field: string, value: JsValue): (r: seq<Section>)
    requires index < |secs|
    ensures |r| == |secs|
    ensures forall j :: 0 <= j < |secs| && j != index ==> r[j] == secs[j]
    ensures r[index].subsections == secs[index].subsections && r[index].customBlocks == secs[index].customBlocks
    ensures Get(r[index].fields, field) == value
    ensures forall f :: f != field ==> Get(r[index].fields, f) == Get(secs[index].fields, f)
  {
    secs[index := secs[index].(fields := secs[index].fields[field := value])]
  }

  /** `addSubsection(s)`: push a new subsection numbered after the existing ones. */
  function SubsectionAdded(secs: seq<Section>, s: nat): (r: seq<Section>)
    requires s < |secs|
    ensures |r| == |secs|
    ensures forall j :: 0 <= j < |secs| && j != s ==> r[j] == secs[j]
    ensures r[s].fields == secs[s].fields && r[s].customBlocks == secs[s].customBlocks
    ensures r[s].subsections == secs[s].subsections + [NewSubsection(|secs[s].subsections| + 1)]
  {
    var subs := secs[s].subsections;
    secs[s := secs[s].(subsections := subs + [NewSubsection(|subs| + 1)])]
  }

  /** `removeSubsection(s, j)`, on the sections: `splice(j, 1)` on that section's subsections. */
  function SubsectionRemoved(secs: seq<Section>, s: nat, j: nat): (r: seq<Section>)
    requires s < |secs| && j < |secs[s].subsections|
    ensures |r| == |secs|
    ensures forall k :: 0 <= k < |secs| && k != s ==> r[k] == secs[k]
    ensures r[s].fields == secs[s].fields && r[s].customBlocks == secs[s].customBlocks
    ensures |r[s].subsections| == |secs[s].subsections| - 1
    ensures forall k :: 0 <= k < j ==> r[s].subsections[k] == secs[s].subsections[k]
    ensures forall k :: j <= k < |r[s].subsections| ==> r[s].subsections[k] == secs[s].subsections[k + 1]
  {
    var subs := secs[s].subsections;
    secs[s := secs[s].(subsections := subs[..j] + subs[j + 1..])]
  }

  /** `removeSubsection`, on the tombstones: a subsection with a truthy id is recorded. */
  function Tombstoned(ids: seq<JsValue>, removed: Subsection): (r: seq<JsValue>)
    ensures Truthy(Get(removed.fields, "id")) ==> r == ids + [Get(removed.fields, "id")]
    ensures !Truthy(Get(removed.fields, "id")) ==> r == ids
  {
    var id := Get(removed.fields, "id");
    if Truthy(id) then ids + [id] else ids
  }

  /** `handleSubsectionChange(s, j, name, value)`: one field of one subsection. */
  function SubsectionFieldSet(secs: seq<Section>, s: nat, j: nat, name: string, value: JsValue): (r: seq<Section>)
    requires s < |secs| && j < |secs[s].subsections|
    ensures |r| == |secs|
    ensures forall k :: 0 <= k < |secs| && k != s ==> r[k] == secs[k]
    ensures r[s].fields == secs[s].fields && r[s].customBlocks == secs[s].customBlocks
    ensures |r[s].subsections| == |secs[s].subsections|
    ensures forall k :: 0 <= k < |secs[s].subsections| && k != j ==> r[s].subsections[k] == secs[s].subsections[k]
    ensures Get(r[s].subsections[j].fields, name) == value
    ensures forall f :: f != name ==> Get(r[s].subsections[j].fields, f) == Get(secs[s].subsections[j].fields, f)
  {
    var subs := secs[s].subsections;
    var sub := subs[j];
    secs[s := secs[s].(subsections := subs[j := sub.(fields := sub.fields[name := value])])]
  }

  /** A variant the section type offers. */
  predicate VariantOf(v: JsValue, sectionType: string)
    requires sectionType in SectionTypeVariants
  {
    v.Str? && v.s in SectionTypeVariants[sectionType]
  }

  /** The type select: set the type, then reset the variant to the type's first
      one when the current variant is empty or not offered by the new type. */
  function TypeChanged(secs: seq<Section>, index: nat, newType: string): (r: seq<Section>)
    requires index < |secs| && newType in SectionTypeVariants
    ensures |r| == |secs|
    ensures forall j :: 0 <= j < |secs| && j != index ==> r[j] == secs[j]
    ensures r[index].subsections == secs[index].subsections && r[index].customBlocks == secs[index].customBlocks
    ensures Get(r[index].fields, "type") == Str(newType)
    ensures VariantOf(Get(r[index].fields, "variant"), newType)
    ensures VariantOf(Get(secs[index].fields, "variant"), newType) ==>
              Get(r[index].fields, "variant") == Get(secs[index].fields, "variant")
    ensures !VariantOf(Get(secs[index].fields, "variant"), newType) ==>
              Get(r[index].fields, "variant") == Str(SectionTypeVariants[newType][0])
    ensures forall f :: f != "type" && f != "variant" ==> Get(r[index].fields, f) == Get(secs[index].fields, f)
  {
    var variant := Get(secs[index].fields, "variant");
    var typed := SectionFieldSet(secs, index, "type", Str(newType));
    var list := SectionTypeVariants[newType];
    if !Truthy(variant) || !(variant.Str? && variant.s in list) then
      SectionFieldSet(typed, index, "variant", Str(list[0]))
    else typed
  }

  /** Submit is enabled only outside loading and with a title and a template. */
  function CanSubmit(p: Page, loading: bool): (r: bool)
    ensures r <==> !loading && Truthy(Get(p.fields, "title")) && Truthy(Get(p.fields, "template"))
  {
    !(loading || !Truthy(Get(p.fields, "title")) || !Truthy(Get(p.fields, "template")))
  }

  // ---------------------------------------------------------------------
  // The payload

  function SecPrefix(i: nat): seq<string>
  {
    [NatToString(i)]
  }

  function SubPrefix(i: nat, j: nat): seq<string>
  {
    [NatToString(i), "subsections", NatToString(j)]
  }

  function BlockPrefix(i: nat, b: nat): seq<string>
  {
    [NatToString(i), "custom_blocks", NatToString(b)]
  }

  /** `sections[i][f]` */
  function SecPath(i: nat, f: string): Path
  {
    Path("sections", SecPrefix(i) + [f])
  }

  /** `sections[i][subsections][j][f]` */
  function SubPath(i: nat, j: nat, f: string): Path
  {
    Path("sections", SubPrefix(i, j) + [f])
  }

  /** `deleted_subsections[]` */
  const DeletedPath: Path := Path("deleted_subsections", [""])

  /** The page's own appends: the title as is, the others with their defaults. */
  function PageFields(p: Page): seq<Field>
  {
    [ Field("title", true, Get(p.fields, "title")),
      Field("subtitle", true, Or(Get(p.fields, "subtitle"), Str(""))),
      Field("template", true, Or(Get(p.fields, "template"), Str("default"))),
      Field("is_active", true, Flag(Get(p.fields, "is_active"))) ]
  }

  function PageHead(p: Page): seq<Entry>
  {
    EmitNamed(PageFields(p))
  }

  /** The appends of one section's own fields, in the order `handleSubmit` makes
      them: the id only when truthy, the texts with their defaults, images only
      when they are new files, deletion flags only when set. */
  function SectionFields(s: Section): seq<Field>
  {
    var f := s.fields;
    [ Field("id", Truthy(Get(f, "id")), Get(f, "id")),
      Field("title", true, Or(Get(f, "title"), Str(""))),
      Field("subtitle", true, Or(Get(f, "subtitle"), Str(""))),
      Field("type", true, Or(Get(f, "type"), Str("hero"))),
      Field("variant", true, Or(Get(f, "variant"), Str("default"))),
      Field("content", true, Or(Get(f, "content"), Str(""))),
      Field("button_text", true, Or(Get(f, "button_text"), Str(""))),
      Field("button_link", true, Or(Get(f, "button_link"), Str(""))),
      Field("order", true, Or(Get(f, "order"), Num(1))),
      Field("is_active", true, Flag(Get(f, "is_active"))),
      Field("image", Get(f, "image").FileVal?, Get(f, "image")),
      Field("image_mobile", Get(f, "image_mobile").FileVal?, Get(f, "image_mobile")),
      Field("delete_image", Truthy(Get(f, "delete_image")), Str("1")),
      Field("delete_image_mobile", Truthy(Get(f, "delete_image_mobile")), Str("1")) ]
  }

  /** The appends of one subsection; `prix` falls back on "" only when nullish. */
  function SubsectionFields(sub: Subsection): seq<Field>
  {
    var f := sub.fields;
    [ Field("id", Truthy(Get(f, "id")), Get(f, "id")),
      Field("title", true, Or(Get(f, "title"), Str(""))),
      Field("subtitle", true, Or(Get(f, "subtitle"), Str(""))),
      Field("content", true, Or(Get(f, "content"), Str(""))),
      Field("date", true, Or(Get(f, "date"), Str(""))),
      Field("prix", true, Nullish(Get(f, "prix"), Str(""))),
      Field("button_text", true, Or(Get(f, "button_text"), Str(""))),
      Field("button_link", true, Or(Get(f, "button_link"), Str(""))),
      Field("icon", true, Or(Get(f, "icon"), Str(""))),
      Field("order", true, Or(Get(f, "order"), Num(1))),
      Field("image", Get(f, "image").FileVal?, Get(f, "image")),
      Field("delete_image", Truthy(Get(f, "delete_image")), Str("1")) ]
  }

  function BlockFields(blk: CustomBlock): seq<Field>
  {
    [ Field("block_type", true, Or(blk.blockType, Str(""))),
      Field("config", true, Str(blk.configJson)) ]
  }

  function SectionHead(i: nat, s: Section): seq<Entry>
  {
    Emit("sections", SecPrefix(i), SectionFields(s))
  }

  function SubsectionEntries(i: nat, j: nat, sub: Subsection): seq<Entry>
  {
    Emit("sections", SubPrefix(i, j), SubsectionFields(sub))
  }

  function BlockEntries(i: nat, b: nat, blk: CustomBlock): seq<Entry>
  {
    Emit("sections", BlockPrefix(i, b), BlockFields(blk))
  }

  function SubsectionBlocks(i: nat, subs: seq<Subsection>): (r: seq<seq<Entry>>)
    ensures |r| == |subs| && forall j :: 0 <= j < |subs| ==> r[j] == SubsectionEntries(i, j, subs[j])
  {
    seq(|subs|, j requires 0 <= j < |subs| => SubsectionEntries(i, j, subs[j]))
  }

  function CustomBlockBlocks(i: nat, blocks: seq<CustomBlock>): (r: seq<seq<Entry>>)
    ensures |r| == |blocks| && forall b :: 0 <= b < |blocks| ==> r[b] == BlockEntries(i, b, blocks[b])
  {
    seq(|blocks|, b requires 0 <= b < |blocks| => BlockEntries(i, b, blocks[b]))
  }

  /** Everything one pass of the sections loop appends. */
  function SectionEntries(i: nat, s: Section): seq<Entry>
  {
    SectionHead(i, s) + Flatten(SubsectionBlocks(i, s.subsections)) + Flatten(CustomBlockBlocks(i, s.customBlocks))
  }

  function SectionBlocks(secs: seq<Section>): (r: seq<seq<Entry>>)
    ensures |r| == |secs| && forall i :: 0 <= i < |secs| ==> r[i] == SectionEntries(i, secs[i])
  {
    seq(|secs|, i requires 0 <= i < |secs| => SectionEntries(i, secs[i]))
  }

  /** One `deleted_subsections[]` entry per recorded id, in order. */
  function Tombstones(ids: seq<JsValue>): (r: seq<Entry>)
    ensures |r| == |ids| && forall k :: 0 <= k < |ids| ==> r[k] == Append(DeletedPath, ids[k])
  {
    seq(|ids|, k requires 0 <= k < |ids| => Append(DeletedPath, ids[k]))
  }

  /** The whole payload `handleSubmit` builds. */
  function PagePayload(p: Page, ids: seq<JsValue>): seq<Entry>
  {
    PageHead(p) + Flatten(SectionBlocks(p.sections)) + Tombstones(ids)
  }

  // ---------------------------------------------------------------------
  // What the payload contains

  /** Page field `k` is sent once, under its own name. */
  lemma PageFieldLookup(p: Page, ids: seq<JsValue>, k: nat)
    requires k < |PageFields(p)|
    ensures var fd := PageFields(p)[k];
      WithKey(PagePayload(p, ids), Named(fd.name)) == [Append(Named(fd.name), fd.value)]
  {
    var fs := PageFields(p);
    TopLevelLookup(p, ids, fs[k].name);
    assert DistinctNames(fs);
    EmitNamedLookup(fs, k);
  }

  /** A top-level key is found among the page's own appends. */
  lemma TopLevelLookup(p: Page, ids: seq<JsValue>, n: string)
    ensures WithKey(PagePayload(p, ids), Named(n)) == WithKey(PageHead(p), Named(n))
  {
    PayloadSplit(p, ids, Named(n));
    SectionBlocksShape(p.sections);
    FlattenAll(SectionBlocks(p.sections), (e: Entry) => e.path.segs != []);
    WithKeyAbsent(Flatten(SectionBlocks(p.sections)), Named(n));
    WithKeyAbsent(Tombstones(ids), Named(n));
  }

  /** The four page fields are each sent once: the title as is, the subtitle and
      template with their defaults, the active flag as 1 or 0. */
  lemma PayloadPageFields(p: Page, ids: seq<JsValue>)
    ensures var e := PagePayload(p, ids);
      && WithKey(e, Named("title")) == [Append(Named("title"), Get(p.fields, "title"))]
      && WithKey(e, Named("subtitle")) == [Append(Named("subtitle"), Or(Get(p.fields, "subtitle"), Str("")))]
      && WithKey(e, Named("template")) == [Append(Named("template"), Or(Get(p.fields, "template"), Str("default")))]
      && WithKey(e, Named("is_active")) == [Entry(Named("is_active"), Text(if Truthy(Get(p.fields, "is_active")) then "1" else "0"))]
  {
    var fs := PageFields(p);
    var active := Get(p.fields, "is_active");
    assert fs[3] == Field("is_active", true, Flag(active));
    assert FormValueOf(Flag(active)) == Text(if Truthy(active) then "1" else "0");
    PageFieldLookup(p, ids, 0);
    PageFieldLookup(p, ids, 1);
    PageFieldLookup(p, ids, 2);
    PageFieldLookup(p, ids, 3);
  }

  /** The page head written out: the four appends `handleSubmit` makes first. */
  lemma PageHeadEntries(p: Page)
    ensures PageHead(p) == [ Append(Named("title"), Get(p.fields, "title")),
                             Append(Named("subtitle"), Or(Get(p.fields, "subtitle"), Str(""))),
                             Append(Named("template"), Or(Get(p.fields, "template"), Str("default"))),
                             Append(Named("is_active"), Flag(Get(p.fields, "is_active"))) ]
  {
    var fs := PageFields(p);
    assert EmitNamed(fs[3..]) == [Append(Named(fs[3].name), fs[3].value)] + EmitNamed(fs[4..]);
    assert EmitNamed(fs[2..]) == [Append(Named(fs[2].name), fs[2].value)] + EmitNamed(fs[2..][1..]);
    assert fs[2..][1..] == fs[3..];
    assert EmitNamed(fs[1..]) == [Append(Named(fs[1].name), fs[1].value)] + EmitNamed(fs[1..][1..]);
    assert fs[1..][1..] == fs[2..];
    assert EmitNamed(fs) == [Append(Named(fs[0].name), fs[0].value)] + EmitNamed(fs[1..]);
  }

  lemma SectionFieldsDistinct(s: Section)
    ensures DistinctNames(SectionFields(s))
  {
  }

  lemma SubsectionFieldsDistinct(sub: Subsection)
    ensures DistinctNames(SubsectionFields(sub))
  {
  }

  /** The appends of subsection `j` of section `i` sit under `sections[i][subsections][j]`. */
  lemma SubsectionBlocksShape(i: nat, subs: seq<Subsection>)
    ensures var sb: seq<seq<Entry>> := SubsectionBlocks(i, subs);
      forall k, j :: 0 <= k < |sb| && 0 <= j < |sb[k]| ==>
        var q := sb[k][j].path;
        q.root == "sections" && |q.segs| == 4 && q.segs[0] == NatToString(i)
        && q.segs[1] == "subsections" && q.segs[2] == NatToString(k)
  {
    var sb: seq<seq<Entry>> := SubsectionBlocks(i, subs);
    forall k | 0 <= k < |sb|
      ensures forall j :: 0 <= j < |sb[k]| ==>
        var q := sb[k][j].path;
        q.root == "sections" && |q.segs| == 4 && q.segs[0] == NatToString(i)
        && q.segs[1] == "subsections" && q.segs[2] == NatToString(k)
    {
      EmitShape("sections", SubPrefix(i, k), SubsectionFields(subs[k]));
      forall j | 0 <= j < |sb[k]|
        ensures var q := sb[k][j].path;
          q.segs[0] == NatToString(i) && q.segs[1] == "subsections" && q.segs[2] == NatToString(k)
      {
        var q := sb[k][j].path;
        assert q.segs[..3] == SubPrefix(i, k);
        assert q.segs[0] == q.segs[..3][0] && q.segs[1] == q.segs[..3][1] && q.segs[2] == q.segs[..3][2];
      }
    }
  }

  /** The appends of custom block `b` of section `i` sit under `sections[i][custom_blocks][b]`. */
  lemma CustomBlockBlocksShape(i: nat, blocks: seq<CustomBlock>)
    ensures var cb: seq<seq<Entry>> := CustomBlockBlocks(i, blocks);
      forall k, j :: 0 <= k < |cb| && 0 <= j < |cb[k]| ==>
        var q := cb[k][j].path;
        q.root == "sections" && |q.segs| == 4 && q.segs[0] == NatToString(i) && q.segs[1] == "custom_blocks"
  {
    var cb: seq<seq<Entry>> := CustomBlockBlocks(i, blocks);
    forall k | 0 <= k < |cb|
      ensures forall j :: 0 <= j < |cb[k]| ==>
        var q := cb[k][j].path;
        q.root == "sections" && |q.segs| == 4 && q.segs[0] == NatToString(i) && q.segs[1] == "custom_blocks"
    {
      EmitShape("sections", BlockPrefix(i, k), BlockFields(blocks[k]));
      forall j | 0 <= j < |cb[k]|
        ensures var q := cb[k][j].path; q.segs[0] == NatToString(i) && q.segs[1] == "custom_blocks"
      {
        var q := cb[k][j].path;
        assert q.segs[..3] == BlockPrefix(i, k);
        assert q.segs[0] == q.segs[..3][0] && q.segs[1] == q.segs[..3][1];
      }
    }
  }

  /** Every entry of section `i` has a key under `sections[i]`. */
  lemma SectionEntriesShape(i: nat, s: Section)
    ensures forall j :: 0 <= j < |SectionEntries(i, s)| ==>
      var q := SectionEntries(i, s)[j].path;
      q.root == "sections" && |q.segs| >= 2 && q.segs[0] == NatToString(i)
  {
    var head := SectionHead(i, s);
    var subs := Flatten(SubsectionBlocks(i, s.subsections));
    var blocks := Flatten(CustomBlockBlocks(i, s.customBlocks));
    EmitShape("sections", SecPrefix(i), SectionFields(s));
    forall j | 0 <= j < |head|
      ensures head[j].path.segs[0] == NatToString(i)
    {
      assert head[j].path.segs[0] == head[j].path.segs[..1][0];
    }
    SubsectionBlocksShape(i, s.subsections);
    CustomBlockBlocksShape(i, s.customBlocks);
    FlattenAll(SubsectionBlocks(i, s.subsections),
      (e: Entry) => e.path.root == "sections" && |e.path.segs| >= 2 && e.path.segs[0] == NatToString(i));
    FlattenAll(CustomBlockBlocks(i, s.customBlocks),
      (e: Entry) => e.path.root == "sections" && |e.path.segs| >= 2 && e.path.segs[0] == NatToString(i));
    var all := head + subs + blocks;
    forall j | 0 <= j < |all|
      ensures all[j].path.root == "sections" && |all[j].path.segs| >= 2 && all[j].path.segs[0] == NatToString(i)
    {
      if j < |head| {
        assert all[j] == head[j];
      } else if j < |head| + |subs| {
        assert all[j] == subs[j - |head|];
      } else {
        assert all[j] == blocks[j - |head| - |subs|];
      }
    }
  }

  /** The entries of pass `k` of the sections loop all sit under `sections[k]`. */
  lemma SectionBlocksShape(secs: seq<Section>)
    ensures var bs := SectionBlocks(secs);
      forall k, j :: 0 <= k < |bs| && 0 <= j < |bs[k]| ==>
        var q := bs[k][j].path;
        q.root == "sections" && |q.segs| >= 2 && q.segs[0] == NatToString(k)
  {
    forall k | 0 <= k < |secs|
      ensures forall j :: 0 <= j < |SectionEntries(k, secs[k])| ==>
        var q := SectionEntries(k, secs[k])[j].path;
        q.root == "sections" && |q.segs| >= 2 && q.segs[0] == NatToString(k)
    {
      SectionEntriesShape(k, secs[k]);
    }
  }

  /** Looking a key up in the payload looks it up in the page fields, the sections and the tombstones. */
  lemma PayloadSplit(p: Page, ids: seq<JsValue>, t: Path)
    ensures WithKey(PagePayload(p, ids), t)
            == WithKey(PageHead(p), t) + WithKey(Flatten(SectionBlocks(p.sections)), t) + WithKey(Tombstones(ids), t)
  {
    var head, body, tail := PageHead(p), Flatten(SectionBlocks(p.sections)), Tombstones(ids);
    WithKeyAppend(head, body, t);
    WithKeyAppend(head + body, tail, t);
  }

  /** The page's own fields have keys without brackets. */
  lemma PageHeadLookup(p: Page, t: Path)
    requires t.segs != []
    ensures WithKey(PageHead(p), t) == []
  {
    EmitNamedShape(PageFields(p));
    WithKeyAbsent(PageHead(p), t);
  }

  lemma TombstonesLookup(ids: seq<JsValue>, t: Path)
    requires t.root != DeletedPath.root
    ensures WithKey(Tombstones(ids), t) == []
  {
    WithKeyAbsent(Tombstones(ids), t);
  }

  lemma SectionsLookup(secs: seq<Section>, i: nat, t: Path)
    requires |t.segs| > 0 && t.segs[0] == NatToString(i)
    ensures WithKey(Flatten(SectionBlocks(secs)), t) == if i < |secs| then WithKey(SectionEntries(i, secs[i]), t) else []
  {
    SectionBlocksShape(secs);
    TaggedLookup(SectionBlocks(secs), 0, t, i);
  }

  /** A key under `sections[i]` is found only among the entries of section `i`. */
  lemma SectionLookup(p: Page, ids: seq<JsValue>, i: nat, t: Path)
    requires i < |p.sections|
    requires t.root == "sections" && |t.segs| > 0 && t.segs[0] == NatToString(i)
    ensures WithKey(PagePayload(p, ids), t) == WithKey(SectionEntries(i, p.sections[i]), t)
  {
    PayloadSplit(p, ids, t);
    PageHeadLookup(p, t);
    SectionsLookup(p.sections, i, t);
    TombstonesLookup(ids, t);
  }

  /** Looking a key up in one section's entries looks it up in its own fields, its subsections and its blocks. */
  lemma SectionEntriesSplit(i: nat, s: Section, t: Path)
    ensures WithKey(SectionEntries(i, s), t)
            == WithKey(SectionHead(i, s), t) + WithKey(Flatten(SubsectionBlocks(i, s.subsections)), t)
               + WithKey(Flatten(CustomBlockBlocks(i, s.customBlocks)), t)
  {
    var head, subs, blocks := SectionHead(i, s), Flatten(SubsectionBlocks(i, s.subsections)), Flatten(CustomBlockBlocks(i, s.customBlocks));
    WithKeyAppend(head, subs, t);
    WithKeyAppend(head + subs, blocks, t);
  }

  lemma SubsectionsLookup(i: nat, subs: seq<Subsection>, t: Path)
    requires |t.segs| != 4 || t.segs[1] != "subsections"
    ensures WithKey(Flatten(SubsectionBlocks(i, subs)), t) == []
  {
    SubsectionBlocksShape(i, subs);
    FlattenAll(SubsectionBlocks(i, subs), (e: Entry) => |e.path.segs| == 4 && e.path.segs[1] == "subsections");
    WithKeyAbsent(Flatten(SubsectionBlocks(i, subs)), t);
  }

  lemma CustomBlocksLookup(i: nat, blocks: seq<CustomBlock>, t: Path)
    requires |t.segs| != 4 || t.segs[1] != "custom_blocks"
    ensures WithKey(Flatten(CustomBlockBlocks(i, blocks)), t) == []
  {
    CustomBlockBlocksShape(i, blocks);
    FlattenAll(CustomBlockBlocks(i, blocks), (e: Entry) => |e.path.segs| == 4 && e.path.segs[1] == "custom_blocks");
    WithKeyAbsent(Flatten(CustomBlockBlocks(i, blocks)), t);
  }

  /** A key naming a field of section `i` itself is found among that section's own appends. */
  lemma SectionFieldLookup(p: Page, ids: seq<JsValue>, i: nat, f: string)
    requires i < |p.sections|
    ensures WithKey(PagePayload(p, ids), SecPath(i, f)) == WithKey(SectionHead(i, p.sections[i]), SecPath(i, f))
  {
    var s := p.sections[i];
    var t := SecPath(i, f);
    SectionLookup(p, ids, i, t);
    SectionEntriesSplit(i, s, t);
    SubsectionsLookup(i, s.subsections, t);
    CustomBlocksLookup(i, s.customBlocks, t);
  }

  /** A key naming a field of subsection `j` of section `i` is found among that subsection's appends. */
  lemma SubsectionFieldLookup(p: Page, ids: seq<JsValue>, i: nat, j: nat, f: string)
    requires i < |p.sections| && j < |p.sections[i].subsections|
    ensures WithKey(PagePayload(p, ids), SubPath(i, j, f))
            == WithKey(SubsectionEntries(i, j, p.sections[i].subsections[j]), SubPath(i, j, f))
  {
    SectionLookup(p, ids, i, SubPath(i, j, f));
    SubsectionInSection(i, p.sections[i], j, f);
  }

  /** Within one section's appends, the key of subsection `j` is found in that subsection's block. */
  lemma SubsectionInSection(i: nat, s: Section, j: nat, f: string)
    requires j < |s.subsections|
    ensures WithKey(SectionEntries(i, s), SubPath(i, j, f)) == WithKey(SubsectionEntries(i, j, s.subsections[j]), SubPath(i, j, f))
  {
    SubsectionKeyInSection(i, s, SubPath(i, j, f));
    SubsectionBlockLookup(i, s.subsections, j, f);
  }

  /** A subsection key is found among the subsection appends of a section, not its own or its blocks'. */
  lemma SubsectionKeyInSection(i: nat, s: Section, t: Path)
    requires |t.segs| == 4 && t.segs[1] == "subsections"
    ensures WithKey(SectionEntries(i, s), t) == WithKey(Flatten(SubsectionBlocks(i, s.subsections)), t)
  {
    SectionEntriesSplit(i, s, t);
    EmitShape("sections", SecPrefix(i), SectionFields(s));
    WithKeyAbsent(SectionHead(i, s), t);
    CustomBlocksLookup(i, s.customBlocks, t);
  }

  /** Among the subsection appends of a section, the key of subsection `j` is found in its block. */
  lemma SubsectionBlockLookup(i: nat, subs: seq<Subsection>, j: nat, f: string)
    requires j < |subs|
    ensures WithKey(Flatten(SubsectionBlocks(i, subs)), SubPath(i, j, f))
            == WithKey(SubsectionEntries(i, j, subs[j]), SubPath(i, j, f))
  {
    SubsectionBlocksShape(i, subs);
    TaggedLookup(SubsectionBlocks(i, subs), 2, SubPath(i, j, f), j);
  }

  /** The payload holds, under the key of field `k` of section `i`, that field's
      append when it is made and nothing otherwise. */
  lemma PayloadSectionField(p: Page, ids: seq<JsValue>, i: nat, k: nat)
    requires i < |p.sections| && k < |SectionFields(p.sections[i])|
    ensures var fd := SectionFields(p.sections[i])[k];
      WithKey(PagePayload(p, ids), SecPath(i, fd.name))
        == if fd.sent then [Append(SecPath(i, fd.name), fd.value)] else []
  {
    var fs := SectionFields(p.sections[i]);
    SectionFieldLookup(p, ids, i, fs[k].name);
    SectionFieldsDistinct(p.sections[i]);
    EmitLookup("sections", SecPrefix(i), fs, k);
  }

  /** The same for field `k` of subsection `j` of section `i`. */
  lemma PayloadSubsectionField(p: Page, ids: seq<JsValue>, i: nat, j: nat, k: nat)
    requires i < |p.sections| && j < |p.sections[i].subsections|
    requires k < |SubsectionFields(p.sections[i].subsections[j])|
    ensures var fd := SubsectionFields(p.sections[i].subsections[j])[k];
      WithKey(PagePayload(p, ids), SubPath(i, j, fd.name))
        == if fd.sent then [Append(SubPath(i, j, fd.name), fd.value)] else []
  {
    var fs := SubsectionFields(p.sections[i].subsections[j]);
    SubsectionFieldLookup(p, ids, i, j, fs[k].name);
    SubsectionFieldsDistinct(p.sections[i].subsections[j]);
    EmitLookup("sections", SubPrefix(i, j), fs, k);
  }

  /** `sections[i][id]` is sent exactly when the section has a truthy id. */
  lemma PayloadSectionId(p: Page, ids: seq<JsValue>, i: nat)
    requires i < |p.sections|
    ensures var id := Get(p.sections[i].fields, "id");
      WithKey(PagePayload(p, ids), SecPath(i, "id")) == if Truthy(id) then [Append(SecPath(i, "id"), id)] else []
  {
    PayloadSectionField(p, ids, i, 0);
  }

  /** Section images are sent only when they are new files, deletion flags only when set, as "1". */
  lemma PayloadSectionImages(p: Page, ids: seq<JsValue>, i: nat)
    requires i < |p.sections|
    ensures var f := p.sections[i].fields;
      var e := PagePayload(p, ids);
      && WithKey(e, SecPath(i, "image")) == (if Get(f, "image").FileVal? then [Append(SecPath(i, "image"), Get(f, "image"))] else [])
      && WithKey(e, SecPath(i, "image_mobile")) == (if Get(f, "image_mobile").FileVal? then [Append(SecPath(i, "image_mobile"), Get(f, "image_mobile"))] else [])
      && WithKey(e, SecPath(i, "delete_image")) == (if Truthy(Get(f, "delete_image")) then [Append(SecPath(i, "delete_image"), Str("1"))] else [])
      && WithKey(e, SecPath(i, "delete_image_mobile")) == (if Truthy(Get(f, "delete_image_mobile")) then [Append(SecPath(i, "delete_image_mobile"), Str("1"))] else [])
  {
    PayloadSectionField(p, ids, i, 10);
    PayloadSectionField(p, ids, i, 11);
    PayloadSectionField(p, ids, i, 12);
    PayloadSectionField(p, ids, i, 13);
  }

  /** A section's order is sent once, from the stored value, 1 standing in for a falsy one. */
  lemma PayloadSectionOrder(p: Page, ids: seq<JsValue>, i: nat)
    requires i < |p.sections|
    ensures WithKey(PagePayload(p, ids), SecPath(i, "order"))
            == [Append(SecPath(i, "order"), Or(Order(p.sections[i]), Num(1)))]
  {
    assert SectionFields(p.sections[i])[8] == Field("order", true, Or(Order(p.sections[i]), Num(1)));
    PayloadSectionField(p, ids, i, 8);
  }

  /** A subsection's id is sent exactly when truthy, its image only when it is a
      new file, and `prix` is always sent, keeping a 0 (`??`, not `||`). */
  lemma PayloadSubsection(p: Page, ids: seq<JsValue>, i: nat, j: nat)
    requires i < |p.sections| && j < |p.sections[i].subsections|
    ensures var f := p.sections[i].subsections[j].fields;
      var e := PagePayload(p, ids);
      && WithKey(e, SubPath(i, j, "id")) == (if Truthy(Get(f, "id")) then [Append(SubPath(i, j, "id"), Get(f, "id"))] else [])
      && WithKey(e, SubPath(i, j, "image")) == (if Get(f, "image").FileVal? then [Append(SubPath(i, j, "image"), Get(f, "image"))] else [])
      && WithKey(e, SubPath(i, j, "prix")) == [Append(SubPath(i, j, "prix"), Nullish(Get(f, "prix"), Str("")))]
  {
    var f := p.sections[i].subsections[j].fields;
    var fs := SubsectionFields(p.sections[i].subsections[j]);
    assert fs[0] == Field("id", Truthy(Get(f, "id")), Get(f, "id"));
    assert fs[5] == Field("prix", true, Nullish(Get(f, "prix"), Str("")));
    assert fs[10] == Field("image", Get(f, "image").FileVal?, Get(f, "image"));
    PayloadSubsectionField(p, ids, i, j, 0);
    PayloadSubsectionField(p, ids, i, j, 10);
    PayloadSubsectionField(p, ids, i, j, 5);
  }

  /** The sections loop appends nothing outside the `sections` root. */
  lemma SectionsOnlyLookup(secs: seq<Section>, t: Path)
    requires t.root != "sections"
    ensures WithKey(Flatten(SectionBlocks(secs)), t) == []
  {
    SectionBlocksShape(secs);
    FlattenAll(SectionBlocks(secs), (e: Entry) => e.path.root == "sections");
    WithKeyAbsent(Flatten(SectionBlocks(secs)), t);
  }

  /** The payload carries one `deleted_subsections[]` entry per recorded id, in order. */
  lemma PayloadTombstones(p: Page, ids: seq<JsValue>)
    ensures WithKey(PagePayload(p, ids), DeletedPath) == Tombstones(ids)
  {
    PayloadSplit(p, ids, DeletedPath);
    PageHeadLookup(p, DeletedPath);
    SectionsOnlyLookup(p.sections, DeletedPath);
    WithKeyAll(Tombstones(ids), DeletedPath);
  }

  // ---------------------------------------------------------------------
  // The editor's state

  class PageEditor {
    var page: Page
    var deletedSubsectionIds: seq<JsValue>

    constructor()
      ensures page == InitialPage && deletedSubsectionIds == []
    {
      page := InitialPage;
      deletedSubsectionIds := [];
    }

    method HandlePageChange(name: string, isCheckbox: bool, checked: bool, value: JsValue)
      modifies this
      ensures page == PageFieldSet(old(page), name, isCheckbox, checked, value)
      ensures deletedSubsectionIds == old(deletedSubsectionIds)
    {
      page := PageFieldSet(page, name, isCheckbox, checked, value);
    }

    method AddSection(insertIndex: Option<int>)
      modifies this
      ensures page == old(page).(sections := SectionInserted(old(page).sections, insertIndex))
      ensures deletedSubsectionIds == old(deletedSubsectionIds)
    {
      var secs := page.sections;
      var at := InsertPosition(|secs|, insertIndex);
      secs := secs[..at] + [NewSection] + secs[at..];
      var renumbered := [];
      var i := 0;
      while i < |secs|
        invariant 0 <= i <= |secs|
        invariant |renumbered| == i
        invariant forall k :: 0 <= k < i ==> renumbered[k] == WithOrder(secs[k], k + 1)
      {
        renumbered := renumbered + [WithOrder(secs[i], i + 1)];
        i := i + 1;
      }
      page := page.(sections := renumbered);
    }

    method RemoveSection(index: int)
      modifies this
      ensures page == old(page).(sections := SectionRemoved(old(page).sections, index))
      ensures deletedSubsectionIds == old(deletedSubsectionIds)
    {
      page := page.(sections := SectionRemoved(page.sections, index));
    }

    method HandleSectionChange(index: nat, field: string, value: JsValue)
      requires index < |page.sections|
      modifies this
      ensures page == old(page).(sections := SectionFieldSet(old(page).sections, index, field, value))
      ensures deletedSubsectionIds == old(deletedSubsectionIds)
    {
      page := page.(sections := SectionFieldSet(page.sections, index, field, value));
    }

    method AddSubsection(s: nat)
      requires s < |page.sections|
      modifies this
      ensures page == old(page).(sections := SubsectionAdded(old(page).sections, s))
      ensures deletedSubsectionIds == old(deletedSubsectionIds)
    {
      page := page.(sections := SubsectionAdded(page.sections, s));
    }

    method RemoveSubsection(s: nat, j: nat)
      requires s < |page.sections| && j < |page.sections[s].subsections|
      modifies this
      ensures page == old(page).(sections := SubsectionRemoved(old(page).sections, s, j))
      ensures deletedSubsectionIds == Tombstoned(old(deletedSubsectionIds), old(page).sections[s].subsections[j])
    {
      var removed := page.sections[s].subsections[j];
      if Truthy(Get(removed.fields, "id")) {
        deletedSubsectionIds := deletedSubsectionIds + [Get(removed.fields, "id")];
      }
      page := page.(sections := SubsectionRemoved(page.sections, s, j));
    }

    method HandleSubsectionChange(s: nat, j: nat, name: string, value: JsValue)
      requires s < |page.sections| && j < |page.sections[s].subsections|
      modifies this
      ensures page == old(page).(sections := SubsectionFieldSet(old(page).sections, s, j, name, value))
      ensures deletedSubsectionIds == old(deletedSubsectionIds)
    {
      page := page.(sections := SubsectionFieldSet(page.sections, s, j, name, value));
    }

    /** The type select's `onChange`: two `handleSectionChange` calls. */
    method ChangeSectionType(index: nat, newType: string)
      requires index < |page.sections| && newType in SectionTypeVariants
      modifies this
      ensures page == old(page).(sections := TypeChanged(old(page).sections, index, newType))
      ensures deletedSubsectionIds == old(deletedSubsectionIds)
    {
      var variant := Get(page.sections[index].fields, "variant");
      HandleSectionChange(index, "type", Str(newType));
      var list := SectionTypeVariants[newType];
      if !Truthy(variant) || !(variant.Str? && variant.s in list) {
        HandleSectionChange(index, "variant", Str(list[0]));
      }
    }

    /** The payload half of `handleSubmit`: the page fields, one pass per section, then the tombstones. */
    method BuildPayload() returns (formData: seq<Entry>)
      ensures formData == PagePayload(page, deletedSubsectionIds)
    {
      var head := PageHeadPass(page);
      var body := SectionsPass(page.sections);
      var tail := TombstonesPass(deletedSubsectionIds);
      formData := head + body + tail;
    }
  }

  /** The four appends of the page's own fields. */
  method PageHeadPass(p: Page) returns (appended: seq<Entry>)
    ensures appended == PageHead(p)
  {
    appended := [Append(Named("title"), Get(p.fields, "title"))];
    appended := appended + [Append(Named("subtitle"), Or(Get(p.fields, "subtitle"), Str("")))];
    appended := appended + [Append(Named("template"), Or(Get(p.fields, "template"), Str("default")))];
    appended := appended + [Append(Named("is_active"), Flag(Get(p.fields, "is_active")))];
    PageHeadEntries(p);
  }

  /** The sections `forEach`: one pass per section, in display order. */
  method SectionsPass(secs: seq<Section>) returns (appended: seq<Entry>)
    ensures appended == Flatten(SectionBlocks(secs))
  {
    appended := [];
    ghost var bs := SectionBlocks(secs);
    var i := 0;
    while i < |secs|
      invariant 0 <= i <= |secs|
      invariant appended == Flatten(bs[..i])
    {
      appended := AppendSection(appended, i, secs[i]);
      FlattenSnoc(bs, i);
      i := i + 1;
    }
    assert bs[..i] == bs;
  }

  /** The `deletedSubsections.forEach`: one `deleted_subsections[]` append per id. */
  method TombstonesPass(ids: seq<JsValue>) returns (appended: seq<Entry>)
    ensures appended == Tombstones(ids)
  {
    appended := [];
    var k := 0;
    while k < |ids|
      invariant 0 <= k <= |ids|
      invariant appended == Tombstones(ids[..k])
    {
      appended := appended + [Append(DeletedPath, ids[k])];
      assert Tombstones(ids[..k + 1]) == Tombstones(ids[..k]) + [Append(DeletedPath, ids[k])];
      k := k + 1;
    }
    assert ids[..k] == ids;
  }

  /** One pass of the sections `forEach`: the section's own fields, then its
      subsections and its custom blocks. */
  method AppendSection(formData: seq<Entry>, i: nat, s: Section) returns (out: seq<Entry>)
    ensures out == formData + SectionEntries(i, s)
  {
    var subs := SubsectionsPass(i, s.subsections);
    var blocks := CustomBlocksPass(i, s.customBlocks);
    out := formData + SectionHead(i, s) + subs + blocks;
    assert out == formData + (SectionHead(i, s) + subs + blocks);
  }

  /** The subsections `forEach` of section `i`: what it appends, in order. */
  method SubsectionsPass(i: nat, subs: seq<Subsection>) returns (appended: seq<Entry>)
    ensures appended == Flatten(SubsectionBlocks(i, subs))
  {
    appended := [];
    ghost var bs := SubsectionBlocks(i, subs);
    var j := 0;
    while j < |subs|
      invariant 0 <= j <= |subs|
      invariant appended == Flatten(bs[..j])
    {
      appended := appended + SubsectionEntries(i, j, subs[j]);
      FlattenSnoc(bs, j);
      j := j + 1;
    }
    assert bs[..j] == bs;
  }

  /** The custom blocks `forEach` of section `i`: what it appends, in order. */
  method CustomBlocksPass(i: nat, blocks: seq<CustomBlock>) returns (appended: seq<Entry>)
    ensures appended == Flatten(CustomBlockBlocks(i, blocks))
  {
    appended := [];
    ghost var bs := CustomBlockBlocks(i, blocks);
    var b := 0;
    while b < |blocks|
      invariant 0 <= b <= |blocks|
      invariant appended == Flatten(bs[..b])
    {
      appended := appended + BlockEntries(i, b, blocks[b]);
      FlattenSnoc(bs, b);
      b := b + 1;
    }
    assert bs[..b] == bs;
  }

  // ---------------------------------------------------------------------
  // Handlers followed by a submit

  /** A section stored with order `i + 1` is sent with the text of `i + 1`. */
  lemma SubmitSendsOrder(p: Page, ids: seq<JsValue>, i: nat)
    requires i < |p.sections| && Order(p.sections[i]) == Num(i + 1)
    ensures WithKey(PagePayload(p, ids), SecPath(i, "order")) == [Entry(SecPath(i, "order"), Text(NatToString(i + 1)))]
  {
    PayloadSectionOrder(p, ids, i);
    assert Or(Num(i + 1), Num(1)) == Num(i + 1);
  }

  /** After `addSection`, the payload numbers the sections 1, 2, 3, ... in display order. */
  lemma AddSectionThenSubmit(p: Page, ids: seq<JsValue>, insertIndex: Option<int>, i: nat)
    requires i <= |p.sections|
    ensures var q := p.(sections := SectionInserted(p.sections, insertIndex));
      WithKey(PagePayload(q, ids), SecPath(i, "order")) == [Entry(SecPath(i, "order"), Text(NatToString(i + 1)))]
  {
    var q := p.(sections := SectionInserted(p.sections, insertIndex));
    assert Order(q.sections[i]) == Num(i + 1);
    SubmitSendsOrder(q, ids, i);
  }

  /** Removing a persisted subsection and submitting asks the server to delete its id, last. */
  lemma RemoveSubsectionThenSubmit(p: Page, ids: seq<JsValue>, s: nat, j: nat)
    requires s < |p.sections| && j < |p.sections[s].subsections|
    requires Truthy(Get(p.sections[s].subsections[j].fields, "id"))
    ensures var q := p.(sections := SubsectionRemoved(p.sections, s, j));
      var ids' := Tombstoned(ids, p.sections[s].subsections[j]);
      WithKey(PagePayload(q, ids'), DeletedPath)
        == Tombstones(ids) + [Append(DeletedPath, Get(p.sections[s].subsections[j].fields, "id"))]
  {
    var q := p.(sections := SubsectionRemoved(p.sections, s, j));
    var ids' := Tombstoned(ids, p.sections[s].subsections[j]);
    PayloadTombstones(q, ids');
    assert Tombstones(ids') == Tombstones(ids) + [Append(DeletedPath, Get(p.sections[s].subsections[j].fields, "id"))];
  }
}
