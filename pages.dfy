/** The page list screen: title search, deletion through the confirmation
    modal, and the per-page card figures (section and subsection counts,
    last-update line). */
module Pages {
  import opened Js
  import LV = ListViews

  /** A section as the card reads it: `sec.subsections?.length`, None when the array is missing. */
  datatype SectionSummary = SectionSummary(subsectionsLength: Option<nat>)

  /** A page as the list reads it. `sections` is None when the page has no `sections` array. */
  datatype PageSummary = PageSummary(
    id: int,
    title: string,
    sections: Option<seq<SectionSummary>>,
    createdAt: string,
    updatedAt: string)

  /** `filteredPage`: the sorted pages whose title contains the query, case-insensitively. */
  function FilteredPages(sortedPages: seq<PageSummary>, query: string): (r: seq<PageSummary>)
    ensures forall p :: p in r <==> p in sortedPages && Matches(p.title, query)
    ensures IsSubsequence(r, sortedPages)
  {
    Filter(sortedPages, (p: PageSummary) => Matches(p.title, query))
  }

  /** An empty search shows every page, in order. */
  lemma EmptySearchKeepsAll(sortedPages: seq<PageSummary>)
    ensures FilteredPages(sortedPages, "") == sortedPages
  {
    forall p | p in sortedPages
      ensures Matches(p.title, "")
    {
      EmptyQueryMatches(p.title);
    }
    FilterAll(sortedPages, (p: PageSummary) => Matches(p.title, ""));
  }

  /** `handleDelete()` on the page list. */
  function HandleDelete(v: LV.ListView<PageSummary>, resp: LV.DeleteResponse): (r: LV.ListView<PageSummary>)
    ensures v.selected == None ==> r == v
    ensures v.selected != None ==> !r.showModal && r.selected == None
    ensures v.selected != None && LV.Deleted(resp) ==>
              forall p :: p in r.items <==> p in v.items && p.id != v.selected.value.id
    ensures !LV.Deleted(resp) ==> r.items == v.items
  {
    LV.HandleDelete(v, (p: PageSummary) => p.id, resp)
  }

  /** `x?.length || 0` on an optional array length. */
  function LengthOrZero(n: Option<nat>): nat
  {
    if n.Some? then n.value else 0
  }

  /** `page.sections?.length || 0` */
  function SectionCount(p: PageSummary): (r: nat)
    ensures p.sections == None ==> r == 0
    ensures p.sections != None ==> r == |p.sections.value|
  {
    if p.sections.Some? then |p.sections.value| else 0
  }

  /** The reduce callback applied left to right, from the accumulator `acc`. */
  function ReduceSubsections(acc: nat, secs: seq<SectionSummary>): nat
    decreases |secs|
  {
    if secs == [] then acc
    else ReduceSubsections(acc + LengthOrZero(secs[0].subsectionsLength), secs[1..])
  }

  /** Reference definition: the sum of the subsection lengths, a missing array counting 0. */
  function TotalSubsections(secs: seq<SectionSummary>): nat
    decreases |secs|
  {
    if secs == [] then 0
    else TotalSubsections(secs[..|secs| - 1]) + LengthOrZero(secs[|secs| - 1].subsectionsLength)
  }

  lemma {:induction false} TotalSubsectionsCons(s: SectionSummary, secs: seq<SectionSummary>)
    ensures TotalSubsections([s] + secs) == LengthOrZero(s.subsectionsLength) + TotalSubsections(secs)
    decreases |secs|
  {
    if secs != [] {
      var n := |secs| - 1;
      assert ([s] + secs)[..|secs|] == [s] + secs[..n];
      TotalSubsectionsCons(s, secs[..n]);
    } else {
      assert [s] + secs == [s];
      assert [s][..0] == [];
    }
  }

  lemma {:induction false} ReduceIsSum(acc: nat, secs: seq<SectionSummary>)
    ensures ReduceSubsections(acc, secs) == acc + TotalSubsections(secs)
    decreases |secs|
  {
    if secs != [] {
      ReduceIsSum(acc + LengthOrZero(secs[0].subsectionsLength), secs[1..]);
      TotalSubsectionsCons(secs[0], secs[1..]);
      assert [secs[0]] + secs[1..] == secs;
    }
  }

  /** `page.sections?.reduce((acc, sec) => acc + (sec.subsections?.length || 0), 0) || 0` */
  function SubsectionCount(p: PageSummary): (r: nat)
    ensures p.sections == None ==> r == 0
    ensures p.sections != None ==> r == TotalSubsections(p.sections.value)
  {
    if p.sections.None? then 0
    else
      ReduceIsSum(0, p.sections.value);
      ReduceSubsections(0, p.sections.value)
  }

  /** The "last update" line of a card: dashes, or the update date shown relative to now. */
  datatype LastUpdate = Dashes | Relative(date: string)

  function LastUpdateOf(p: PageSummary): (r: LastUpdate)
    ensures r == Dashes <==> p.createdAt == p.updatedAt
    ensures r != Dashes ==> r == Relative(p.updatedAt)
  {
    if p.createdAt == p.updatedAt then Dashes else Relative(p.updatedAt)
  }
}
