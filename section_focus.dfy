/** The editor's active-section tracking: one ref per section, resized when
    the number of sections changes, and the scroll handler that picks the
    section whose top is closest to 120px among those in view. The geometry
    of an attached element (`getBoundingClientRect`) is an input. */
module SectionFocus {
  import opened Js

  datatype Rect = Rect(top: int, bottom: int)

  /** A React ref: `current` is the attached element's box, None while unattached. */
  datatype SectionRef = SectionRef(current: Option<Rect>)

  /** `React.createRef()`: a ref with nothing attached yet. */
  const NewRef := SectionRef(None)

  /** `Array(n).fill().map((_, i) => refs[i] || React.createRef())` */
  function ResizeRefs(refs: seq<SectionRef>, n: nat): (r: seq<SectionRef>)
    ensures |r| == n
    ensures forall i :: 0 <= i < n && i < |refs| ==> r[i] == refs[i]
    ensures forall i :: |refs| <= i < n ==> r[i] == NewRef
  {
    seq(n, i requires 0 <= i < n => if i < |refs| then refs[i] else NewRef)
  }

  /** Growing the ref array and shrinking it back gives the original refs. */
  lemma ResizeRoundTrip(refs: seq<SectionRef>, n: nat)
    requires |refs| <= n
    ensures ResizeRefs(ResizeRefs(refs, n), |refs|) == refs
  {
  }

  /** Resizing twice is resizing once to the final length, when the first keeps every ref. */
  lemma ResizeTwice(refs: seq<SectionRef>, m: nat, n: nat)
    requires |refs| <= m
    ensures ResizeRefs(ResizeRefs(refs, m), n) == ResizeRefs(refs, n)
  {
  }

  /** `Math.abs(rect.top - 120)` */
  function Distance(r: Rect): nat
  {
    if r.top >= 120 then r.top - 120 else 120 - r.top
  }

  /** A section competes when its element is attached, its top is at most 150
      and its bottom is below 50. */
  predicate Eligible(ref: SectionRef)
  {
    ref.current.Some? && ref.current.value.top <= 150 && ref.current.value.bottom > 50
  }

  /** `k` is the section the handler should pick: 0 when none competes, otherwise
      a competing section at the least distance, the first such on ties. */
  ghost predicate IsClosest(refs: seq<SectionRef>, k: nat)
  {
    if forall i :: 0 <= i < |refs| ==> !Eligible(refs[i]) then k == 0
    else
      && k < |refs| && Eligible(refs[k])
      && (forall i :: 0 <= i < |refs| && Eligible(refs[i]) ==> Distance(refs[k].current.value) <= Distance(refs[i].current.value))
      && (forall i :: 0 <= i < k && Eligible(refs[i]) ==> Distance(refs[k].current.value) < Distance(refs[i].current.value))
  }

  /** The rule picks one section only. */
  lemma IsClosestUnique(refs: seq<SectionRef>, k1: nat, k2: nat)
    requires IsClosest(refs, k1) && IsClosest(refs, k2)
    ensures k1 == k2
  {
  }

  /** `handleScroll`: the index it passes to `setActiveSection`. `closest` is
      `closestDistance`, None standing for `Infinity`. */
  method HandleScroll(refs: seq<SectionRef>) returns (closestIdx: nat)
    ensures closestIdx == 0 || closestIdx < |refs|
    ensures IsClosest(refs, closestIdx)
  {
    closestIdx := 0;
    var closest: Option<nat> := None;
    var idx := 0;
    while idx < |refs|
      invariant 0 <= idx <= |refs|
      invariant closest == None <==> forall i :: 0 <= i < idx ==> !Eligible(refs[i])
      invariant closest == None ==> closestIdx == 0
      invariant closest != None ==>
        && closestIdx < idx && Eligible(refs[closestIdx])
        && closest.value == Distance(refs[closestIdx].current.value)
        && (forall i :: 0 <= i < idx && Eligible(refs[i]) ==> closest.value <= Distance(refs[i].current.value))
        && (forall i :: 0 <= i < closestIdx && Eligible(refs[i]) ==> closest.value < Distance(refs[i].current.value))
    {
      var ref := refs[idx];
      if ref.current.Some? {
        var rect := ref.current.value;
        var distance := Distance(rect);
        if rect.top <= 150 && rect.bottom > 50 && (closest == None || distance < closest.value) {
          closest := Some(distance);
          closestIdx := idx;
        }
      }
      idx := idx + 1;
    }
  }
}
