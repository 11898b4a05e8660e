/** Queue-family discovery: which family of a physical device can run graphics
    work, and which can present to the window surface. */
module QueueFamilies {
  import opened VkTypes

  /** `VK_QUEUE_GRAPHICS_BIT` of `VkQueueFlags`. */
  const QueueGraphicsBit: bv32 := 1

  /** One enumerated queue family: its `queueFlags`, and the answer the
      surface-support query gives for this family's index on the window surface. */
  datatype QueueFamily = QueueFamily(queueFlags: bv32, presentationSupport: bool)

  /** The two optional family indices the scan fills in. */
  datatype QueueFamilyIndices = QueueFamilyIndices(graphicsFamily: Option<nat>, presentationFamily: Option<nat>)
  {
    /** `is_graphics_supported`: the graphics index has a value. */
    predicate IsGraphicsSupported(): (r: bool)
      ensures r <==> graphicsFamily != None
    {
      graphicsFamily.Some?
    }

    /** `is_presentation_supported`: the presentation index has a value. */
    predicate IsPresentationSupported(): (r: bool)
      ensures r <==> presentationFamily != None
    {
      presentationFamily.Some?
    }
  }

  datatype Capability = Graphics | Presentation

  predicate Supports(f: QueueFamily, cap: Capability)
  {
    match cap
    case Graphics => f.queueFlags & QueueGraphicsBit != 0
    case Presentation => f.presentationSupport
  }

  /** The largest index below `end` whose family has `cap`, if any. */
  function LastWith(families: seq<QueueFamily>, end: nat, cap: Capability): (r: Option<nat>)
    requires end <= |families|
    ensures r.Some? ==> r.value < end && Supports(families[r.value], cap)
    ensures r.Some? ==> forall j :: r.value < j < end ==> !Supports(families[j], cap)
    ensures r.None? ==> forall j :: 0 <= j < end ==> !Supports(families[j], cap)
    decreases end
  {
    if end == 0 then None
    else if Supports(families[end - 1], cap) then Some(end - 1)
    else LastWith(families, end - 1, cap)
  }

  /** Both capabilities have been seen among the first `end` families. */
  predicate BothFound(families: seq<QueueFamily>, end: nat)
    requires end <= |families|
  {
    LastWith(families, end, Graphics).Some? && LastWith(families, end, Presentation).Some?
  }

  function ScanLengthFrom(families: seq<QueueFamily>, start: nat): (n: nat)
    requires start <= |families|
    ensures start <= n <= |families|
    ensures n == |families| || BothFound(families, n)
    ensures forall e :: start < e < n ==> !BothFound(families, e)
    decreases |families| - start
  {
    if start == |families| then start
    else if BothFound(families, start + 1) then start + 1
    else ScanLengthFrom(families, start + 1)
  }

  /** How many families the scan examines: up to and including the first one
      by which both capabilities have been seen, or all of them. */
  function ScanLength(families: seq<QueueFamily>): (n: nat)
    ensures n <= |families|
    ensures n == |families| || BothFound(families, n)
    ensures forall e :: 0 <= e < n ==> !BothFound(families, e)
  {
    ScanLengthFrom(families, 0)
  }

  /** What the scan computes, stated without a loop: each index is the LAST
      family with that capability among the families examined (a later match
      overwrites an earlier one), not the first. */
  function QueueFamiliesOf(families: seq<QueueFamily>): (r: QueueFamilyIndices)
    ensures r.graphicsFamily.Some? ==>
      r.graphicsFamily.value < |families| && Supports(families[r.graphicsFamily.value], Graphics)
    ensures r.presentationFamily.Some? ==>
      r.presentationFamily.value < |families| && Supports(families[r.presentationFamily.value], Presentation)
    ensures r.IsGraphicsSupported() <==> exists i :: 0 <= i < |families| && Supports(families[i], Graphics)
    ensures r.IsPresentationSupported() <==> exists i :: 0 <= i < |families| && Supports(families[i], Presentation)
    ensures families == [] ==> r == QueueFamilyIndices(None, None)
  {
    var n := ScanLength(families);
    QueueFamilyIndices(LastWith(families, n, Graphics), LastWith(families, n, Presentation))
  }

  lemma ScanLengthIs(families: seq<QueueFamily>, k: nat)
    requires k <= |families|
    requires k == |families| || BothFound(families, k)
    requires forall e :: 0 <= e < k ==> !BothFound(families, e)
    ensures ScanLength(families) == k
  {
  }

  /** `find_queue_families`: scan the families in index order, overwrite each
      optional on every match, and stop as soon as both hold a value. */
  method FindQueueFamilies(families: seq<QueueFamily>) returns (result: QueueFamilyIndices)
    ensures result == QueueFamiliesOf(families)
  {
    result := QueueFamilyIndices(None, None);
    var index := 0;
    while index < |families|
      invariant index <= |families|
      invariant result.graphicsFamily == LastWith(families, index, Graphics)
      invariant result.presentationFamily == LastWith(families, index, Presentation)
      invariant forall e :: 0 <= e <= index ==> !BothFound(families, e)
    {
      if families[index].queueFlags & QueueGraphicsBit != 0 {
        result := result.(graphicsFamily := Some(index));
      }
      if families[index].presentationSupport {
        result := result.(presentationFamily := Some(index));
      }
      if result.graphicsFamily.Some? && result.presentationFamily.Some? {
        ScanLengthIs(families, index + 1);
        return;
      }
      index := index + 1;
    }
    ScanLengthIs(families, |families|);
  }

  /** When both indices are found, the scan stopped at k, the larger of the two:
      k is the first index by which both capabilities had been seen, and each
      recorded index is the last family with its capability up to k. */
  lemma {:induction false} ScanStopsAtLargerIndex(families: seq<QueueFamily>)
    requires QueueFamiliesOf(families).graphicsFamily.Some?
    requires QueueFamiliesOf(families).presentationFamily.Some?
    ensures var r := QueueFamiliesOf(families);
      var g, p := r.graphicsFamily.value, r.presentationFamily.value;
      var k := if g < p then p else g;
      && ScanLength(families) == k + 1
      && (forall j :: g < j <= k ==> !Supports(families[j], Graphics))
      && (forall j :: p < j <= k ==> !Supports(families[j], Presentation))
      && (forall e :: 0 <= e < k + 1 ==> !BothFound(families, e))
  {
    var r := QueueFamiliesOf(families);
    var n := ScanLength(families);
    var g, p := r.graphicsFamily.value, r.presentationFamily.value;
    var k := if g < p then p else g;
    assert k < n;
    // Both matches lie below k + 1, so both were already seen by then; as the
    // scan stops at the first such point, it stopped exactly there.
    LastWithPrefix(families, n, k + 1, Graphics);
    LastWithPrefix(families, n, k + 1, Presentation);
    assert BothFound(families, k + 1);
  }

  /** Cutting the range at `end'` keeps the last match when it lies below `end'`. */
  lemma {:induction false} LastWithPrefix(families: seq<QueueFamily>, end: nat, end': nat, cap: Capability)
    requires end' <= end <= |families|
    requires LastWith(families, end, cap).Some? && LastWith(families, end, cap).value < end'
    ensures LastWith(families, end', cap) == LastWith(families, end, cap)
    decreases end
  {
    if end' < end {
      assert !Supports(families[end - 1], cap);
      LastWithPrefix(families, end - 1, end', cap);
    }
  }

  /** A family that supports graphics but not presentation, followed by one that
      supports both: the recorded graphics index is 1, the later match. */
  lemma OverwriteExample()
    ensures QueueFamiliesOf([QueueFamily(QueueGraphicsBit, false), QueueFamily(QueueGraphicsBit, true)])
         == QueueFamilyIndices(Some(1), Some(1))
  {
    var fs := [QueueFamily(QueueGraphicsBit, false), QueueFamily(QueueGraphicsBit, true)];
    assert !BothFound(fs, 1);
    assert BothFound(fs, 2);
    ScanLengthIs(fs, 2);
  }
}
