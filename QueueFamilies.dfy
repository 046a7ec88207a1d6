/** Queue-family discovery (FindQueueFamilies, QueueFamilyIndices) and the per-family queue
    requests that CreateLogicalDevice builds from the indices found. */
module QueueFamilies {
  import opened VulkanTypes

  /** The two kinds of queue the application needs. */
  datatype Role = Graphics | Presentation

  /** QueueFamilyIndices: the family index found for each role, if any. */
  datatype QueueFamilyIndices = QueueFamilyIndices(graphicsFamily: Option<uint32>, presentationFamily: Option<uint32>)
  {
    /** The index recorded for role. */
    function Family(role: Role): Option<uint32> {
      match role
      case Graphics => graphicsFamily
      case Presentation => presentationFamily
    }

    /** Complete: both indices have been found. ScanCompleteIffBothServed says when the
        scan's result is complete. */
    predicate IsComplete() {
      graphicsFamily.Some? && presentationFamily.Some?
    }
  }


  /** A family qualifies for a role when it has queues and, for Graphics, has the graphics bit,
      for Presentation, can present to the application's surface. */
  predicate Serves(family: QueueFamily, role: Role) {
    family.queueCount > 0 &&
    match role
    case Graphics => family.queueFlags & QUEUE_GRAPHICS_BIT != 0
    case Presentation => family.surfaceSupported
  }

  /** Some family of the device qualifies for role. */
  predicate ServedBySome(families: QueueFamilyList, role: Role) {
    exists i :: 0 <= i < |families| && Serves(families[i], role)
  }

  /** The largest index below k whose family qualifies for role. */
  function LastServing(families: QueueFamilyList, k: nat, role: Role): (r: Option<uint32>)
    requires k <= |families|
    ensures r.Some? ==> r.value < k && Serves(families[r.value], role)
    ensures r.Some? ==> forall j :: r.value < j < k ==> !Serves(families[j], role)
    ensures r.None? <==> forall j :: 0 <= j < k ==> !Serves(families[j], role)
    decreases k
  {
    if k == 0 then None
    else if Serves(families[k - 1], role) then Some(k - 1)
    else LastServing(families, k - 1, role)
  }

  /** The families below k qualify for both roles. */
  predicate BothServedBelow(families: QueueFamilyList, k: nat)
    requires k <= |families|
  {
    LastServing(families, k, Graphics).Some? && LastServing(families, k, Presentation).Some?
  }

  /** Where the scan that starts at `from` stops: the first k >= from such that the families
      below k qualify for both roles, or the number of families when there is none. */
  function ScanEnd(families: QueueFamilyList, from: nat): (end: nat)
    requires from <= |families|
    ensures from <= end <= |families|
    ensures end == |families| || BothServedBelow(families, end)
    ensures forall k :: from <= k < end ==> !BothServedBelow(families, k)
    decreases |families| - from
  {
    if from == |families| || BothServedBelow(families, from) then from
    else ScanEnd(families, from + 1)
  }

  /** What FindQueueFamilies returns: for each role, the last qualifying family before the
      scan stops. */
  function ScanResult(families: QueueFamilyList): QueueFamilyIndices {
    var end := ScanEnd(families, 0);
    QueueFamilyIndices(LastServing(families, end, Graphics), LastServing(families, end, Presentation))
  }

  /** Every index the scan records is a family of the device that qualifies for its role. */
  lemma ScanResultQualifies(families: QueueFamilyList, role: Role)
    ensures ScanResult(families).Family(role).Some? ==>
              ScanResult(families).Family(role).value < |families| &&
              Serves(families[ScanResult(families).Family(role).value], role)
  {
  }

  /** The scan is complete exactly when some family qualifies for each role. */
  lemma {:induction false} ScanCompleteIffBothServed(families: QueueFamilyList)
    ensures ScanResult(families).IsComplete() <==>
              ServedBySome(families, Graphics) && ServedBySome(families, Presentation)
  {
    var end := ScanEnd(families, 0);
    var n := |families|;
    if ServedBySome(families, Graphics) && ServedBySome(families, Presentation) {
      var g :| 0 <= g < n && Serves(families[g], Graphics);
      var p :| 0 <= p < n && Serves(families[p], Presentation);
      assert LastServing(families, n, Graphics).Some?;
      assert LastServing(families, n, Presentation).Some?;
      assert BothServedBelow(families, end);
    }
    if ScanResult(families).IsComplete() {
      var g := LastServing(families, end, Graphics).value;
      var p := LastServing(families, end, Presentation).value;
      assert Serves(families[g], Graphics);
      assert Serves(families[p], Presentation);
    }
  }

  /** Before the scan completes, a later graphics family replaces an earlier one:
      graphics-only, graphics-only, presentation-only gives graphics 1, presentation 2. */
  lemma GraphicsFamilyOverwrittenBeforeCompletion()
    ensures var graphicsOnly := QueueFamily(QUEUE_GRAPHICS_BIT, 1, false);
            var presentationOnly := QueueFamily(0, 1, true);
            ScanResult([graphicsOnly, graphicsOnly, presentationOnly]) == QueueFamilyIndices(Some(1), Some(2))
  {
    var graphicsOnly := QueueFamily(QUEUE_GRAPHICS_BIT, 1, false);
    var presentationOnly := QueueFamily(0, 1, true);
    var families: QueueFamilyList := [graphicsOnly, graphicsOnly, presentationOnly];
    assert !Serves(presentationOnly, Graphics) && Serves(presentationOnly, Presentation);
    assert Serves(graphicsOnly, Graphics) && !Serves(graphicsOnly, Presentation);
    assert LastServing(families, 2, Presentation) == None;
    assert !BothServedBelow(families, 2);
    assert ScanEnd(families, 0) == 3;
  }

  /** Families after the one that completes the scan are not looked at: a family that serves
      both roles followed by a graphics-only family gives 0 for both roles. */
  lemma ScanStopsAtCompletion()
    ensures var both := QueueFamily(QUEUE_GRAPHICS_BIT, 1, true);
            var graphicsOnly := QueueFamily(QUEUE_GRAPHICS_BIT, 1, false);
            ScanResult([both, graphicsOnly]) == QueueFamilyIndices(Some(0), Some(0))
  {
    var both := QueueFamily(QUEUE_GRAPHICS_BIT, 1, true);
    var graphicsOnly := QueueFamily(QUEUE_GRAPHICS_BIT, 1, false);
    var families: QueueFamilyList := [both, graphicsOnly];
    assert Serves(both, Graphics) && Serves(both, Presentation);
    assert BothServedBelow(families, 1);
    assert ScanEnd(families, 0) == 1;
  }

  /** FindQueueFamilies: one pass over the families that records, for each role, the latest
      qualifying index and stops as soon as both roles have one. */
  method FindQueueFamilies(queueFamilyProperties: QueueFamilyList) returns (indices: QueueFamilyIndices)
    ensures indices == ScanResult(queueFamilyProperties)
    ensures indices.IsComplete() <==>
              ServedBySome(queueFamilyProperties, Graphics) && ServedBySome(queueFamilyProperties, Presentation)
  {
    indices := QueueFamilyIndices(None, None);
    var queueFamilyCount := |queueFamilyProperties|;
    var index := 0;
    while index < queueFamilyCount
      invariant index <= queueFamilyCount
      invariant ScanEnd(queueFamilyProperties, index) == ScanEnd(queueFamilyProperties, 0)
      invariant !BothServedBelow(queueFamilyProperties, index)
      invariant indices == QueueFamilyIndices(LastServing(queueFamilyProperties, index, Graphics),
                                              LastServing(queueFamilyProperties, index, Presentation))
    {
      var queueFamilyProp := queueFamilyProperties[index];
      var queueExists := queueFamilyProp.queueCount > 0;

      var supportsGraphics := queueFamilyProp.queueFlags & QUEUE_GRAPHICS_BIT != 0;
      if queueExists && supportsGraphics {
        indices := indices.(graphicsFamily := Some(index));
      }

      var surfaceSupported := queueFamilyProp.surfaceSupported;
      if queueExists && surfaceSupported {
        indices := indices.(presentationFamily := Some(index));
      }

      if indices.IsComplete() {
        assert BothServedBelow(queueFamilyProperties, index + 1);
        assert ScanEnd(queueFamilyProperties, index) == index + 1;
        break;
      }
      index := index + 1;
    }
    ScanCompleteIffBothServed(queueFamilyProperties);
  }

  /** VkDeviceQueueCreateInfo: one queue requested from one family. */
  datatype DeviceQueueCreateInfo = DeviceQueueCreateInfo(queueFamilyIndex: uint32, queueCount: uint32)

  /** The set of family indices that a list of queue requests draws from. */
  function RequestedFamilies(infos: seq<DeviceQueueCreateInfo>): set<uint32> {
    if infos == [] then {}
    else RequestedFamilies(infos[..|infos| - 1]) + {infos[|infos| - 1].queueFamilyIndex}
  }

  /** The smallest element of a non-empty set of family indices, where std::set's ascending
      iteration begins. */
  ghost function Smallest(s: set<uint32>): (m: uint32)
    requires s != {}
    ensures IsSmallest(m, s)
    decreases s
  {
    var x :| x in s;
    if s - {x} == {} then
      assert forall y :: y in s ==> y == x || y in s - {x};
      x
    else
      var rest := Smallest(s - {x});
      assert forall y :: y in s ==> y == x || y in s - {x};
      if x < rest then x else rest
  }

  /** m is an element of s and no element of s is smaller. */
  predicate IsSmallest(m: uint32, s: set<uint32>) {
    m in s && forall y :: y in s ==> m <= y
  }

  /** Every request asks for one queue. */
  predicate OneQueueEach(infos: seq<DeviceQueueCreateInfo>) {
    forall i :: 0 <= i < |infos| ==> infos[i].queueCount == 1
  }

  /** The requests name their families in strictly ascending order. */
  predicate Ascending(infos: seq<DeviceQueueCreateInfo>) {
    forall i, j :: 0 <= i < j < |infos| ==> infos[i].queueFamilyIndex < infos[j].queueFamilyIndex
  }

  /** Every family named so far lies below every family still to be visited. */
  predicate AllBelow(infos: seq<DeviceQueueCreateInfo>, rest: set<uint32>) {
    forall i, y :: 0 <= i < |infos| && y in rest ==> infos[i].queueFamilyIndex < y
  }

  /** The state of the ascending walk over `whole`: the requests made so far, one queue each
      and ascending, name exactly the visited families, all below the families still to come. */
  predicate WalkState(infos: seq<DeviceQueueCreateInfo>, whole: set<uint32>, remaining: set<uint32>) {
    && remaining <= whole
    && OneQueueEach(infos)
    && Ascending(infos)
    && AllBelow(infos, remaining)
    && RequestedFamilies(infos) == whole - remaining
    && |infos| + |remaining| == |whole|
  }

  /** One step of the ascending walk: appending a request for the smallest remaining family
      keeps the walk's state. */
  lemma AppendSmallest(before: seq<DeviceQueueCreateInfo>, whole: set<uint32>, remaining: set<uint32>, x: uint32)
    requires IsSmallest(x, remaining)
    requires WalkState(before, whole, remaining)
    ensures WalkState(before + [DeviceQueueCreateInfo(x, 1)], whole, remaining - {x})
  {
    var after := before + [DeviceQueueCreateInfo(x, 1)];
    assert after[..|after| - 1] == before;
    assert remaining == (remaining - {x}) + {x};
    assert RequestedFamilies(after) == RequestedFamilies(before) + {x};
  }

  /** The body of CreateLogicalDevice's loop over the std::set of family indices: one request
      of one queue per element, visited in ascending order. */
  method RequestOneQueueEach(uniqueQueueFamiliesIndices: set<uint32>)
    returns (deviceCommandQueuesCreateInfo: seq<DeviceQueueCreateInfo>)
    ensures |deviceCommandQueuesCreateInfo| == |uniqueQueueFamiliesIndices|
    ensures OneQueueEach(deviceCommandQueuesCreateInfo)
    ensures RequestedFamilies(deviceCommandQueuesCreateInfo) == uniqueQueueFamiliesIndices
    ensures Ascending(deviceCommandQueuesCreateInfo)
  {
    deviceCommandQueuesCreateInfo := [];
    var remaining := uniqueQueueFamiliesIndices;
    while remaining != {}
      invariant WalkState(deviceCommandQueuesCreateInfo, uniqueQueueFamiliesIndices, remaining)
      decreases remaining
    {
      ghost var smallest := Smallest(remaining);
      var queueFamilyIndex :| IsSmallest(queueFamilyIndex, remaining);
      var createInfo := DeviceQueueCreateInfo(queueFamilyIndex, 1);
      AppendSmallest(deviceCommandQueuesCreateInfo, uniqueQueueFamiliesIndices, remaining, queueFamilyIndex);
      deviceCommandQueuesCreateInfo := deviceCommandQueuesCreateInfo + [createInfo];
      remaining := remaining - {queueFamilyIndex};
    }
  }

  /** The queue requests of CreateLogicalDevice: one request of one queue per distinct family
      index, in ascending order. Reading either index when it is missing throws. */
  method QueueCreateInfos(indices: QueueFamilyIndices) returns (r: Result<seq<DeviceQueueCreateInfo>>)
    ensures r.Err? <==> !indices.IsComplete()
    ensures r.Err? ==> r.error == BadOptionalAccess
    ensures r.Ok? ==>
              var graphics := indices.graphicsFamily.value;
              var presentation := indices.presentationFamily.value;
              && |r.value| == (if graphics == presentation then 1 else 2)
              && OneQueueEach(r.value)
              && RequestedFamilies(r.value) == {graphics, presentation}
              && Ascending(r.value)
  {
    if indices.graphicsFamily.None? || indices.presentationFamily.None? {
      return Err(BadOptionalAccess);
    }
    var graphics := indices.graphicsFamily.value;
    var presentation := indices.presentationFamily.value;
    var uniqueQueueFamiliesIndices: set<uint32> := {graphics, presentation};
    assert graphics != presentation ==> |uniqueQueueFamiliesIndices| == 2;
    assert graphics == presentation ==> uniqueQueueFamiliesIndices == {graphics};
    var deviceCommandQueuesCreateInfo := RequestOneQueueEach(uniqueQueueFamiliesIndices);
    return Ok(deviceCommandQueuesCreateInfo);
  }
}
