/** Frame-in-flight bookkeeping of `VulkanApplication`: the K per-slot
    semaphores and fences, the claim table that maps every swapchain image to
    the fence of the frame that last rendered to it, the round-robin
    `currentFrame`, one command buffer per framebuffer, and the per-frame
    `drawFrame` sequence of waits, uniform writes, submit and present.

    The Vulkan calls are recorded as `Event`s in call order; fence state lives
    in the `Device`, and the GPU work still running under each fence is tracked
    in `pending`. */
module FrameLoop {
  import opened Common
  import opened Vk

  /** The calls a frame makes, in order. */
  datatype Event =
    | ObjectUniformsWritten(slot: nat)   // Renderable::updateUniforms(ubo, slot)
    | FrameUniformsWritten(slot: nat)    // PerFrameUniformSystem::refreshData(slot)
    | FenceWaited(fence: Handle)
    | ImageAcquired(semaphore: Handle, image: nat)
    | FenceReset(fence: Handle)
    | Submitted(commandBuffer: Handle, wait: Handle, signal: Handle, fence: Handle)
    | Presented(wait: Handle, image: nat)

  /** The application's synchronisation state.
      `boundSlots[i]` is the uniform slot command buffer i was recorded to read
      (None before recording); `pending[f]` is the image index whose command
      buffer was submitted under fence f and has not been waited for. */
  datatype Sync = Sync(
    imageAvailable: seq<Handle>,
    renderFinished: seq<Handle>,
    inFlight: seq<Handle>,
    imagesInFlight: seq<Handle>,
    commandBuffers: seq<Handle>,
    boundSlots: seq<Option<nat>>,
    currentFrame: nat,
    signalled: map<Handle, bool>,
    pending: map<Handle, nat>)

  const K: nat := MAX_FRAMES_IN_FLIGHT

  /** The state the application keeps between frames. */
  ghost predicate Inv(s: Sync)
  {
    && |s.imageAvailable| == K && |s.renderFinished| == K && |s.inFlight| == K
    && s.currentFrame < K
    && |s.imagesInFlight| == |s.commandBuffers| == |s.boundSlots|
    && Distinct(s.inFlight)
    && (forall k :: 0 <= k < K ==> s.inFlight[k] != NULL_HANDLE && s.inFlight[k] in s.signalled)
    && ClaimsAreSlotFences(s)
    && (forall f :: f in s.pending ==>
          f in s.inFlight && s.pending[f] < |s.commandBuffers| && f in s.signalled && !s.signalled[f])
  }

  /** Every claim-table entry is null or one of the K in-flight fences. */
  ghost predicate ClaimsAreSlotFences(s: Sync)
  {
    forall i :: 0 <= i < |s.imagesInFlight| ==>
      s.imagesInFlight[i] == NULL_HANDLE || s.imagesInFlight[i] in s.inFlight
  }

  /** Every recorded command buffer reads uniform slot `slot`. */
  ghost predicate AllBind(s: Sync, slot: nat)
  {
    forall i :: 0 <= i < |s.boundSlots| ==> s.boundSlots[i] == Some(slot)
  }

  /** Some submitted, not yet waited-for work reads uniform slot `slot`. */
  ghost predicate PendingReads(s: Sync, slot: nat)
  {
    exists f :: f in s.pending && s.pending[f] < |s.boundSlots| && s.boundSlots[s.pending[f]] == Some(slot)
  }

  /** Waiting for fence f: it is signalled and its work is retired. */
  function Waited(s: Sync, f: Handle): (r: Sync)
  {
    s.(signalled := s.signalled[f := true], pending := s.pending - {f})
  }

  /** What `drawFrame` leaves behind and the calls it makes; `submitted` is
      false when vkQueueSubmit failed and the frame threw. */
  datatype Outcome = Outcome(state: Sync, events: seq<Event>, submitted: bool)

  /** `updateUbos(frameIdx)`: both uniform writes go to slot 0, whatever
      `frameIdx` is. */
  function UpdateUbosEvents(frameIdx: nat): (e: seq<Event>)
  {
    [ObjectUniformsWritten(0), FrameUniformsWritten(0)]
  }

  /** The state `drawFrame` reaches just before vkQueueSubmit: slot fence
      waited for, claim waited for when non-null, image claimed by the slot
      fence, slot fence reset. */
  ghost function BeforeSubmit(s: Sync, imageIndex: nat): (r: Sync)
    requires Inv(s) && imageIndex < |s.imagesInFlight|
  {
    var f := s.inFlight[s.currentFrame];
    var claim := s.imagesInFlight[imageIndex];
    var s1 := Waited(s, f);
    var s2 := if claim != NULL_HANDLE then Waited(s1, claim) else s1;
    s2.(imagesInFlight := s2.imagesInFlight[imageIndex := f], signalled := s2.signalled[f := false])
  }

  /** The calls `drawFrame` makes before vkQueueSubmit. */
  function BeforeSubmitEvents(s: Sync, imageIndex: nat): (e: seq<Event>)
    requires Inv(s) && imageIndex < |s.imagesInFlight|
  {
    var f := s.inFlight[s.currentFrame];
    var claim := s.imagesInFlight[imageIndex];
    UpdateUbosEvents(0)
      + [FenceWaited(f), ImageAcquired(s.imageAvailable[s.currentFrame], imageIndex)]
      + (if claim != NULL_HANDLE then [FenceWaited(claim)] else [])
      + [FenceReset(f)]
  }

  /** The calls from vkQueueSubmit on: the submit and the present when the
      submit succeeds, nothing when it throws. */
  function SubmitEvents(s: Sync, imageIndex: nat, submitOk: bool): (e: seq<Event>)
    requires Inv(s) && imageIndex < |s.imagesInFlight|
    ensures |e| == (if submitOk then 2 else 0)
    ensures forall j :: 0 <= j < |e| ==> !e[j].FenceWaited?
  {
    var cf := s.currentFrame;
    if submitOk then
      [Submitted(s.commandBuffers[imageIndex], s.imageAvailable[cf], s.renderFinished[cf], s.inFlight[cf]),
       Presented(s.renderFinished[cf], imageIndex)]
    else []
  }

  /** After a successful submit: the frame's fence now guards the image and
      the frame index moves on. */
  function Advance(s: Sync, imageIndex: nat): (r: Sync)
    requires s.currentFrame < |s.inFlight|
    ensures r.pending == s.pending[s.inFlight[s.currentFrame] := imageIndex]
    ensures r.currentFrame == (s.currentFrame + 1) % K
    ensures r.(pending := s.pending, currentFrame := s.currentFrame) == s
  {
    s.(pending := s.pending[s.inFlight[s.currentFrame] := imageIndex], currentFrame := (s.currentFrame + 1) % K)
  }

  /** A submitted frame is the state before the submit, advanced. */
  lemma SubmittedIsAdvanced(s: Sync, imageIndex: nat)
    requires Inv(s) && imageIndex < |s.imagesInFlight|
    ensures BeforeSubmit(s, imageIndex).currentFrame == s.currentFrame
    ensures BeforeSubmit(s, imageIndex).inFlight == s.inFlight
    ensures DrawFrameStep(s, imageIndex, true).state == Advance(BeforeSubmit(s, imageIndex), imageIndex)
  {
  }

  /** The calls `drawFrame` makes, apart from the state it leaves. */
  lemma DrawFrameEvents(s: Sync, imageIndex: nat, submitOk: bool)
    requires Inv(s) && imageIndex < |s.imagesInFlight|
    ensures DrawFrameStep(s, imageIndex, submitOk).events
            == BeforeSubmitEvents(s, imageIndex) + SubmitEvents(s, imageIndex, submitOk)
  {
  }

  /** `drawFrame` with the image index the swapchain hands back and the
      result of vkQueueSubmit as inputs. */
  ghost function DrawFrameStep(s: Sync, imageIndex: nat, submitOk: bool): (o: Outcome)
    requires Inv(s) && imageIndex < |s.imagesInFlight|
  {
    var cf := s.currentFrame;
    var f := s.inFlight[cf];
    var s3 := BeforeSubmit(s, imageIndex);
    var events := BeforeSubmitEvents(s, imageIndex) + SubmitEvents(s, imageIndex, submitOk);
    if !submitOk then
      Outcome(s3, events, false)
    else
      Outcome(s3.(pending := s3.pending[f := imageIndex], currentFrame := (cf + 1) % K), events, true)
  }

  /** Index of the first fence wait in `events`, or |events| if none. */
  function FirstWaitIndex(events: seq<Event>): (k: nat)
    ensures k <= |events|
    ensures forall j :: 0 <= j < k ==> !events[j].FenceWaited?
    ensures k < |events| ==> events[k].FenceWaited?
  {
    if events == [] then 0
    else if events[0].FenceWaited? then 0
    else 1 + FirstWaitIndex(events[1..])
  }

  /** The uniform slots written before the first fence wait. */
  function SlotsWrittenBeforeWait(events: seq<Event>): (slots: set<nat>)
  {
    if events == [] || events[0].FenceWaited? then {}
    else EventSlots(events[0]) + SlotsWrittenBeforeWait(events[1..])
  }

  function EventSlots(e: Event): (slots: set<nat>)
    ensures forall slot :: slot in slots <==> e == ObjectUniformsWritten(slot) || e == FrameUniformsWritten(slot)
  {
    match e
    case ObjectUniformsWritten(slot) => {slot}
    case FrameUniformsWritten(slot) => {slot}
    case _ => {}
  }

  /** Events a and b both occur, a strictly earlier. */
  predicate Precedes(events: seq<Event>, a: Event, b: Event)
  {
    exists i, j :: 0 <= i < j < |events| && events[i] == a && events[j] == b
  }

  // ---------------------------------------------------------------- lemmas

  /** Every frame keeps the invariant, whether or not the submit succeeds. */
  lemma DrawFramePreservesInv(s: Sync, imageIndex: nat, submitOk: bool)
    requires Inv(s) && imageIndex < |s.imagesInFlight|
    ensures Inv(DrawFrameStep(s, imageIndex, submitOk).state)
  {
    var o := DrawFrameStep(s, imageIndex, submitOk).state;
    var f := s.inFlight[s.currentFrame];
    assert f in s.inFlight;
    forall i | 0 <= i < |o.imagesInFlight|
      ensures o.imagesInFlight[i] == NULL_HANDLE || o.imagesInFlight[i] in o.inFlight
    {
      if i != imageIndex {
        assert o.imagesInFlight[i] == s.imagesInFlight[i];
      }
    }
  }

  /** `currentFrame` advances round-robin on a completed frame, stays put when
      the submit threw, and is always a valid slot. */
  lemma DrawFrameAdvancesSlot(s: Sync, imageIndex: nat, submitOk: bool)
    requires Inv(s) && imageIndex < |s.imagesInFlight|
    ensures var o := DrawFrameStep(s, imageIndex, submitOk);
      o.submitted == submitOk &&
      o.state.currentFrame == (if submitOk then (s.currentFrame + 1) % K else s.currentFrame) &&
      o.state.currentFrame < K
  {
  }

  /** The slot fence is waited for before the image is acquired. */
  lemma WaitBeforeAcquire(s: Sync, imageIndex: nat, submitOk: bool)
    requires Inv(s) && imageIndex < |s.imagesInFlight|
    ensures var cf := s.currentFrame;
      Precedes(DrawFrameStep(s, imageIndex, submitOk).events,
               FenceWaited(s.inFlight[cf]), ImageAcquired(s.imageAvailable[cf], imageIndex))
  {
    var e := DrawFrameStep(s, imageIndex, submitOk).events;
    assert e[2] == FenceWaited(s.inFlight[s.currentFrame]);
    assert e[3] == ImageAcquired(s.imageAvailable[s.currentFrame], imageIndex);
  }

  /** A non-null claim is waited for, after the image is acquired. */
  lemma ClaimWaited(s: Sync, imageIndex: nat, submitOk: bool)
    requires Inv(s) && imageIndex < |s.imagesInFlight|
    ensures var e := DrawFrameStep(s, imageIndex, submitOk).events;
      var claim := s.imagesInFlight[imageIndex];
      claim != NULL_HANDLE <==>
        Precedes(e, ImageAcquired(s.imageAvailable[s.currentFrame], imageIndex), FenceWaited(claim))
  {
    var e := DrawFrameStep(s, imageIndex, submitOk).events;
    var claim := s.imagesInFlight[imageIndex];
    if claim != NULL_HANDLE {
      assert e[3] == ImageAcquired(s.imageAvailable[s.currentFrame], imageIndex);
      assert e[4] == FenceWaited(claim);
    } else {
      assert forall j :: 0 <= j < |e| ==> e[j] != FenceWaited(claim);
    }
  }

  /** When the acquired image is claimed by the slot's own fence, that fence
      is waited for twice; otherwise once. */
  lemma OwnClaimWaitedTwice(s: Sync, imageIndex: nat, submitOk: bool)
    requires Inv(s) && imageIndex < |s.imagesInFlight|
    ensures var e := DrawFrameStep(s, imageIndex, submitOk).events;
      var f := s.inFlight[s.currentFrame];
      multiset(e)[FenceWaited(f)] == if s.imagesInFlight[imageIndex] == f then 2 else 1
  {
    var f := s.inFlight[s.currentFrame];
    var pre := BeforeSubmitEvents(s, imageIndex);
    var tail := SubmitEvents(s, imageIndex, submitOk);
    DrawFrameEvents(s, imageIndex, submitOk);
    WaitsBeforeSubmit(s, imageIndex);
    assert FenceWaited(f) !in tail;
    assert multiset(pre + tail) == multiset(pre) + multiset(tail);
  }

  /** Before the submit, the slot fence is waited for once, and once more
      when it is also the image's claim. */
  lemma WaitsBeforeSubmit(s: Sync, imageIndex: nat)
    requires Inv(s) && imageIndex < |s.imagesInFlight|
    ensures var f := s.inFlight[s.currentFrame];
      multiset(BeforeSubmitEvents(s, imageIndex))[FenceWaited(f)] == if s.imagesInFlight[imageIndex] == f then 2 else 1
  {
    var f := s.inFlight[s.currentFrame];
    assert f != NULL_HANDLE;
  }

  /** After the frame the acquired image is claimed by the slot fence and no
      other claim changes. */
  lemma ImageClaimedBySlotFence(s: Sync, imageIndex: nat, submitOk: bool)
    requires Inv(s) && imageIndex < |s.imagesInFlight|
    ensures var o := DrawFrameStep(s, imageIndex, submitOk).state;
      |o.imagesInFlight| == |s.imagesInFlight| &&
      o.imagesInFlight[imageIndex] == s.inFlight[s.currentFrame] &&
      forall i :: 0 <= i < |s.imagesInFlight| && i != imageIndex ==>
        o.imagesInFlight[i] == s.imagesInFlight[i]
  {
  }

  /** On a completed frame the slot fence is reset right before the submit
      that carries it, the submitted command buffer is the one of the
      acquired image, and the image is then presented; a failed submit makes
      neither a submit nor a present. */
  lemma ResetThenSubmit(s: Sync, imageIndex: nat, submitOk: bool)
    requires Inv(s) && imageIndex < |s.imagesInFlight|
    ensures var o := DrawFrameStep(s, imageIndex, submitOk);
      var cf := s.currentFrame;
      var f := s.inFlight[cf];
      if submitOk then
        |o.events| >= 3 &&
        o.events[|o.events| - 3] == FenceReset(f) &&
        o.events[|o.events| - 2] ==
          Submitted(s.commandBuffers[imageIndex], s.imageAvailable[cf], s.renderFinished[cf], f) &&
        o.events[|o.events| - 1] == Presented(s.renderFinished[cf], imageIndex)
      else
        o.events[|o.events| - 1] == FenceReset(f) &&
        (forall j :: 0 <= j < |o.events| ==> !o.events[j].Submitted? && !o.events[j].Presented?)
  {
  }

  /** Each frame writes uniform slot 0, and only slot 0, before its first
      fence wait. */
  lemma UniformsWrittenBeforeWait(s: Sync, imageIndex: nat, submitOk: bool)
    requires Inv(s) && imageIndex < |s.imagesInFlight|
    ensures SlotsWrittenBeforeWait(DrawFrameStep(s, imageIndex, submitOk).events) == {0}
  {
    var e := DrawFrameStep(s, imageIndex, submitOk).events;
    assert e[0] == ObjectUniformsWritten(0) && e[1] == FrameUniformsWritten(0) && e[2].FenceWaited?;
    assert e[1..][1..] == e[2..];
    assert SlotsWrittenBeforeWait(e[2..]) == {};
  }

  /** The race on uniform slot 0: after one completed frame whose command
      buffers all read slot 0, that frame's work is still pending under its
      fence when the next frame writes slot 0, and the next frame's first
      wait is on the other slot's fence, so it does not wait for that work. */
  lemma NextFrameOverwritesPendingSlot(s: Sync, imageIndex: nat, nextImage: nat, nextSubmitOk: bool)
    requires Inv(s) && imageIndex < |s.imagesInFlight| && AllBind(s, 0)
    ensures var s1 := DrawFrameStep(s, imageIndex, true).state;
      Inv(s1) && PendingReads(s1, 0) &&
      (nextImage < |s1.imagesInFlight| ==>
        var e := DrawFrameStep(s1, nextImage, nextSubmitOk).events;
        0 in SlotsWrittenBeforeWait(e) && FirstWaitIndex(e) < |e| &&
        e[FirstWaitIndex(e)] == FenceWaited(s1.inFlight[s1.currentFrame]) &&
        s1.inFlight[s1.currentFrame] != s.inFlight[s.currentFrame] &&
        s.inFlight[s.currentFrame] in s1.pending)
  {
    var s1 := DrawFrameStep(s, imageIndex, true).state;
    var f := s.inFlight[s.currentFrame];
    DrawFramePreservesInv(s, imageIndex, true);
    DrawFrameAdvancesSlot(s, imageIndex, true);
    assert s1.inFlight == s.inFlight;
    assert f in s1.pending && s1.pending[f] == imageIndex;
    assert s1.boundSlots[imageIndex] == Some(0);
    assert s1.currentFrame != s.currentFrame;
    if nextImage < |s1.imagesInFlight| {
      UniformsWrittenBeforeWait(s1, nextImage, nextSubmitOk);
      FirstWaitIsSlotFence(s1, nextImage, nextSubmitOk);
    }
  }

  /** A frame's first fence wait is the third call it makes, on its slot's
      fence. */
  lemma FirstWaitIsSlotFence(s: Sync, imageIndex: nat, submitOk: bool)
    requires Inv(s) && imageIndex < |s.imagesInFlight|
    ensures var e := DrawFrameStep(s, imageIndex, submitOk).events;
      FirstWaitIndex(e) == 2 && |e| > 2 && e[2] == FenceWaited(s.inFlight[s.currentFrame])
  {
    DrawFrameEvents(s, imageIndex, submitOk);
    var e := DrawFrameStep(s, imageIndex, submitOk).events;
    assert e[0] == ObjectUniformsWritten(0) && e[1] == FrameUniformsWritten(0);
    assert e[2] == FenceWaited(s.inFlight[s.currentFrame]);
    assert FirstWaitIndex(e[2..]) == 0;
    assert e[1..][1..] == e[2..];
  }

  /** How many of `createSyncObjects`' 3K create calls succeed when call
      `failAt` (numbered in call order) is the first to fail. */
  function SucceedingCreates(failAt: Option<nat>): (c: nat)
    ensures c <= 3 * K
    ensures failAt.None? ==> c == 3 * K
    ensures failAt.Some? ==> c == Min(failAt.value, 3 * K)
  {
    if failAt.None? then 3 * K else Min(failAt.value, 3 * K)
  }

  /** Exactly the first `c` of `createSyncObjects`' create calls made their
      objects (slot k makes calls 3k, 3k+1 and 3k+2); every later entry is
      null. */
  ghost predicate MadeFirst(available: seq<Handle>, finished: seq<Handle>, fences: seq<Handle>, c: nat)
  {
    && |available| == |finished| == |fences| == K
    && forall k :: 0 <= k < K ==>
         && (available[k] != NULL_HANDLE <==> 3 * k < c)
         && (finished[k] != NULL_HANDLE <==> 3 * k + 1 < c)
         && (fences[k] != NULL_HANDLE <==> 3 * k + 2 < c)
  }

  /** Filling slot i with the first `made` of its three objects extends the
      made prefix by `made` calls. */
  lemma MadeFirstStep(available: seq<Handle>, finished: seq<Handle>, fences: seq<Handle>, i: nat,
                      a: Handle, f: Handle, fe: Handle, made: nat)
    requires i < K && made <= 3 && MadeFirst(available, finished, fences, 3 * i)
    requires (a != NULL_HANDLE <==> made >= 1) && (f != NULL_HANDLE <==> made >= 2)
    requires fe != NULL_HANDLE <==> made >= 3
    ensures MadeFirst(available[i := a], finished[i := f], fences[i := fe], 3 * i + made)
  {
  }

  /** `VulkanApplication`'s synchronisation members. */
  class Application {
    var imageAvailableSemaphores: seq<Handle>
    var renderFinishedSemaphores: seq<Handle>
    var inFlightFences: seq<Handle>
    var imagesInFlight: seq<Handle>
    var commandBuffers: seq<Handle>
    var boundSlots: seq<Option<nat>>
    var currentFrame: nat
    var pending: map<Handle, nat>
    var trace: seq<Event>
    const device: Device

    ghost function Snapshot(): (s: Sync)
      reads this, device
    {
      Sync(imageAvailableSemaphores, renderFinishedSemaphores, inFlightFences, imagesInFlight,
           commandBuffers, boundSlots, currentFrame, device.signalled, pending)
    }

    ghost predicate Valid()
      reads this, device
    {
      device.Valid() && Inv(Snapshot())
    }

    constructor (device: Device)
      ensures this.device == device && currentFrame == 0 && pending == map[] && trace == []
      ensures imageAvailableSemaphores == renderFinishedSemaphores == inFlightFences == []
      ensures imagesInFlight == commandBuffers == [] && boundSlots == []
    {
      this.device := device;
      imageAvailableSemaphores, renderFinishedSemaphores, inFlightFences := [], [], [];
      imagesInFlight, commandBuffers, boundSlots := [], [], [];
      currentFrame := 0;
      pending := map[];
      trace := [];
    }

    /** `createCommandBuffers`: one fresh, not yet recorded command buffer per
        framebuffer. `allocateOk` is whether vkAllocateCommandBuffers
        succeeds; when it fails the call throws, and the Vulkan specification
        has every entry of the array set to VK_NULL_HANDLE. */
    method CreateCommandBuffers(framebufferCount: nat, allocateOk: bool) returns (ok: bool)
      requires device.Valid()
      modifies this`commandBuffers, this`boundSlots, device`nextHandle
      ensures ok == allocateOk
      ensures device.Valid() && device.signalled == old(device.signalled)
      ensures |commandBuffers| == framebufferCount && boundSlots == seq(framebufferCount, _ => None)
      ensures ok ==> Distinct(commandBuffers)
      ensures ok ==> forall i :: 0 <= i < framebufferCount ==>
        commandBuffers[i] != NULL_HANDLE && commandBuffers[i] >= old(device.nextHandle)
      ensures !ok ==> device.nextHandle == old(device.nextHandle)
      ensures !ok ==> commandBuffers == seq(framebufferCount, _ => NULL_HANDLE)
    {
      commandBuffers := seq(framebufferCount, _ => NULL_HANDLE);
      boundSlots := seq(framebufferCount, _ => None);
      if !allocateOk {
        return false;
      }
      var cbs := commandBuffers;
      var i := 0;
      while i < framebufferCount
        invariant 0 <= i <= framebufferCount && |cbs| == framebufferCount
        invariant boundSlots == seq(framebufferCount, _ => None)
        invariant device.Valid() && device.signalled == old(device.signalled)
        invariant old(device.nextHandle) <= device.nextHandle
        invariant forall k :: 0 <= k < i ==> old(device.nextHandle) <= cbs[k] < device.nextHandle
        invariant forall k, j :: 0 <= k < j < i ==> cbs[k] < cbs[j]
      {
        var cb := device.CreateHandle();
        cbs := cbs[i := cb];
        i := i + 1;
      }
      commandBuffers := cbs;
      return true;
    }

    /** `recordCommandBuffers`: every command buffer binds the per-frame set and
        the object set of uniform slot 0. `failAt` is the first command buffer
        whose vkBeginCommandBuffer or vkEndCommandBuffer fails, if any; the loop
        throws there, so the buffers before it are recorded and it and the
        later ones keep their prior recording state (a buffer whose end failed
        is unusable, so it counts as not recorded). */
    method RecordCommandBuffers(failAt: Option<nat>) returns (ok: bool)
      requires |boundSlots| == |commandBuffers|
      modifies this`boundSlots
      ensures ok <==> failAt.None? || failAt.value >= |commandBuffers|
      ensures |boundSlots| == |commandBuffers|
      ensures forall i :: 0 <= i < |boundSlots| ==>
        boundSlots[i] == (if ok || i < failAt.value then Some(0) else old(boundSlots)[i])
    {
      var i := 0;
      while i < |commandBuffers|
        invariant 0 <= i <= |commandBuffers| == |boundSlots|
        invariant failAt.Some? ==> i <= failAt.value
        invariant forall k :: 0 <= k < i ==> boundSlots[k] == Some(0)
        invariant forall k :: i <= k < |boundSlots| ==> boundSlots[k] == old(boundSlots)[k]
      {
        if failAt == Some(i) {
          return false;
        }
        boundSlots := boundSlots[i := Some(0)];
        i := i + 1;
      }
      return true;
    }

    /** `createSyncObjects`: K image-available and K render-finished semaphores,
        K fences created signalled, and an all-null claim table with one entry
        per framebuffer. The create calls are numbered in call order (slot k
        makes calls 3k, 3k+1, 3k+2: semaphore, semaphore, fence); `failAt` is
        the first call that fails, if any. The `or` stops at that call and the
        loop throws, so exactly the calls before it create objects and the
        rest of the arrays stay null. */
    method CreateSyncObjects(framebufferCount: nat, failAt: Option<nat>) returns (ok: bool)
      requires device.Valid() && currentFrame < K && pending == map[]
      requires |commandBuffers| == |boundSlots| == framebufferCount
      modifies this`imageAvailableSemaphores, this`renderFinishedSemaphores, this`inFlightFences,
               this`imagesInFlight, device
      ensures ok <==> SucceedingCreates(failAt) == 3 * K
      ensures ok ==> Valid()
      ensures device.Valid()
      ensures MadeFirst(imageAvailableSemaphores, renderFinishedSemaphores, inFlightFences, SucceedingCreates(failAt))
      ensures forall k :: 0 <= k < K && inFlightFences[k] != NULL_HANDLE ==>
        && inFlightFences[k] !in old(device.signalled)
        && inFlightFences[k] in device.signalled && device.signalled[inFlightFences[k]]
      ensures forall h :: h in old(device.signalled) ==>
        h in device.signalled && device.signalled[h] == old(device.signalled)[h]
      ensures imagesInFlight == seq(framebufferCount, _ => NULL_HANDLE)
    {
      imagesInFlight := seq(framebufferCount, _ => NULL_HANDLE);
      var available, finished, fences;
      ok, available, finished, fences := CreateSlots(failAt);
      imageAvailableSemaphores, renderFinishedSemaphores, inFlightFences := available, finished, fences;
    }

    /** The loop of `createSyncObjects`, over arrays that start all null: slot
        by slot until a create call fails. */
    method CreateSlots(failAt: Option<nat>) returns (ok: bool, available: seq<Handle>, finished: seq<Handle>, fences: seq<Handle>)
      requires device.Valid()
      modifies device
      ensures device.Valid()
      ensures ok <==> SucceedingCreates(failAt) == 3 * K
      ensures MadeFirst(available, finished, fences, SucceedingCreates(failAt))
      ensures forall k :: 0 <= k < K && fences[k] != NULL_HANDLE ==>
        old(device.nextHandle) <= fences[k] < device.nextHandle &&
        fences[k] in device.signalled && device.signalled[fences[k]]
      ensures forall k, j :: 0 <= k < j < K && fences[j] != NULL_HANDLE ==> fences[k] < fences[j]
      ensures forall h :: h in old(device.signalled) ==>
        h in device.signalled && device.signalled[h] == old(device.signalled)[h]
    {
      available, finished, fences := seq(K, _ => NULL_HANDLE), seq(K, _ => NULL_HANDLE), seq(K, _ => NULL_HANDLE);
      ghost var c := SucceedingCreates(failAt);
      var i := 0;
      while i < K
        invariant 0 <= i <= K && device.Valid() && 3 * i <= c
        invariant old(device.nextHandle) <= device.nextHandle
        invariant MadeFirst(available, finished, fences, 3 * i)
        invariant forall k :: 0 <= k < i ==>
          old(device.nextHandle) <= fences[k] < device.nextHandle &&
          fences[k] in device.signalled && device.signalled[fences[k]]
        invariant forall k, j :: 0 <= k < j < i ==> fences[k] < fences[j]
        invariant forall h :: h in old(device.signalled) ==>
          h in device.signalled && device.signalled[h] == old(device.signalled)[h]
      {
        var a, f, fe := CreateSlotObjects(i, failAt);
        ghost var made := if fe != NULL_HANDLE then 3 else if f != NULL_HANDLE then 2
                          else if a != NULL_HANDLE then 1 else 0;
        MadeFirstStep(available, finished, fences, i, a, f, fe, made);
        available, finished, fences := available[i := a], finished[i := f], fences[i := fe];
        if fe == NULL_HANDLE {
          assert c == 3 * i + made;
          return false, available, finished, fences;
        }
        i := i + 1;
      }
      return true, available, finished, fences;
    }

    /** One pass of `createSyncObjects`' loop: the `or` makes the three create
        calls of slot `i` left to right and stops at the first that fails;
        an object whose call fails or is never made stays null. */
    method CreateSlotObjects(i: nat, failAt: Option<nat>) returns (available: Handle, finished: Handle, fence: Handle)
      requires device.Valid()
      modifies device
      ensures device.Valid() && old(device.nextHandle) <= device.nextHandle
      ensures available != NULL_HANDLE <==> failAt != Some(3 * i)
      ensures finished != NULL_HANDLE <==> failAt != Some(3 * i) && failAt != Some(3 * i + 1)
      ensures fence != NULL_HANDLE <==> failAt != Some(3 * i) && failAt != Some(3 * i + 1) && failAt != Some(3 * i + 2)
      ensures fence != NULL_HANDLE ==>
        && old(device.nextHandle) <= fence < device.nextHandle
        && fence in device.signalled && device.signalled[fence]
      ensures forall h :: h in old(device.signalled) ==>
        h in device.signalled && device.signalled[h] == old(device.signalled)[h]
    {
      available, finished, fence := NULL_HANDLE, NULL_HANDLE, NULL_HANDLE;
      if failAt == Some(3 * i) {
        return;
      }
      available := device.CreateHandle();
      if failAt == Some(3 * i + 1) {
        return;
      }
      finished := device.CreateHandle();
      if failAt == Some(3 * i + 2) {
        return;
      }
      fence := device.CreateFence(true);
    }

    /** `updateUbos(frameIdx)`: the object and the per-frame uniforms are both
        written to slot 0. */
    method UpdateUbos(frameIdx: nat)
      modifies this`trace
      ensures trace == old(trace) + UpdateUbosEvents(frameIdx)
    {
      trace := trace + [ObjectUniformsWritten(0), FrameUniformsWritten(0)];
    }

    method WaitAndRetire(f: Handle)
      requires device.Valid() && f in device.signalled
      modifies this`pending, this`trace, device`signalled
      ensures device.Valid() && device.signalled == old(device.signalled)[f := true]
      ensures pending == old(pending) - {f} && trace == old(trace) + [FenceWaited(f)]
    {
      device.WaitForFence(f);
      pending := pending - {f};
      trace := trace + [FenceWaited(f)];
    }

    /** The part of `drawFrame` before vkQueueSubmit. */
    method PrepareFrame(imageIndex: nat)
      requires Valid() && imageIndex < |imagesInFlight|
      modifies this`imagesInFlight, this`pending, this`trace, device`signalled
      ensures device.Valid()
      ensures Snapshot() == BeforeSubmit(old(Snapshot()), imageIndex)
      ensures trace == old(trace) + BeforeSubmitEvents(old(Snapshot()), imageIndex)
    {
      ghost var s := Snapshot();
      ghost var t0 := trace;
      UpdateUbos(0);
      var f := inFlightFences[currentFrame];
      assert f in s.inFlight;
      WaitAndRetire(f);
      assert Snapshot() == Waited(s, f);
      trace := trace + [ImageAcquired(imageAvailableSemaphores[currentFrame], imageIndex)];
      ghost var head := UpdateUbosEvents(0) + [FenceWaited(f), ImageAcquired(s.imageAvailable[s.currentFrame], imageIndex)];
      assert trace == t0 + head;
      var claim := imagesInFlight[imageIndex];
      ghost var claimWait: seq<Event> := if claim != NULL_HANDLE then [FenceWaited(claim)] else [];
      if claim != NULL_HANDLE {
        assert claim in s.inFlight;
        WaitAndRetire(claim);
      }
      assert trace == t0 + (head + claimWait);
      imagesInFlight := imagesInFlight[imageIndex := f];
      device.ResetFence(f);
      trace := trace + [FenceReset(f)];
      assert trace == t0 + (head + claimWait + [FenceReset(f)]);
    }

    /** `drawFrame`, with the acquired image index and the submit result as
        inputs; `submitted` is false when the submit failed and the frame
        threw. */
    method DrawFrame(imageIndex: nat, submitOk: bool) returns (submitted: bool)
      requires Valid() && imageIndex < |imagesInFlight|
      modifies this, device`signalled
      ensures Valid()
      ensures Snapshot() == DrawFrameStep(old(Snapshot()), imageIndex, submitOk).state
      ensures trace == old(trace) + DrawFrameStep(old(Snapshot()), imageIndex, submitOk).events
      ensures submitted == submitOk
    {
      ghost var s := Snapshot();
      ghost var t0 := trace;
      DrawFramePreservesInv(s, imageIndex, submitOk);
      DrawFrameEvents(s, imageIndex, submitOk);
      ghost var o := DrawFrameStep(s, imageIndex, submitOk);
      ghost var before, after := BeforeSubmitEvents(s, imageIndex), SubmitEvents(s, imageIndex, submitOk);
      PrepareFrame(imageIndex);
      if !submitOk {
        assert after == [];
        return false;
      }
      SubmittedIsAdvanced(s, imageIndex);
      SubmitFrame(imageIndex);
      return true;
    }

    /** The end of `drawFrame` once vkQueueSubmit succeeded: record the
        submit and the present, and move to the next frame. */
    method SubmitFrame(imageIndex: nat)
      requires currentFrame < K == |inFlightFences| == |imageAvailableSemaphores| == |renderFinishedSemaphores|
      requires imageIndex < |commandBuffers|
      modifies this`pending, this`trace, this`currentFrame
      ensures Snapshot() == Advance(old(Snapshot()), imageIndex)
      ensures trace == old(trace) +
        [Submitted(commandBuffers[imageIndex], imageAvailableSemaphores[old(currentFrame)],
                   renderFinishedSemaphores[old(currentFrame)], inFlightFences[old(currentFrame)]),
         Presented(renderFinishedSemaphores[old(currentFrame)], imageIndex)]
    {
      var f := inFlightFences[currentFrame];
      pending := pending[f := imageIndex];
      trace := trace + [Submitted(commandBuffers[imageIndex], imageAvailableSemaphores[currentFrame],
                                  renderFinishedSemaphores[currentFrame], f),
                        Presented(renderFinishedSemaphores[currentFrame], imageIndex)];
      currentFrame := (currentFrame + 1) % K;
    }
  }
}
