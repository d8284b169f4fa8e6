/** The per-frame device objects of the bare-`device` revision of `Velo`:
    the command buffers, the binary semaphores and the timeline semaphore,
    and swapchain recreation without depth resources. */
module DeviceObjects {
  import opened Outcomes
  import opened Vk
  import opened Search
  import Swapchain

  const CMD_BUFFER_FAILED := "Failed to allocate cmd buffer"
  const RENDER_SEM_FAILED := "Failed to create render semaphore"
  const PRESENT_SEM_FAILED := "Failed to create present semaphore"
  const TIMELINE_SEM_FAILED := "Failed to create timeline semaphore"

  /** A `vk::ResultValue` whose `has_value()` is false. */
  predicate NoValue(r: VkResult) {
    !r.HasValue()
  }

  /** A semaphore created by the device: binary, or timeline with the
      value it starts at. */
  datatype Semaphore = Binary(id: nat) | Timeline(id: nat, initialValue: nat)

  /** What `allocateCommandBuffers` hands back: the result code and, when it
      has a value, as many primary command buffers as were asked for. */
  datatype Allocated = Allocated(result: VkResult, handles: seq<nat>)

  /** The device objects `Velo` keeps per frame in flight and per swapchain
      image. `made` counts the semaphores created, so each gets its own id. */
  class FrameObjects {
    var cmdBuffers: seq<nat>
    var renderDoneSems: seq<Semaphore>
    var presentCompleteSems: seq<Semaphore>
    var timelineSem: Option<Semaphore>
    var made: nat

    constructor ()
      ensures cmdBuffers == [] && renderDoneSems == [] && presentCompleteSems == [] && timelineSem.None?
    {
      cmdBuffers, renderDoneSems, presentCompleteSems, timelineSem, made := [], [], [], None, 0;
    }

    /** Every semaphore created so far has an id below `made`. */
    ghost predicate IdsBelow()
      reads this
    {
      && (forall k :: 0 <= k < |renderDoneSems| ==> renderDoneSems[k].id < made)
      && (forall k :: 0 <= k < |presentCompleteSems| ==> presentCompleteSems[k].id < made)
    }

    /** `create_command_buffer`: the vector is cleared, then filled with
        `maxFrames` primary buffers; a failed allocation throws and leaves
        it empty. */
    method CreateCommandBuffer(maxFrames: nat, answer: Allocated) returns (err: Option<Error>)
      requires answer.result.HasValue() ==> |answer.handles| == maxFrames
      modifies this
      ensures err.None? <==> answer.result.HasValue()
      ensures err.Some? ==> err.value == VkError(CMD_BUFFER_FAILED, answer.result.Name()) && cmdBuffers == []
      ensures err.None? ==> cmdBuffers == answer.handles && |cmdBuffers| == maxFrames
      ensures renderDoneSems == old(renderDoneSems) && presentCompleteSems == old(presentCompleteSems)
      ensures timelineSem == old(timelineSem) && made == old(made)
    {
      cmdBuffers := [];
      if !answer.result.HasValue() {
        return Some(VkError(CMD_BUFFER_FAILED, answer.result.Name()));
      }
      cmdBuffers := answer.handles;
      return None;
    }

    /** `create_sync_objects`, entered with both binary-semaphore vectors
        empty: one render-done semaphore per swapchain image, then one
        present-complete semaphore per frame in flight, then the single
        timeline semaphore starting at 0. `renderResults[i]`,
        `presentResults[i]` and `timelineResult` are what the device
        answers; the first failure throws with its own message. */
    method CreateSyncObjects(imageCount: nat, maxFrames: nat, renderResults: seq<VkResult>,
                             presentResults: seq<VkResult>, timelineResult: VkResult)
      returns (err: Option<Error>)
      requires renderDoneSems == [] && presentCompleteSems == [] && IdsBelow()
      requires |renderResults| >= imageCount && |presentResults| >= maxFrames
      modifies this
      ensures cmdBuffers == old(cmdBuffers) && IdsBelow()
      ensures Distinct(renderDoneSems + presentCompleteSems)
      ensures forall k :: 0 <= k < |renderDoneSems| ==> renderDoneSems[k].Binary?
      ensures forall k :: 0 <= k < |presentCompleteSems| ==> presentCompleteSems[k].Binary?
      ensures match FirstIndex(renderResults[..imageCount], NoValue)
              case Some(i) =>
                && err == Some(VkError(RENDER_SEM_FAILED, renderResults[i].Name()))
                && |renderDoneSems| == i && presentCompleteSems == [] && timelineSem == old(timelineSem)
              case None =>
                && |renderDoneSems| == imageCount
                && match FirstIndex(presentResults[..maxFrames], NoValue)
                   case Some(i) =>
                     && err == Some(VkError(PRESENT_SEM_FAILED, presentResults[i].Name()))
                     && |presentCompleteSems| == i && timelineSem == old(timelineSem)
                   case None =>
                     && |presentCompleteSems| == maxFrames
                     && (timelineResult.HasValue() ==>
                           && err.None? && timelineSem.Some?
                           && timelineSem.value.Timeline? && timelineSem.value.initialValue == 0
                           && timelineSem.value !in renderDoneSems + presentCompleteSems)
                     && (!timelineResult.HasValue() ==>
                           err == Some(VkError(TIMELINE_SEM_FAILED, timelineResult.Name()))
                           && timelineSem == old(timelineSem))
    {
      err := CreateBinaries(imageCount, renderResults, RENDER_SEM_FAILED, true);
      if err.Some? {
        return;
      }
      err := CreateBinaries(maxFrames, presentResults, PRESENT_SEM_FAILED, false);
      if err.Some? {
        return;
      }
      if !timelineResult.HasValue() {
        return Some(VkError(TIMELINE_SEM_FAILED, timelineResult.Name()));
      }
      timelineSem := Some(Timeline(made, 0));
      made := made + 1;
    }

    /** One of the two loops of `create_sync_objects`: `count` binary
        semaphores appended to `renderDoneSems` (`toRender`) or to
        `presentCompleteSems`, throwing `msg` at the first failure. */
    method CreateBinaries(count: nat, results: seq<VkResult>, msg: string, toRender: bool)
      returns (err: Option<Error>)
      requires |results| >= count && IdsBelow() && Distinct(renderDoneSems + presentCompleteSems)
      modifies this
      ensures cmdBuffers == old(cmdBuffers) && timelineSem == old(timelineSem) && IdsBelow()
      ensures made >= old(made) && Distinct(renderDoneSems + presentCompleteSems)
      ensures toRender ==> presentCompleteSems == old(presentCompleteSems)
      ensures !toRender ==> renderDoneSems == old(renderDoneSems)
      ensures var added := if toRender then |renderDoneSems| - |old(renderDoneSems)|
                           else |presentCompleteSems| - |old(presentCompleteSems)|;
              match FirstIndex(results[..count], NoValue)
              case Some(i) => err == Some(VkError(msg, results[i].Name())) && added == i
              case None => err.None? && added == count
      ensures toRender ==> |renderDoneSems| >= |old(renderDoneSems)| && renderDoneSems[..|old(renderDoneSems)|] == old(renderDoneSems)
      ensures !toRender ==> |presentCompleteSems| >= |old(presentCompleteSems)|
      ensures (forall k :: 0 <= k < |renderDoneSems| ==> renderDoneSems[k].Binary? || k < |old(renderDoneSems)|)
      ensures (forall k :: 0 <= k < |presentCompleteSems| ==> presentCompleteSems[k].Binary? || k < |old(presentCompleteSems)|)
    {
      for i := 0 to count
        invariant forall k :: 0 <= k < i ==> results[k].HasValue()
        invariant cmdBuffers == old(cmdBuffers) && timelineSem == old(timelineSem) && IdsBelow()
        invariant made >= old(made) && Distinct(renderDoneSems + presentCompleteSems)
        invariant toRender ==> presentCompleteSems == old(presentCompleteSems)
        invariant toRender ==> |renderDoneSems| == |old(renderDoneSems)| + i
        invariant toRender ==> renderDoneSems[..|old(renderDoneSems)|] == old(renderDoneSems)
        invariant !toRender ==> renderDoneSems == old(renderDoneSems)
        invariant !toRender ==> |presentCompleteSems| == |old(presentCompleteSems)| + i
        invariant forall k :: 0 <= k < |renderDoneSems| ==> renderDoneSems[k].Binary? || k < |old(renderDoneSems)|
        invariant forall k :: 0 <= k < |presentCompleteSems| ==> presentCompleteSems[k].Binary? || k < |old(presentCompleteSems)|
      {
        if !results[i].HasValue() {
          FirstMissing(results, count, i);
          return Some(VkError(msg, results[i].Name()));
        }
        var s := Binary(made);
        FreshId(renderDoneSems, presentCompleteSems, made, toRender);
        if toRender {
          renderDoneSems := renderDoneSems + [s];
        } else {
          presentCompleteSems := presentCompleteSems + [s];
        }
        made := made + 1;
      }
      NoneMissing(results, count);
      return None;
    }
  }

  /** A semaphore with an id nobody has yet keeps the two vectors free of
      duplicates when pushed onto either. */
  lemma FreshId(render: seq<Semaphore>, present: seq<Semaphore>, id: nat, toRender: bool)
    requires Distinct(render + present)
    requires forall k :: 0 <= k < |render| ==> render[k].id < id
    requires forall k :: 0 <= k < |present| ==> present[k].id < id
    ensures toRender ==> Distinct((render + [Binary(id)]) + present)
    ensures !toRender ==> Distinct(render + (present + [Binary(id)]))
  {
    var s := Binary(id);
    var all := render + present;
    assert forall k :: 0 <= k < |all| ==> all[k].id < id;
    if toRender {
      var r := (render + [s]) + present;
      forall i, j | 0 <= i < j < |r|
        ensures r[i] != r[j]
      {
        if i == |render| {
          assert r[j] == all[j - 1];
        } else if j == |render| {
          assert r[i] == all[i];
        } else {
          assert r[i] == all[if i < |render| then i else i - 1];
          assert r[j] == all[if j < |render| then j else j - 1];
        }
      }
    } else {
      assert render + (present + [s]) == all + [s];
    }
  }

  /** The first result without a value is at `i`. */
  lemma FirstMissing(results: seq<VkResult>, n: nat, i: nat)
    requires i < n <= |results| && !results[i].HasValue()
    requires forall k :: 0 <= k < i ==> results[k].HasValue()
    ensures FirstIndex(results[..n], NoValue) == Some(i)
  {
    assert results[..n][i] == results[i];
    assert forall k :: 0 <= k < i ==> results[..n][k] == results[k];
  }

  /** Every one of the first `n` results has a value. */
  lemma NoneMissing(results: seq<VkResult>, n: nat)
    requires n <= |results| && forall k :: 0 <= k < n ==> results[k].HasValue()
    ensures FirstIndex(results[..n], NoValue) == None
  {
    assert forall k :: 0 <= k < n ==> results[..n][k] == results[k];
  }

  /** `recreate_swapchain` of this revision, once the framebuffer has a
      non-zero size: idle the device, `cleanup_swapchain` (views cleared,
      swapchain released), then `create_swapchain` and
      `create_image_views`. No depth resources are made. */
  method RecreateSwapchain(sc: Swapchain.SwapchainContext, fbWidth: int, fbHeight: int,
                           q: Swapchain.SurfaceQueries, graphicsIdx: nat, presentIdx: nat,
                           answers: Swapchain.SwapchainAnswers, viewResults: nat -> VkResult)
    returns (err: Option<Error>)
    requires fbWidth != 0 && fbHeight != 0
    modifies sc
    ensures sc.depthView == old(sc.depthView)
    ensures sc.events == old(sc.events) + [Swapchain.DeviceWaitIdle, Swapchain.ViewsCleared, Swapchain.SwapchainReleased]
                         + Swapchain.CreateLog(q, graphicsIdx, presentIdx)
                         + (if err.None? then [Swapchain.ViewsCreated(|sc.images|)] else [])
    ensures !Swapchain.CreateSucceeds(q, graphicsIdx, presentIdx, answers) ==> err.Some? && sc.imageViews == []
    ensures err.None? <==> Swapchain.CreateSucceeds(q, graphicsIdx, presentIdx, answers)
                           && Swapchain.ViewsSucceed(answers.images.value, viewResults)
    ensures err.None? ==> sc.Presentable(q, graphicsIdx, presentIdx, answers)
  {
    sc.events := sc.events + [Swapchain.DeviceWaitIdle];
    sc.Cleanup();
    err := sc.CreateWithViews(q, graphicsIdx, presentIdx, answers, viewResults);
  }
}
