/** The frame-in-flight scheduler: `Velo::draw_frame` with its `SyncContext`
    (velo.cpp), and the older `Vorn::draw_frame` (vorn.cpp).

    Frame N (the value `frameCount` takes on entry) uses slot
    `(N - 1) mod MAX_FRAMES_IN_FLIGHT`, first waits until the timeline
    semaphore reaches `max(0, N - MAX_FRAMES_IN_FLIGHT)`, and on every path
    that does not throw makes the timeline reach exactly N: by a host signal
    when it skips the frame, or by the signal attached to its queue submit.
    Vulkan calls are effects appended to a log; the GPU's asynchronous
    execution is not modelled. */
module FrameScheduler {
  import opened Outcomes
  import opened Vk

  /** The two revisions of the frame loop. */
  datatype Revision = VeloRev | VornRev

  /** The in-flight slot of frame `n`. */
  function Slot(n: nat, maxFrames: nat): (s: nat)
    requires n >= 1 && maxFrames >= 1
    ensures s < maxFrames
  {
    (n - 1) % maxFrames
  }

  /** The timeline value frame `n` waits for before reusing its slot. */
  function WaitValue(n: nat, maxFrames: nat): (w: nat)
    requires maxFrames >= 1
    ensures n >= 1 ==> w < n
    ensures n <= maxFrames ==> w == 0
    ensures n > maxFrames ==> w >= 1 && n - w == maxFrames
  {
    if n > maxFrames then n - maxFrames else 0
  }

  lemma ModOfMultiplePlus(q: nat, m: nat, r: nat)
    requires m >= 1 && r < m
    ensures (q * m + r) % m == r
  {
    var a := q * m + r;
    var q', r' := a / m, a % m;
    assert a == q' * m + r';
    if q' > q {
      assert q' * m >= (q + 1) * m by { MulMono(q + 1, q', m); }
      assert false;
    } else if q' < q {
      assert q * m >= (q' + 1) * m by { MulMono(q' + 1, q, m); }
      assert false;
    }
  }

  lemma MulMono(a: nat, b: nat, m: nat)
    requires a <= b
    ensures a * m <= b * m
  {
  }

  /** Two frames that are fewer than `maxFrames` apart use different slots. */
  lemma NearFramesUseDifferentSlots(m: nat, n: nat, maxFrames: nat)
    requires maxFrames >= 1 && 1 <= m < n && n - m < maxFrames
    ensures Slot(m, maxFrames) != Slot(n, maxFrames)
  {
    var q, r := (m - 1) / maxFrames, (m - 1) % maxFrames;
    var d := n - m;
    assert m - 1 == q * maxFrames + r;
    if r + d < maxFrames {
      assert n - 1 == q * maxFrames + (r + d);
      ModOfMultiplePlus(q, maxFrames, r + d);
    } else {
      assert n - 1 == (q + 1) * maxFrames + (r + d - maxFrames);
      ModOfMultiplePlus(q + 1, maxFrames, r + d - maxFrames);
    }
  }

  /** The value frame `n` waits for is the most recent earlier frame that
      used the same slot, or 0 when no earlier frame used it: a slot is never
      reused before the GPU has finished the frame that last used it. */
  lemma {:induction false} WaitTargetsPreviousUserOfSlot(n: nat, maxFrames: nat)
    requires n >= 1 && maxFrames >= 1
    ensures var w := WaitValue(n, maxFrames);
      (w == 0 <==> forall m :: 1 <= m < n ==> Slot(m, maxFrames) != Slot(n, maxFrames)) &&
      (w > 0 ==> Slot(w, maxFrames) == Slot(n, maxFrames)) &&
      (forall m :: w < m < n ==> Slot(m, maxFrames) != Slot(n, maxFrames))
  {
    var w := WaitValue(n, maxFrames);
    if w > 0 {
      var q, r := (w - 1) / maxFrames, (w - 1) % maxFrames;
      assert w - 1 == q * maxFrames + r;
      assert n - 1 == (q + 1) * maxFrames + r;
      ModOfMultiplePlus(q + 1, maxFrames, r);
      assert Slot(w, maxFrames) == Slot(n, maxFrames);
      assert 1 <= w < n;
    }
    forall m | w < m < n && m >= 1
      ensures Slot(m, maxFrames) != Slot(n, maxFrames)
    {
      NearFramesUseDifferentSlots(m, n, maxFrames);
    }
  }

  /** One call made on the logical device or its queues by the frame loop. */
  datatype FrameEffect =
    | WaitTimeline(value: nat)
    | RecreateSwapchain
    | HostSignal(value: nat)
    | UpdateUniforms(slot: nat)
    | AcquireImage(slot: nat)
    | RecordCommands(slot: nat, image: nat)
      /** waits on the slot's acquire semaphore, signals the image's
          render-done semaphore and the timeline with `timelineValue` */
    | Submit(waitSlot: nat, signalImage: nat, timelineValue: nat)
    | Present(image: nat)

  /** What the environment answers during one call: the timeline wait's
      result, the acquire result and image index, the present result, and
      the outcome of a swapchain recreation if the call makes one (`None`
      when it succeeds, otherwise the error it raises: see
      `Swapchain.SwapchainContext.Recreate` and
      `DeviceObjects.RecreateSwapchain`). */
  datatype FrameInput = FrameInput(wait: VkResult, acquire: VkResult, image: nat, present: VkResult,
                                   recreateError: Option<Error>)

  /** What one call does: its effects in order, the exception it throws if
      any, and `frameBuffResized` afterwards. */
  datatype FrameStep = FrameStep(effects: seq<FrameEffect>, error: Option<Error>, resizedAfter: bool)

  /** The values signalled on the timeline semaphore by a log of effects. */
  function TimelineSignals(effects: seq<FrameEffect>): (vs: seq<nat>)
  {
    if effects == [] then []
    else
      var first := match effects[0]
        case HostSignal(v) => [v]
        case Submit(_, _, v) => [v]
        case _ => [];
      first + TimelineSignals(effects[1..])
  }

  /** How many times a log of effects recreates the swapchain. */
  function Recreations(effects: seq<FrameEffect>): (k: nat)
  {
    if effects == [] then 0
    else (if effects[0].RecreateSwapchain? then 1 else 0) + Recreations(effects[1..])
  }

  lemma {:induction false} TimelineSignalsAppend(a: seq<FrameEffect>, b: seq<FrameEffect>)
    ensures TimelineSignals(a + b) == TimelineSignals(a) + TimelineSignals(b)
    ensures Recreations(a + b) == Recreations(a) + Recreations(b)
  {
    if a != [] {
      assert (a + b)[1..] == a[1..] + b;
      TimelineSignalsAppend(a[1..], b);
    } else {
      assert a + b == b;
    }
  }

  /** `[c + 1, c + 2, ..., c + k]` */
  function Consecutive(c: nat, k: nat): (s: seq<nat>)
    ensures |s| == k
    ensures forall i :: 0 <= i < k ==> s[i] == c + 1 + i
  {
    seq(k, i => c + 1 + i)
  }

  lemma ConsecutiveCons(c: nat, k: nat)
    requires k >= 1
    ensures Consecutive(c, k) == [c + 1] + Consecutive(c + 1, k - 1)
  {
  }

  lemma ConsecutiveSnoc(c: nat, k: nat)
    ensures Consecutive(c, k + 1) == Consecutive(c, k) + [c + k + 1]
  {
  }

  const VELO_WAIT_FAILED := "Failed to wait for semaphore"
  const VORN_WAIT_FAILED := "Failed to wait on timeline semaphore"
  const ACQUIRE_FAILED := "Failed to acquire next swapchain image"
  const PRESENT_FAILED := "Failed to present frame"
  const TIMELINE_CREATE_FAILED := "Failed to create timeline semaphore"

  function WaitFailureMessage(rev: Revision): string {
    if rev == VeloRev then VELO_WAIT_FAILED else VORN_WAIT_FAILED
  }

  /** One call of `draw_frame` claiming timeline value `n`, for the given
      revision, with `resized` the value of `frameBuffResized` on entry. */
  function Frame(rev: Revision, n: nat, maxFrames: nat, resized: bool, input: FrameInput): FrameStep
    requires n >= 1 && maxFrames >= 1
  {
    var waited := [WaitTimeline(WaitValue(n, maxFrames))];
    if input.wait != Success then
      FrameStep(waited, Some(VkError(WaitFailureMessage(rev), input.wait.Name())), resized)
    else
      var rest := AfterWait(rev, n, Slot(n, maxFrames), resized, input);
      FrameStep(waited + rest.effects, rest.error, rest.resizedAfter)
  }

  /** Skipping the frame: recreate the swapchain and host-signal `n`, so
      that the next frame's wait is satisfied and no value is skipped. A
      recreation that raises leaves before the signal. */
  function Skip(n: nat, recreateError: Option<Error>): FrameStep {
    if recreateError.Some? then FrameStep([RecreateSwapchain], recreateError, false)
    else FrameStep([RecreateSwapchain, HostSignal(n)], None, false)
  }

  /** The rest of the call once the wait succeeded: a pending resize skips
      the frame; otherwise update the slot's uniforms and acquire an image. */
  function AfterWait(rev: Revision, n: nat, slot: nat, resized: bool, input: FrameInput): FrameStep {
    if resized then Skip(n, input.recreateError)
    else
      var rest := AfterAcquire(rev, n, slot, input);
      FrameStep([UpdateUniforms(slot), AcquireImage(slot)] + rest.effects, rest.error, false)
  }

  /** The reaction to the acquire result. `Velo` treats out-of-date like a
      resize and remembers a suboptimal acquire, which has no value but
      passes its `!recreate` guard; `Vorn` first throws on any result
      without a value, which includes out-of-date and suboptimal. */
  function AfterAcquire(rev: Revision, n: nat, slot: nat, input: FrameInput): FrameStep {
    var acqError := Some(VkError(ACQUIRE_FAILED, input.acquire.Name()));
    match rev
    case VeloRev =>
      var recreate := input.acquire == Suboptimal;
      if input.acquire == OutOfDate then Skip(n, input.recreateError)
      else if !input.acquire.HasValue() && !recreate then FrameStep([], acqError, false)
      else Presented(slot, n, input, recreate)
    case VornRev =>
      if !input.acquire.HasValue() then FrameStep([], acqError, false)
      else if input.acquire == OutOfDate then Skip(n, input.recreateError)
      else Presented(slot, n, input, false)
  }

  /** Record, submit and present the acquired image, then react to the
      present result; `recreate` is a recreation already decided at acquire.
      A recreation that raises makes the call raise after the submit. */
  function Presented(slot: nat, n: nat, input: FrameInput, recreate: bool): FrameStep {
    var img := input.image;
    var presented := [RecordCommands(slot, img), Submit(slot, img, n), Present(img)];
    if input.present == OutOfDate || input.present == Suboptimal || recreate then
      FrameStep(presented + [RecreateSwapchain], input.recreateError, false)
    else if input.present != Success then
      FrameStep(presented, Some(VkError(PRESENT_FAILED, input.present.Name())), false)
    else
      FrameStep(presented, None, false)
  }

  /** Effects that neither signal the timeline nor recreate the swapchain. */
  predicate Quiet(effects: seq<FrameEffect>) {
    forall i :: 0 <= i < |effects| ==> !effects[i].HostSignal? && !effects[i].Submit? && !effects[i].RecreateSwapchain?
  }

  lemma {:induction false} QuietCounts(effects: seq<FrameEffect>)
    requires Quiet(effects)
    ensures TimelineSignals(effects) == [] && Recreations(effects) == 0
  {
    if effects != [] {
      QuietCounts(effects[1..]);
    }
  }

  lemma SingleCounts(e: FrameEffect)
    ensures TimelineSignals([e]) == (if e.HostSignal? then [e.value] else if e.Submit? then [e.timelineValue] else [])
    ensures Recreations([e]) == (if e.RecreateSwapchain? then 1 else 0)
  {
    assert [e][1..] == [];
  }

  lemma SkipCounts(n: nat, recreateError: Option<Error>)
    ensures var step := Skip(n, recreateError);
      TimelineSignals(step.effects) == (if recreateError.None? then [n] else []) &&
      Recreations(step.effects) == 1 && step.error == recreateError
  {
    SingleCounts(RecreateSwapchain);
    SingleCounts(HostSignal(n));
    TimelineSignalsAppend([RecreateSwapchain], [HostSignal(n)]);
    assert [RecreateSwapchain] + [HostSignal(n)] == Skip(n, None).effects;
  }

  lemma PresentedCounts(slot: nat, n: nat, input: FrameInput, recreate: bool)
    ensures var step := Presented(slot, n, input, recreate);
      TimelineSignals(step.effects) == [n] &&
      Recreations(step.effects) == (if RecreateSwapchain in step.effects then 1 else 0)
  {
    var img := input.image;
    var t := [RecordCommands(slot, img), Submit(slot, img, n), Present(img)];
    assert t[1..][1..][1..] == [];
    assert TimelineSignals(t[1..][1..]) == [] && Recreations(t[1..][1..]) == 0;
    assert TimelineSignals(t[1..]) == [n] && Recreations(t[1..]) == 0;
    if input.present == OutOfDate || input.present == Suboptimal || recreate {
      SingleCounts(RecreateSwapchain);
      TimelineSignalsAppend(t, [RecreateSwapchain]);
    }
  }

  lemma AfterAcquireCounts(rev: Revision, n: nat, slot: nat, input: FrameInput)
    ensures var step := AfterAcquire(rev, n, slot, input);
      (step.error.None? ==> TimelineSignals(step.effects) == [n]) &&
      (step.error.Some? ==> TimelineSignals(step.effects) == [] || TimelineSignals(step.effects) == [n]) &&
      Recreations(step.effects) == (if RecreateSwapchain in step.effects then 1 else 0)
  {
    var step := AfterAcquire(rev, n, slot, input);
    var recreate := rev == VeloRev && input.acquire == Suboptimal;
    if step == Skip(n, input.recreateError) {
      SkipCounts(n, input.recreateError);
    } else if step == Presented(slot, n, input, recreate) {
      PresentedCounts(slot, n, input, recreate);
    } else {
      assert step.effects == [];
    }
  }

  lemma AfterWaitCounts(rev: Revision, n: nat, slot: nat, resized: bool, input: FrameInput)
    ensures var step := AfterWait(rev, n, slot, resized, input);
      (step.error.None? ==> TimelineSignals(step.effects) == [n]) &&
      (step.error.Some? ==> TimelineSignals(step.effects) == [] || TimelineSignals(step.effects) == [n]) &&
      Recreations(step.effects) == (if RecreateSwapchain in step.effects then 1 else 0)
  {
    if resized {
      SkipCounts(n, input.recreateError);
    } else {
      var a := [UpdateUniforms(slot), AcquireImage(slot)];
      var rest := AfterAcquire(rev, n, slot, input);
      QuietCounts(a);
      AfterAcquireCounts(rev, n, slot, input);
      TimelineSignalsAppend(a, rest.effects);
    }
  }

  /** Every call that does not throw signals the timeline exactly once, with
      its own value `n`; a call that throws signals it at most once, with
      `n`. The first effect of every call is the wait for the slot, and a
      call recreates the swapchain at most once. */
  lemma FrameSignalsItsOwnValue(rev: Revision, n: nat, maxFrames: nat, resized: bool, input: FrameInput)
    requires n >= 1 && maxFrames >= 1
    ensures var step := Frame(rev, n, maxFrames, resized, input);
      |step.effects| >= 1 && step.effects[0] == WaitTimeline(WaitValue(n, maxFrames)) &&
      (step.error.None? ==> TimelineSignals(step.effects) == [n]) &&
      (step.error.Some? ==> TimelineSignals(step.effects) == [] || TimelineSignals(step.effects) == [n]) &&
      Recreations(step.effects) == (if RecreateSwapchain in step.effects then 1 else 0)
  {
    var w := [WaitTimeline(WaitValue(n, maxFrames))];
    QuietCounts(w);
    var rest := AfterWait(rev, n, Slot(n, maxFrames), resized, input);
    AfterWaitCounts(rev, n, Slot(n, maxFrames), resized, input);
    TimelineSignalsAppend(w, rest.effects);
  }

  /** The slot-bound work of a call (the uniform update, the acquire into
      the slot's semaphore, the recording and the submit) uses the call's own
      slot and comes after the timeline wait, which is the first effect. */
  lemma FrameUsesOwnSlotAfterWait(rev: Revision, n: nat, maxFrames: nat, resized: bool, input: FrameInput)
    requires n >= 1 && maxFrames >= 1
    ensures var step := Frame(rev, n, maxFrames, resized, input);
      var slot := Slot(n, maxFrames);
      step.effects[0].WaitTimeline? &&
      forall i :: 0 < i < |step.effects| ==>
        !step.effects[i].WaitTimeline? &&
        (step.effects[i].UpdateUniforms? ==> step.effects[i].slot == slot) &&
        (step.effects[i].AcquireImage? ==> step.effects[i].slot == slot) &&
        (step.effects[i].RecordCommands? ==> step.effects[i].slot == slot) &&
        (step.effects[i].Submit? ==> step.effects[i].waitSlot == slot && step.effects[i].timelineValue == n)
  {
  }

  /** A pending resize (after a successful wait) skips the frame: the flag
      is cleared, the swapchain recreated and the timeline host-signalled to
      `n`, with no acquire, record, submit or present. When the recreation
      raises, the call raises its error before the signal. */
  lemma ResizeSkipsFrame(rev: Revision, n: nat, maxFrames: nat, input: FrameInput)
    requires n >= 1 && maxFrames >= 1 && input.wait == Success
    ensures input.recreateError.None? ==>
              Frame(rev, n, maxFrames, true, input) ==
              FrameStep([WaitTimeline(WaitValue(n, maxFrames)), RecreateSwapchain, HostSignal(n)], None, false)
    ensures input.recreateError.Some? ==>
              Frame(rev, n, maxFrames, true, input) ==
              FrameStep([WaitTimeline(WaitValue(n, maxFrames)), RecreateSwapchain], input.recreateError, false)
  {
  }

  /** `Velo` handles an out-of-date acquire like a resize (recreate, host
      signal, return, or the recreation's error before the signal); `Vorn`
      throws at its has-value check, so its out-of-date branch is never
      reached. */
  lemma OutOfDateAcquire(n: nat, maxFrames: nat, input: FrameInput)
    requires n >= 1 && maxFrames >= 1 && input.wait == Success && input.acquire == OutOfDate
    ensures var velo := Frame(VeloRev, n, maxFrames, false, input);
      velo.error == input.recreateError && RecreateSwapchain in velo.effects &&
      (input.recreateError.None? ==> velo.effects[|velo.effects| - 2..] == [RecreateSwapchain, HostSignal(n)]) &&
      (input.recreateError.Some? ==> velo.effects[|velo.effects| - 1] == RecreateSwapchain) &&
      forall e :: e in velo.effects ==> !e.Submit? && !e.Present? && !e.RecordCommands?
    ensures var vorn := Frame(VornRev, n, maxFrames, false, input);
      vorn.error.Some? && forall e :: e in vorn.effects ==> !e.RecreateSwapchain? && !e.HostSignal? && !e.Submit?
  {
  }

  /** After an image was acquired (successfully, or in `Velo` also
      suboptimally): the swapchain is recreated after present exactly when
      present reports out-of-date or suboptimal, or (in `Velo` only) the
      acquire was suboptimal, and the call then raises exactly when the
      recreation does; otherwise a non-success present throws. In `Velo` a
      suboptimal acquire therefore also swallows a failed present. */
  lemma PresentDecision(rev: Revision, n: nat, maxFrames: nat, input: FrameInput)
    requires n >= 1 && maxFrames >= 1 && input.wait == Success
    requires input.acquire == Success || (rev == VeloRev && input.acquire == Suboptimal)
    ensures var step := Frame(rev, n, maxFrames, false, input);
      var recreate := input.present in {OutOfDate, Suboptimal} || (rev == VeloRev && input.acquire == Suboptimal);
      var slot := Slot(n, maxFrames);
      |step.effects| >= 6 &&
      step.effects[..6] == [WaitTimeline(WaitValue(n, maxFrames)), UpdateUniforms(slot), AcquireImage(slot),
                            RecordCommands(slot, input.image), Submit(slot, input.image, n), Present(input.image)] &&
      (recreate <==> step.effects[|step.effects| - 1] == RecreateSwapchain) &&
      (recreate ==> step.error == input.recreateError) &&
      (!recreate ==> (step.error.Some? <==> input.present != Success))
  {
  }

  /** The acquire check: a call raises "Failed to acquire next swapchain
      image" with nothing recorded, submitted or recreated exactly when the
      acquire did not succeed and the revision has no branch for it: `Velo`
      goes on after out-of-date and suboptimal, `Vorn` after neither. */
  lemma AcquireDecision(rev: Revision, n: nat, maxFrames: nat, input: FrameInput)
    requires n >= 1 && maxFrames >= 1 && input.wait == Success
    ensures var step := Frame(rev, n, maxFrames, false, input);
      (step.error == Some(VkError(ACQUIRE_FAILED, input.acquire.Name())) &&
       forall e :: e in step.effects ==> !e.RecordCommands? && !e.Submit? && !e.RecreateSwapchain?)
      <==>
      (input.acquire != Success && !(rev == VeloRev && input.acquire in {OutOfDate, Suboptimal}))
  {
    var step := Frame(rev, n, maxFrames, false, input);
    var slot := Slot(n, maxFrames);
    if input.acquire == Success || (rev == VeloRev && input.acquire == Suboptimal) {
      assert step.effects[4] == Submit(slot, input.image, n);
    } else if rev == VeloRev && input.acquire == OutOfDate {
      assert step.effects[3] == RecreateSwapchain;
    }
  }

  /** `frameBufferResizeCb` followed by one call per input: `events[i]` says
      whether a resize was signalled before call `i`. The run stops at the
      first call that throws. */
  function Run(rev: Revision, maxFrames: nat, frameCount: nat, resized: bool,
               events: seq<bool>, inputs: seq<FrameInput>): (r: FrameStep)
    requires maxFrames >= 1 && |events| == |inputs|
    decreases |inputs|
  {
    if inputs == [] then FrameStep([], None, resized)
    else
      var step := Frame(rev, frameCount + 1, maxFrames, resized || events[0], inputs[0]);
      if step.error.Some? then step
      else
        var rest := Run(rev, maxFrames, frameCount + 1, step.resizedAfter, events[1..], inputs[1..]);
        FrameStep(step.effects + rest.effects, rest.error, rest.resizedAfter)
  }

  /** Timeline monotonicity: over any run of calls none of which throws,
      starting after frame `c`, the timeline is signalled with exactly
      `c + 1, c + 2, ...`, one value per call, in order. */
  lemma {:induction false} RunSignalsConsecutiveValues(rev: Revision, maxFrames: nat, c: nat, resized: bool,
                                                        events: seq<bool>, inputs: seq<FrameInput>)
    requires maxFrames >= 1 && |events| == |inputs|
    requires Run(rev, maxFrames, c, resized, events, inputs).error.None?
    ensures TimelineSignals(Run(rev, maxFrames, c, resized, events, inputs).effects) == Consecutive(c, |inputs|)
    decreases |inputs|
  {
    if inputs != [] {
      var step := Frame(rev, c + 1, maxFrames, resized || events[0], inputs[0]);
      FrameSignalsItsOwnValue(rev, c + 1, maxFrames, resized || events[0], inputs[0]);
      var rest := Run(rev, maxFrames, c + 1, step.resizedAfter, events[1..], inputs[1..]);
      RunSignalsConsecutiveValues(rev, maxFrames, c + 1, step.resizedAfter, events[1..], inputs[1..]);
      TimelineSignalsAppend(step.effects, rest.effects);
      ConsecutiveCons(c, |inputs|);
      assert |inputs[1..]| == |inputs| - 1;
      assert TimelineSignals(step.effects + rest.effects) == [c + 1] + Consecutive(c + 1, |inputs| - 1);
      assert Run(rev, maxFrames, c, resized, events, inputs).effects == step.effects + rest.effects;
    }
  }

  /** A frame whose every Vulkan call succeeds. */
  function CleanInput(): FrameInput {
    FrameInput(Success, Success, 0, Success, None)
  }

  /** A call whose wait, acquire, present and any recreation all succeed
      does not throw, and submits its own value from its own slot. */
  lemma CleanFrameSubmits(rev: Revision, n: nat, maxFrames: nat, resized: bool, input: FrameInput)
    requires n >= 1 && maxFrames >= 1
    requires input.wait == Success && input.acquire == Success && input.present == Success
    requires input.recreateError.None?
    ensures var step := Frame(rev, n, maxFrames, resized, input);
      step.error.None? && !step.resizedAfter &&
      (!resized ==> Submit(Slot(n, maxFrames), input.image, n) in step.effects && RecreateSwapchain !in step.effects)
  {
  }

  /** A run of calls whose waits, acquires, presents and recreations all
      succeed never throws, whatever resizes happen in between. */
  lemma {:induction false} CleanRunNeverThrows(rev: Revision, maxFrames: nat, c: nat, resized: bool,
                                                events: seq<bool>, inputs: seq<FrameInput>)
    requires maxFrames >= 1 && |events| == |inputs|
    requires forall i :: 0 <= i < |inputs| ==>
      inputs[i].wait == Success && inputs[i].acquire == Success && inputs[i].present == Success &&
      inputs[i].recreateError.None?
    ensures Run(rev, maxFrames, c, resized, events, inputs).error.None?
    decreases |inputs|
  {
    if inputs != [] {
      CleanFrameSubmits(rev, c + 1, maxFrames, resized || events[0], inputs[0]);
      var step := Frame(rev, c + 1, maxFrames, resized || events[0], inputs[0]);
      CleanRunNeverThrows(rev, maxFrames, c + 1, step.resizedAfter, events[1..], inputs[1..]);
    }
  }

  /** With two frames in flight, five clean calls from a fresh start use the
      slots 0, 1, 0, 1, 0 and signal the timeline with 1, 2, 3, 4, 5, also
      when resizes are signalled between them. */
  lemma FiveFramesTwoInFlight(rev: Revision, events: seq<bool>, inputs: seq<FrameInput>)
    requires |events| == 5 && |inputs| == 5
    requires forall i :: 0 <= i < 5 ==>
      inputs[i].wait == Success && inputs[i].acquire == Success && inputs[i].present == Success &&
      inputs[i].recreateError.None?
    ensures var r := Run(rev, 2, 0, false, events, inputs);
      r.error.None? && TimelineSignals(r.effects) == [1, 2, 3, 4, 5]
    ensures [Slot(1, 2), Slot(2, 2), Slot(3, 2), Slot(4, 2), Slot(5, 2)] == [0, 1, 0, 1, 0]
  {
    CleanRunNeverThrows(rev, 2, 0, false, events, inputs);
    RunSignalsConsecutiveValues(rev, 2, 0, false, events, inputs);
    assert Consecutive(0, 5) == [1, 2, 3, 4, 5];
  }

  /** A resize signalled before the third call makes that call skip its
      work and host-signal 3; the fourth call submits value 4 from slot 1. */
  lemma ResizeBeforeThirdCall()
    ensures var third := Frame(VeloRev, 3, 2, true, CleanInput());
      var fourth := Frame(VeloRev, 4, 2, third.resizedAfter, CleanInput());
      third.effects == [WaitTimeline(1), RecreateSwapchain, HostSignal(3)] &&
      fourth.error.None? && Submit(1, 0, 4) in fourth.effects
  {
    CleanFrameSubmits(VeloRev, 4, 2, false, CleanInput());
  }

  /** A binary semaphore handle. */
  datatype Semaphore = Semaphore(id: nat)

  /** The log of calls the frame loop makes on the logical device and its
      queues. */
  class DeviceLog {
    var effects: seq<FrameEffect>

    constructor ()
      ensures effects == []
    {
      effects := [];
    }

    method Append(more: seq<FrameEffect>)
      modifies this
      ensures effects == old(effects) + more
    {
      effects := effects + more;
    }
  }

  /** `SyncContext`: the timeline semaphore and one render-done ("present")
      semaphore per swapchain image. `signals` is the history of values
      signalled (or scheduled to be signalled) on the timeline semaphore and
      `timeline` the latest of them. */
  class SyncContext {
    const maxFrames: nat
    var presentSems: seq<Semaphore>
    var timelineCreated: bool
    ghost var timeline: nat
    ghost var signals: seq<nat>

    constructor (maxFrames: nat)
      ensures this.maxFrames == maxFrames && presentSems == [] && !timelineCreated
      ensures timeline == 0 && signals == []
    {
      this.maxFrames := maxFrames;
      presentSems := [];
      timelineCreated := false;
      timeline := 0;
      signals := [];
    }

    /** `SyncContext::create`: clear the present semaphores, create the
        timeline semaphore with initial value 0 (throwing if that fails),
        then one present semaphore per swapchain image. */
    method Create(swapchainImgCount: nat, timelineResult: VkResult) returns (err: Option<Error>)
      modifies this
      ensures err.Some? <==> !timelineResult.HasValue()
      ensures err.Some? ==> err.value == VkError(TIMELINE_CREATE_FAILED, timelineResult.Name())
      ensures err.Some? ==> presentSems == [] && timelineCreated == old(timelineCreated)
      ensures err.Some? ==> timeline == old(timeline) && signals == old(signals)
      ensures err.None? ==> timelineCreated && timeline == 0 && signals == [] && |presentSems| == swapchainImgCount
    {
      presentSems := [];
      if !timelineResult.HasValue() {
        return Some(VkError(TIMELINE_CREATE_FAILED, timelineResult.Name()));
      }
      timelineCreated := true;
      timeline := 0;
      signals := [];
      var i := 0;
      while i < swapchainImgCount
        invariant 0 <= i <= swapchainImgCount
        invariant |presentSems| == i
        invariant timelineCreated && timeline == 0 && signals == []
      {
        presentSems := presentSems + [Semaphore(i)];
        i := i + 1;
      }
      return None;
    }

    /** `SyncContext::wait_for_frame`: wait for the timeline to reach
        `WaitValue(frameCount)`; a failed wait throws. */
    method WaitForFrame(device: DeviceLog, frameCount: nat, result: VkResult) returns (err: Option<Error>)
      requires maxFrames >= 1
      modifies device
      ensures device.effects == old(device.effects) + [WaitTimeline(WaitValue(frameCount, maxFrames))]
      ensures err.Some? <==> result != Success
      ensures err.Some? ==> err.value == VkError(VELO_WAIT_FAILED, result.Name())
    {
      var waitValue := 0;
      if frameCount > maxFrames {
        waitValue := frameCount - maxFrames;
      }
      device.Append([WaitTimeline(waitValue)]);
      if result != Success {
        return Some(VkError(VELO_WAIT_FAILED, result.Name()));
      }
      return None;
    }

    /** `SyncContext::signal_timeline`: a host signal, which Vulkan allows
        only with a value greater than the semaphore's current value. */
    method SignalTimeline(device: DeviceLog, value: nat)
      requires value > timeline
      modifies this, device
      ensures device.effects == old(device.effects) + [HostSignal(value)]
      ensures timeline == value && signals == old(signals) + [value]
      ensures presentSems == old(presentSems) && timelineCreated == old(timelineCreated)
    {
      device.Append([HostSignal(value)]);
      timeline := value;
      signals := signals + [value];
    }

    /** A queue submit that signals the timeline with `value` on completion;
        Vulkan requires the value to exceed every value already signalled. */
    method SubmitFrame(device: DeviceLog, slot: nat, image: nat, value: nat)
      requires value > timeline && image < |presentSems|
      modifies this, device
      ensures device.effects == old(device.effects) + [Submit(slot, image, value)]
      ensures timeline == value && signals == old(signals) + [value]
      ensures presentSems == old(presentSems) && timelineCreated == old(timelineCreated)
    {
      device.Append([Submit(slot, image, value)]);
      timeline := value;
      signals := signals + [value];
    }
  }

  /** The scheduler state of `Velo` (or `Vorn`): the frame counter, the
      current slot, the resize flag set by the framebuffer callback, and a
      swapchain generation bumped by every recreation. */
  class Renderer {
    const revision: Revision
    const maxFrames: nat
    const sync: SyncContext
    const device: DeviceLog
    var frameCount: nat
    var frameIdx: nat
    var frameBuffResized: bool
    var swapchainGen: nat

    /** Between calls the timeline has been signalled with exactly
        1, 2, ..., frameCount, in that order, so the next frame's signal is
        legal and its wait refers to a value already scheduled. */
    ghost predicate Valid()
      reads this, sync
    {
      maxFrames >= 1 && sync.maxFrames == maxFrames && sync.timelineCreated &&
      sync.timeline == frameCount && sync.signals == Consecutive(0, frameCount) &&
      frameIdx < maxFrames
    }

    constructor (revision: Revision, maxFrames: nat, swapchainImgCount: nat)
      requires maxFrames >= 1
      ensures Valid() && fresh(sync) && fresh(device)
      ensures this.revision == revision && this.maxFrames == maxFrames
      ensures frameCount == 0 && !frameBuffResized && swapchainGen == 0 && device.effects == []
      ensures |sync.presentSems| == swapchainImgCount
    {
      this.revision := revision;
      this.maxFrames := maxFrames;
      var s := new SyncContext(maxFrames);
      var _ := s.Create(swapchainImgCount, Success);
      sync := s;
      device := new DeviceLog();
      frameCount := 0;
      frameIdx := 0;
      frameBuffResized := false;
      swapchainGen := 0;
    }

    /** `frameBufferResizeCb` */
    method NotifyResize()
      modifies this
      ensures frameBuffResized
      ensures frameCount == old(frameCount) && frameIdx == old(frameIdx) && swapchainGen == old(swapchainGen)
    {
      frameBuffResized := true;
    }

    /** `frameBuffResized = false` then the swapchain recreation and host
        signal of a skipped frame; a recreation that raises (`recreateError`)
        leaves before the signal. */
    method SkipFrame(n: nat, recreateError: Option<Error>) returns (err: Option<Error>)
      requires sync.timeline < n
      modifies this, sync, device
      ensures device.effects == old(device.effects) + Skip(n, recreateError).effects
      ensures err == recreateError
      ensures swapchainGen == old(swapchainGen) + 1 && !frameBuffResized
      ensures frameCount == old(frameCount) && frameIdx == old(frameIdx)
      ensures err.None? ==> sync.timeline == n && sync.signals == old(sync.signals) + [n]
      ensures err.Some? ==> sync.timeline == old(sync.timeline) && sync.signals == old(sync.signals)
      ensures sync.presentSems == old(sync.presentSems) && sync.timelineCreated == old(sync.timelineCreated)
    {
      frameBuffResized := false;
      device.Append([RecreateSwapchain]);
      swapchainGen := swapchainGen + 1;
      if recreateError.Some? {
        return recreateError;
      }
      sync.SignalTimeline(device, n);
      return None;
    }

    /** Record, submit and present the acquired image and react to the
        present result. */
    method PresentImage(n: nat, slot: nat, input: FrameInput, recreate: bool) returns (err: Option<Error>)
      requires sync.timeline < n && input.image < |sync.presentSems|
      modifies this, sync, device
      ensures var step := Presented(slot, n, input, recreate);
        device.effects == old(device.effects) + step.effects && err == step.error &&
        swapchainGen == old(swapchainGen) + (if RecreateSwapchain in step.effects then 1 else 0)
      ensures frameCount == old(frameCount) && frameIdx == old(frameIdx) && frameBuffResized == old(frameBuffResized)
      ensures sync.timeline == n && sync.signals == old(sync.signals) + [n]
      ensures sync.presentSems == old(sync.presentSems) && sync.timelineCreated == old(sync.timelineCreated)
    {
      var img := input.image;
      device.Append([RecordCommands(slot, img)]);
      sync.SubmitFrame(device, slot, img, n);
      device.Append([Present(img)]);
      if input.present == OutOfDate || input.present == Suboptimal || recreate {
        device.Append([RecreateSwapchain]);
        swapchainGen := swapchainGen + 1;
        err := input.recreateError;
      } else if input.present != Success {
        err := Some(VkError(PRESENT_FAILED, input.present.Name()));
      } else {
        err := None;
      }
    }

    /** Everything `draw_frame` does once the timeline wait succeeded. */
    method AfterWaitStage(n: nat, slot: nat, input: FrameInput) returns (err: Option<Error>)
      requires sync.timeline < n
      requires input.acquire in {Success, Suboptimal} ==> input.image < |sync.presentSems|
      modifies this, sync, device
      ensures var step := AfterWait(revision, n, slot, old(frameBuffResized), input);
        device.effects == old(device.effects) + step.effects && err == step.error &&
        frameBuffResized == step.resizedAfter &&
        swapchainGen == old(swapchainGen) + (if RecreateSwapchain in step.effects then 1 else 0)
      ensures frameCount == old(frameCount) && frameIdx == old(frameIdx)
      ensures err.None? ==> sync.timeline == n && sync.signals == old(sync.signals) + [n]
      ensures sync.presentSems == old(sync.presentSems) && sync.timelineCreated == old(sync.timelineCreated)
    {
      if frameBuffResized {
        err := SkipFrame(n, input.recreateError);
        return;
      }
      device.Append([UpdateUniforms(slot), AcquireImage(slot)]);
      var acquireError := Some(VkError(ACQUIRE_FAILED, input.acquire.Name()));
      var recreate := false;
      if revision == VeloRev {
        recreate := input.acquire == Suboptimal;
        if input.acquire == OutOfDate {
          err := SkipFrame(n, input.recreateError);
          return;
        }
        if !input.acquire.HasValue() && !recreate {
          return acquireError;
        }
      } else {
        if !input.acquire.HasValue() {
          return acquireError;
        }
        // the out-of-date branch that follows in the source is never reached
      }
      err := PresentImage(n, slot, input, recreate);
    }

    /** The body of `draw_frame` after the frame counter was advanced to
        `n`: wait for the slot, then the rest of the frame. */
    method WaitAndRender(n: nat, input: FrameInput) returns (err: Option<Error>)
      requires n >= 1 && maxFrames >= 1 && sync.maxFrames == maxFrames && sync.timeline < n
      requires input.acquire in {Success, Suboptimal} ==> input.image < |sync.presentSems|
      modifies this, sync, device
      ensures var step := Frame(revision, n, maxFrames, old(frameBuffResized), input);
        device.effects == old(device.effects) + step.effects &&
        err == step.error && frameBuffResized == step.resizedAfter &&
        swapchainGen == old(swapchainGen) + (if RecreateSwapchain in step.effects then 1 else 0)
      ensures frameCount == old(frameCount) && frameIdx == old(frameIdx)
      ensures err.None? ==> sync.timeline == n && sync.signals == old(sync.signals) + [n]
      ensures sync.timelineCreated == old(sync.timelineCreated)
    {
      err := sync.WaitForFrame(device, n, input.wait);
      if err.Some? {
        return Some(VkError(WaitFailureMessage(revision), input.wait.Name()));
      }
      err := AfterWaitStage(n, (n - 1) % maxFrames, input);
    }

    /** `draw_frame`: the effects, the exception and the new flag are those
        of `Frame`; a call that does not throw extends the timeline history
        by exactly the new frame counter. */
    method DrawFrame(input: FrameInput) returns (err: Option<Error>)
      requires Valid()
      requires input.acquire in {Success, Suboptimal} ==> input.image < |sync.presentSems|
      modifies this, sync, device
      ensures frameCount == old(frameCount) + 1 && frameIdx == Slot(frameCount, maxFrames)
      ensures WaitValue(frameCount, maxFrames) <= old(sync.timeline)
      ensures var step := Frame(revision, frameCount, maxFrames, old(frameBuffResized), input);
        device.effects == old(device.effects) + step.effects &&
        err == step.error && frameBuffResized == step.resizedAfter &&
        swapchainGen == old(swapchainGen) + (if RecreateSwapchain in step.effects then 1 else 0)
      ensures err.None? ==> Valid() && sync.signals == old(sync.signals) + [frameCount]
    {
      frameCount := frameCount + 1;
      frameIdx := (frameCount - 1) % maxFrames;
      err := WaitAndRender(frameCount, input);
      ConsecutiveSnoc(0, frameCount - 1);
    }
  }
}
