/** The frame loop: the window object's swapchain state, the per-frame
    acquire / record / submit / present sequence, and the swapchain rebuild
    that an out-of-date or suboptimal surface, or a resize, triggers. Every
    graphics-API and window-system call is an input: the result code it
    returns and the handle it produces. */
module FrameLoop {
  import opened VkTypes
  import opened QueueFamilies
  import opened SwapChainSupport
  import opened VertexInput

  /** `consts::MAX_FRAMES_IN_FLIGHT`: the number of frame slots. */
  const MaxFramesInFlight: nat := 2

  /** The slot that follows `slot`. */
  function NextSlot(slot: nat): (r: nat)
    ensures r < MaxFramesInFlight
  {
    (slot + 1) % MaxFramesInFlight
  }

  /** The slot reached from slot 0 after `k` completed frames. */
  function SlotAfter(k: nat): nat
  {
    if k == 0 then 0 else NextSlot(SlotAfter(k - 1))
  }

  /** The slot index cycles: after `k` completed frames it is `k mod N`. */
  lemma {:induction false} SlotAfterIsModulo(k: nat)
    ensures SlotAfter(k) == k % MaxFramesInFlight
  {
    if k > 0 {
      SlotAfterIsModulo(k - 1);
    }
  }

  /** The arguments of `vkCmdDrawIndexed`. */
  datatype DrawIndexed = DrawIndexed(
    indexCount: nat, instanceCount: nat, firstIndex: nat, vertexOffset: int, firstInstance: nat)

  /** The one draw every frame records: the whole index list, one instance. */
  const QuadDraw := DrawIndexed(|Indices|, 1, 0, 0, 0)

  /** A command buffer submitted to the graphics queue: the frame slot it was
      recorded in, the framebuffer and render area of its render pass, and its draw. */
  datatype Submission = Submission(slot: nat, framebuffer: Handle, renderArea: Extent2D, draw: DrawIndexed)

  /** A `vkCreate…` call's result code and the handle it wrote. */
  datatype Creation = Creation(result: VkResult, handle: Handle)

  predicate CreationFailed(c: Creation) { c.result != VkSuccess }

  /** What the driver and window system answer during one swapchain build:
      the framebuffer size, the surface queries, the queue families, the
      swapchain creation, the swapchain's images, and one creation per image
      view and per framebuffer. */
  datatype SwapchainEnv = SwapchainEnv(
    framebufferSize: FramebufferSize,
    support: SwapChainSupportDetails,
    queueFamilies: seq<QueueFamily>,
    swapchainCreation: Creation,
    images: seq<Handle>,
    imageViewCreations: seq<Creation>,
    framebufferCreations: seq<Creation>)

  /** The answers are well formed: a non-empty format list (the format choice
      dereferences its first entry), ordered extent limits (`std::clamp`), a
      framebuffer of nonzero area (the rebuild waits for one), and one creation
      per image. */
  predicate EnvOk(env: SwapchainEnv)
  {
    && |env.support.formats| > 0
    && (env.support.capabilities.currentExtent.width == Uint32Max ==> ExtentBoundsOrdered(env.support.capabilities))
    && env.framebufferSize.width > 0 && env.framebufferSize.height > 0
    && |env.imageViewCreations| == |env.images|
    && |env.framebufferCreations| == |env.images|
  }

  /** What the driver answers during one `draw_frame`. */
  datatype FrameEnv = FrameEnv(
    acquireResult: VkResult,
    imageIndex: nat,
    beginResult: VkResult,
    endResult: VkResult,
    submitResult: VkResult,
    presentResult: VkResult)

  const SwapChainCreateError := RuntimeError("failed to create swap chain!")
  const ImageViewError := RuntimeError("failed to create image views!")
  const FramebufferError := RuntimeError("failed to create framebuffer!")
  const AcquireError := RuntimeError("failed to acquire swap chain image!")
  const BeginRecordingError := RuntimeError("failed to begin recording command buffer!")
  const RecordError := RuntimeError("failed to record command buffer!")
  const SubmitError := RuntimeError("failed to submit draw command buffer!")

  /** `std::vector::resize`: keep the first `n` elements, pad with null handles. */
  function Resize(s: seq<Handle>, n: nat): (r: seq<Handle>)
    ensures |r| == n
    ensures forall i :: 0 <= i < n && i < |s| ==> r[i] == s[i]
    ensures forall i :: |s| <= i < n ==> r[i] == NullHandle
  {
    if n <= |s| then s[..n] else s + seq(n - |s|, _ => NullHandle)
  }

  /** Filling a resized vector by index, one creation call per element, and
      throwing `failure` at the first call that fails: the elements before it
      hold the created handles, the rest keep their values. */
  function CreateAll(resized: seq<Handle>, creations: seq<Creation>, failure: Error): (r: (seq<Handle>, Outcome))
    requires |creations| == |resized|
    ensures |r.0| == |resized|
    ensures r.1 == Pass <==> forall i :: 0 <= i < |creations| ==> !CreationFailed(creations[i])
    ensures r.1 == Pass ==> forall i :: 0 <= i < |creations| ==> r.0[i] == creations[i].handle
    ensures r.1.Fail? ==> r.1.error == failure
  {
    match FindIf(creations, CreationFailed)
    case None => (seq(|creations|, i requires 0 <= i < |creations| => creations[i].handle), Pass)
    case Some(k) =>
      (seq(|resized|, i requires 0 <= i < |resized| => if i < k then creations[i].handle else resized[i]), Fail(failure))
  }

  /** The outcome of building a swapchain from `env`: the create-info can
      throw, then swapchain, image-view and framebuffer creation can each fail. */
  function BuildOutcome(env: SwapchainEnv, surface: Handle, oldSwapChain: Handle): (r: Outcome)
    requires EnvOk(env)
    ensures r == Pass <==>
      && CreateSwapChainInfo(env.framebufferSize, surface, env.support, env.queueFamilies, oldSwapChain).Ok?
      && !CreationFailed(env.swapchainCreation)
      && (forall i :: 0 <= i < |env.images| ==> !CreationFailed(env.imageViewCreations[i]))
      && (forall i :: 0 <= i < |env.images| ==> !CreationFailed(env.framebufferCreations[i]))
  {
    match CreateSwapChainInfo(env.framebufferSize, surface, env.support, env.queueFamilies, oldSwapChain)
    case Err(e) => Fail(e)
    case Ok(_) =>
      if CreationFailed(env.swapchainCreation) then Fail(SwapChainCreateError)
      else if FindIf(env.imageViewCreations, CreationFailed).Some? then Fail(ImageViewError)
      else if FindIf(env.framebufferCreations, CreationFailed).Some? then Fail(FramebufferError)
      else Pass
  }

  /** The window object: the swapchain it owns with its images, image views
      and framebuffers, the frame-slot index, the resize flag, and (for the
      model's statements) the rebuilds, submissions and presents it has made. */
  class Window {
    const surface: Handle
    var currentFrame: nat
    var framebufferResized: bool
    var swapChain: Handle
    var swapChainImageFormat: uint32
    var swapChainExtent: Extent2D
    var images: seq<Handle>
    var swapChainImageViews: seq<Handle>
    var swapChainFramebuffers: seq<Handle>
    var rebuilds: nat
    var submitted: seq<Submission>
    var presents: nat
    /** Frames that ran to the slot advance at the end of `draw_frame`. */
    ghost var completedFrames: nat

    ghost predicate Valid()
      reads this
    {
      && currentFrame < MaxFramesInFlight
      && currentFrame == SlotAfter(completedFrames)
      && |swapChainImageViews| == |images|
      && |swapChainFramebuffers| == |swapChainImageViews|
    }

    /** The state a successful rebuild from `env` leaves: the new swapchain
      with the create-info's format and extent, its images, and one view and
      one framebuffer per image holding the created handles. */
    ghost predicate Rebuilt(env: SwapchainEnv, oldSwapChain: Handle)
      requires EnvOk(env)
      reads this
    {
      var info := CreateSwapChainInfo(env.framebufferSize, surface, env.support, env.queueFamilies, oldSwapChain);
      && info.Ok?
      && swapChain == env.swapchainCreation.handle
      && swapChainExtent == info.value.imageExtent
      && swapChainImageFormat == info.value.imageFormat
      && images == env.images
      && |swapChainImageViews| == |images| && |swapChainFramebuffers| == |images|
      && (forall i :: 0 <= i < |images| ==> swapChainImageViews[i] == env.imageViewCreations[i].handle)
      && (forall i :: 0 <= i < |images| ==> swapChainFramebuffers[i] == env.framebufferCreations[i].handle)
    }

    constructor (surface: Handle)
      ensures Valid()
      ensures this.surface == surface
      ensures currentFrame == 0 && !framebufferResized && completedFrames == 0
      ensures swapChain == NullHandle && images == [] && swapChainImageViews == [] && swapChainFramebuffers == []
      ensures rebuilds == 0 && submitted == [] && presents == 0
    {
      this.surface := surface;
      currentFrame := 0;
      framebufferResized := false;
      swapChain := NullHandle;
      swapChainImageFormat := 0;
      swapChainExtent := Extent2D(0, 0);
      images := [];
      swapChainImageViews := [];
      swapChainFramebuffers := [];
      rebuilds := 0;
      submitted := [];
      presents := 0;
      completedFrames := 0;
    }

    /** `frame_buffer_change_callback`: any resize only raises the flag. */
    method FrameBufferChangeCallback(width: int, height: int)
      requires Valid()
      modifies this`framebufferResized
      ensures Valid()
      ensures framebufferResized
    {
      framebufferResized := true;
    }

    /** `create_image_view`: one view per swapchain image. */
    method CreateImageViews(creations: seq<Creation>) returns (res: Outcome)
      requires |creations| == |images|
      modifies this`swapChainImageViews
      ensures (swapChainImageViews, res) == CreateAll(Resize(old(swapChainImageViews), |images|), creations, ImageViewError)
    {
      var resized := Resize(swapChainImageViews, |images|);
      swapChainImageViews := resized;
      var index := 0;
      while index < |images|
        invariant index <= |images| && |swapChainImageViews| == |images|
        invariant forall i :: 0 <= i < index ==> !CreationFailed(creations[i])
        invariant forall i :: 0 <= i < index ==> swapChainImageViews[i] == creations[i].handle
        invariant forall i :: index <= i < |images| ==> swapChainImageViews[i] == resized[i]
      {
        if CreationFailed(creations[index]) {
          assert FindIf(creations, CreationFailed) == Some(index);
          assert swapChainImageViews ==
            seq(|resized|, i requires 0 <= i < |resized| => if i < index then creations[i].handle else resized[i]);
          return Fail(ImageViewError);
        }
        swapChainImageViews := swapChainImageViews[index := creations[index].handle];
        index := index + 1;
      }
      assert swapChainImageViews == seq(|creations|, i requires 0 <= i < |creations| => creations[i].handle);
      return Pass;
    }

    /** `create_frame_buffers`: one framebuffer per image view. */
    method CreateFramebuffers(creations: seq<Creation>) returns (res: Outcome)
      requires |creations| == |swapChainImageViews|
      modifies this`swapChainFramebuffers
      ensures (swapChainFramebuffers, res) ==
        CreateAll(Resize(old(swapChainFramebuffers), |swapChainImageViews|), creations, FramebufferError)
    {
      var resized := Resize(swapChainFramebuffers, |swapChainImageViews|);
      swapChainFramebuffers := resized;
      var index := 0;
      while index < |swapChainImageViews|
        invariant index <= |swapChainImageViews| && |swapChainFramebuffers| == |swapChainImageViews|
        invariant forall i :: 0 <= i < index ==> !CreationFailed(creations[i])
        invariant forall i :: 0 <= i < index ==> swapChainFramebuffers[i] == creations[i].handle
        invariant forall i :: index <= i < |swapChainImageViews| ==> swapChainFramebuffers[i] == resized[i]
      {
        if CreationFailed(creations[index]) {
          assert FindIf(creations, CreationFailed) == Some(index);
          assert swapChainFramebuffers ==
            seq(|resized|, i requires 0 <= i < |resized| => if i < index then creations[i].handle else resized[i]);
          return Fail(FramebufferError);
        }
        swapChainFramebuffers := swapChainFramebuffers[index := creations[index].handle];
        index := index + 1;
      }
      assert swapChainFramebuffers == seq(|creations|, i requires 0 <= i < |creations| => creations[i].handle);
      return Pass;
    }

    /** `create_swap_chain_device`: create the swapchain from the create-info,
      then record its format, extent and images. */
    method CreateSwapChainDevice(env: SwapchainEnv, oldSwapChain: Handle) returns (res: Outcome)
      requires EnvOk(env)
      modifies this`swapChain, this`swapChainImageFormat, this`swapChainExtent, this`images
      ensures var info := CreateSwapChainInfo(env.framebufferSize, surface, env.support, env.queueFamilies, oldSwapChain);
        && (info.Err? ==> res == Fail(info.error) && unchanged(this))
        && (info.Ok? && CreationFailed(env.swapchainCreation) ==> res == Fail(SwapChainCreateError) && unchanged(this))
        && (info.Ok? && !CreationFailed(env.swapchainCreation) ==>
              && res == Pass
              && swapChain == env.swapchainCreation.handle
              && swapChainImageFormat == info.value.imageFormat
              && swapChainExtent == info.value.imageExtent
              && images == env.images)
    {
      var info := CreateSwapChainInfo(env.framebufferSize, surface, env.support, env.queueFamilies, oldSwapChain);
      if info.Err? {
        return Fail(info.error);
      }
      if CreationFailed(env.swapchainCreation) {
        return Fail(SwapChainCreateError);
      }
      swapChain := env.swapchainCreation.handle;
      swapChainImageFormat := info.value.imageFormat;
      swapChainExtent := info.value.imageExtent;
      images := env.images;
      res := Pass;
    }

    /** The three creation steps a rebuild performs: the swapchain (with
      `oldSwapChain` passed as the one it replaces), its image views, and its
      framebuffers; each throws on failure and the later ones then do not run. */
    method BuildSwapChain(env: SwapchainEnv, oldSwapChain: Handle) returns (res: Outcome)
      requires EnvOk(env) && |swapChainImageViews| == |images|
      modifies this`swapChain, this`swapChainImageFormat, this`swapChainExtent, this`images
      modifies this`swapChainImageViews, this`swapChainFramebuffers
      ensures res == BuildOutcome(env, surface, oldSwapChain)
      ensures res.Pass? ==> Rebuilt(env, oldSwapChain)
    {
      res := CreateSwapChainDevice(env, oldSwapChain);
      if res.Fail? {
        return;
      }
      res := CreateImageViews(env.imageViewCreations);
      if res.Fail? {
        assert FindIf(env.imageViewCreations, CreationFailed).Some?;
        return;
      }
      assert FindIf(env.imageViewCreations, CreationFailed).None?;
      res := CreateFramebuffers(env.framebufferCreations);
      assert res.Pass? <==> FindIf(env.framebufferCreations, CreationFailed).None?;
    }

    /** `recreate_swap_chain`: build a new swapchain that replaces the current
      one (passed as the old swapchain), then new image views and framebuffers. */
    method RecreateSwapChain(env: SwapchainEnv) returns (res: Outcome)
      requires Valid() && EnvOk(env)
      modifies this
      ensures rebuilds == old(rebuilds) + 1
      ensures res == BuildOutcome(env, surface, old(swapChain))
      ensures currentFrame == old(currentFrame) && completedFrames == old(completedFrames)
      ensures framebufferResized == old(framebufferResized)
      ensures submitted == old(submitted) && presents == old(presents)
      ensures res.Pass? ==> Valid() && Rebuilt(env, old(swapChain))
    {
      rebuilds := rebuilds + 1;
      res := BuildSwapChain(env, swapChain);
    }

    /** `draw_frame`. */
    method DrawFrame(frame: FrameEnv, env: SwapchainEnv) returns (res: Outcome)
      requires Valid() && EnvOk(env)
      requires frame.acquireResult in {VkSuccess, VkSuboptimalKhr} ==> frame.imageIndex < |swapChainFramebuffers|
      modifies this
      // An out-of-date acquire: exactly one rebuild, nothing recorded, submitted or presented.
      ensures frame.acquireResult == VkErrorOutOfDateKhr ==>
        && rebuilds == old(rebuilds) + 1
        && res == BuildOutcome(env, surface, old(swapChain))
        && submitted == old(submitted) && presents == old(presents)
        && currentFrame == old(currentFrame) && completedFrames == old(completedFrames)
        && framebufferResized == old(framebufferResized)
        && (res.Pass? ==> Valid() && Rebuilt(env, old(swapChain)))
      // Any other acquire result than success or suboptimal is an error.
      ensures frame.acquireResult !in {VkSuccess, VkSuboptimalKhr, VkErrorOutOfDateKhr} ==>
        res == Fail(AcquireError) && unchanged(this)
      // Recording or submission fails: nothing is submitted.
      ensures frame.acquireResult in {VkSuccess, VkSuboptimalKhr} && frame.beginResult != VkSuccess ==>
        res == Fail(BeginRecordingError) && unchanged(this)
      ensures frame.acquireResult in {VkSuccess, VkSuboptimalKhr} && frame.beginResult == VkSuccess &&
              frame.endResult != VkSuccess ==>
        res == Fail(RecordError) && unchanged(this)
      ensures frame.acquireResult in {VkSuccess, VkSuboptimalKhr} && frame.beginResult == VkSuccess &&
              frame.endResult == VkSuccess && frame.submitResult != VkSuccess ==>
        res == Fail(SubmitError) && unchanged(this)
      // A submitted frame: one draw of the quad in the current slot, then one present.
      ensures frame.acquireResult in {VkSuccess, VkSuboptimalKhr} && frame.beginResult == VkSuccess &&
              frame.endResult == VkSuccess && frame.submitResult == VkSuccess ==>
        var rebuild := frame.presentResult in {VkErrorOutOfDateKhr, VkSuboptimalKhr} || old(framebufferResized);
        && submitted == old(submitted) +
             [Submission(old(currentFrame), old(swapChainFramebuffers)[frame.imageIndex], old(swapChainExtent), QuadDraw)]
        && presents == old(presents) + 1
        && (rebuild ==>
              && rebuilds == old(rebuilds) + 1
              && !framebufferResized
              && res == BuildOutcome(env, surface, old(swapChain))
              && (res.Pass? ==> Rebuilt(env, old(swapChain))))
        && (!rebuild ==>
              && rebuilds == old(rebuilds)
              && framebufferResized == old(framebufferResized)
              && swapChain == old(swapChain) && images == old(images)
              && swapChainExtent == old(swapChainExtent) && swapChainImageFormat == old(swapChainImageFormat)
              && swapChainImageViews == old(swapChainImageViews)
              && swapChainFramebuffers == old(swapChainFramebuffers)
              && (res == Pass <==> frame.presentResult == VkSuccess)
              && (res.Fail? ==> res.error == AcquireError))
        && (res.Pass? ==>
              currentFrame == NextSlot(old(currentFrame)) && completedFrames == old(completedFrames) + 1)
        && (res.Fail? ==>
              currentFrame == old(currentFrame) && completedFrames == old(completedFrames))
      ensures res.Pass? ==> Valid()
    {
      if frame.acquireResult == VkErrorOutOfDateKhr {
        res := RecreateSwapChain(env);
        return;
      } else if frame.acquireResult != VkSuccess && frame.acquireResult != VkSuboptimalKhr {
        return Fail(AcquireError);
      }
      if frame.beginResult != VkSuccess {
        return Fail(BeginRecordingError);
      }
      if frame.endResult != VkSuccess {
        return Fail(RecordError);
      }
      if frame.submitResult != VkSuccess {
        return Fail(SubmitError);
      }
      submitted := submitted +
        [Submission(currentFrame, swapChainFramebuffers[frame.imageIndex], swapChainExtent, QuadDraw)];
      presents := presents + 1;
      if frame.presentResult == VkErrorOutOfDateKhr || framebufferResized || frame.presentResult == VkSuboptimalKhr {
        framebufferResized := false;
        res := RecreateSwapChain(env);
        if res.Fail? {
          return;
        }
      } else if frame.presentResult != VkSuccess {
        return Fail(AcquireError);
      }
      currentFrame := NextSlot(currentFrame);
      completedFrames := completedFrames + 1;
      res := Pass;
    }
  }

  /** After `k` frames that all ran to the end, the slot index is `k mod N`. */
  lemma SlotOfValidWindow(w: Window)
    requires w.Valid()
    ensures w.currentFrame == w.completedFrames % MaxFramesInFlight
  {
    SlotAfterIsModulo(w.completedFrames);
  }
}
