# Vulkan triangle example: selection procedures and the frame loop

This project models the decision-making core of a small Vulkan "triangle"
program (a coloured quad drawn through a swapchain). The
graphics-API and window-system calls are not modelled as code: every value
they return (result codes, handles, queried properties, the framebuffer size)
is a parameter of the model.

What is modelled, one Dafny module per source file:

- `VkTypes` (`vk_types.dfy`) holds the shared vocabulary:
  - `uint32_t` and the `static_cast` into it;
  - handles and the null handle;
  - the three `VkResult` codes the program distinguishes;
  - `std::ranges::find_if` as `FindIf`;
  - `strncmp(…) == 0` as `StrnEqual`;
  - the exceptions the program throws (`std::runtime_error` with its message, `std::bad_optional_access`).
- `QueueFamilies` (`queue_families.dfy`) models `find_queue_families`:
  - the scan is a method with a loop that overwrites the two optionals and stops early;
  - the method is proved equal to a loop-free description, `QueueFamiliesOf`;
  - the properties of the scan are proved about that description.
- `SwapChainSupport` (`swapchain_support.dfy`) models `chooseSwapExtent`, `chooseSwapSurfaceFormat`, `chooseSwapPresentMode`, the image-count and sharing-mode logic, and `createSwapChainInfo` as a function that returns the create-info record.
- `DeviceExtensions` (`device_ext.dfy`) models `support_extensions`:
  - the "every required name is matched by some available extension" check is stated over an abstract match predicate;
  - it is instantiated twice: with the comparison the code performs (see Findings) and with the one evidently intended.
- `VertexInput` (`vertex_input.dfy`) models `find_memory_type` and the quad's vertex and index constants.
- `DeviceSelection` (`device_selection.dfy`) models:
  - `is_device_suitable`'s additive score, for any extension-name comparison;
  - `pick_physical_device`'s filter and `max_element` with its three failures;
  - the inverted-sense `contains` and the validation-layer check of `create_instance`.
- `FrameLoop` (`frame_loop.dfy`) holds the `window` object as a class `Window`:
  - its fields are the frame slot, the resize flag, the swapchain handle, format and extent, and the images, image views and framebuffers;
  - it also counts rebuilds, submissions and presents, and keeps a ghost count of completed frames;
  - its methods are `draw_frame`, `recreate_swap_chain`, `create_swap_chain_device`, `create_image_view`, `create_frame_buffers` and the resize callback.
  - What the driver answers during one frame or one rebuild arrives as a `FrameEnv` or `SwapchainEnv` value.

Queue-family discovery assigns each optional on every match and breaks only
once both are set, so each recorded index is the LAST qualifying family among
those examined, not the first (`QueueFamilies.OverwriteExample` exhibits this).

The device score and the device choice take the extension-name comparison as
a parameter (`DeviceSelection.NameMatch`). `DeviceExtensions.SameStorage` is
the comparison the code performs and `DeviceExtensions.SameText` the one
evidently intended. Every score and selection property is proved for any
comparison, and `DeviceSelection.AsWrittenScoreIgnoresSurface` and
`DeviceSelection.AsWrittenPicksWrongDevice` state what the code as written
computes.

`consts.hpp` is not part of this model; `MAX_FRAMES_IN_FLIGHT` is fixed at 2.

## Model

| member | source | states |
|---|---|---|
| VkTypes.ToUint32 | src/triangle_example/swap_chain_support_details.hpp:28-33 | `static_cast<uint32_t>` of an `int` is congruent to it modulo 2^32 and keeps every value already in range |
| VkTypes.FindIf | src/triangle_example/swap_chain_support_details.hpp:40-44 | `find_if` yields the index of the first element satisfying the predicate; it is `end()` exactly when none does |
| VkTypes.StrnEqual | src/triangle_example/triangle_example.cpp:69 | `strncmp(a, b, 256) == 0` on NUL-terminated names: two names both shorter than the bound must be equal, two at least as long must agree on the first n characters, and a short name never equals a long one |
| VkTypes.StrnEqualShort | src/triangle_example/triangle_example.cpp:69 | for a name shorter than 256 characters, `strncmp(…, 256) == 0` holds exactly when the two names are equal |
| QueueFamilies.LastWith | src/triangle_example/queue_family_indices.hpp:26-30 | an overwritten optional holds the largest index below the bound whose family has the capability; it is empty when none has it |
| QueueFamilies.ScanLengthFrom | src/triangle_example/queue_family_indices.hpp:25-33 | the loop examines families up to the first point at which both capabilities have been seen, or all of them |
| QueueFamilies.ScanLength | src/triangle_example/queue_family_indices.hpp:25-33 | the scan length lies within the list; the scan stops only once both capabilities are found, and at the first such point |
| QueueFamilies.QueueFamiliesOf | src/triangle_example/queue_family_indices.hpp:15-33 | a recorded graphics index names a family with the graphics bit, and a recorded presentation index one with surface support; each `is_*_supported` holds iff SOME family in the list has that capability (the early break happens only once both are set); an empty list gives two empty optionals |
| QueueFamilies.FindQueueFamilies | src/triangle_example/queue_family_indices.hpp:19-35 | the in-place scan with its early break computes exactly `QueueFamiliesOf` (loop invariants: the optionals are the last matches so far, and no earlier prefix had both) |
| QueueFamilies.ScanStopsAtLargerIndex | src/triangle_example/queue_family_indices.hpp:26-32 | when both are found, the scan stopped at k, the larger recorded index, which is the first index by which both capabilities were seen; each recorded index is the last match up to k |
| QueueFamilies.LastWithPrefix | src/triangle_example/queue_family_indices.hpp:26-30 | cutting the scanned range above the last match does not change the recorded index |
| QueueFamilies.OverwriteExample | src/triangle_example/queue_family_indices.hpp:26-32 | families (graphics only, graphics and presentation) give graphics index 1, not the first match 0 |
| QueueFamilies.QueueFamilyIndices.IsGraphicsSupported | src/triangle_example/queue_family_indices.hpp:15 | holds iff `graphics_family` has a value |
| QueueFamilies.QueueFamilyIndices.IsPresentationSupported | src/triangle_example/queue_family_indices.hpp:16 | holds iff `presentation_family` has a value |
| SwapChainSupport.Clamp | src/triangle_example/swap_chain_support_details.hpp:28-33 | `std::clamp` with `lo <= hi` lands in `[lo, hi]`, keeps an in-range value, and moves one outside it to the nearer bound |
| SwapChainSupport.ChooseSwapExtent | src/triangle_example/swap_chain_support_details.hpp:19-37 | a defined current extent is returned unchanged whatever the framebuffer size. Under the undefined-width sentinel each component is clamped separately: the result lies within the min/max image extent, each component equals the framebuffer's when that component is in range, and the nearer bound otherwise |
| SwapChainSupport.ChooseSwapSurfaceFormat | src/triangle_example/swap_chain_support_details.hpp:39-45 | the result is one of the offered formats; it is BGRA8 sRGB/sRGB-nonlinear whenever that is offered, and otherwise the first entry |
| SwapChainSupport.FormatChoiceIgnoresOrder | src/triangle_example/swap_chain_support_details.hpp:40-44 | when the preferred format is offered, any reordering of the list yields the same choice |
| SwapChainSupport.ChooseSwapPresentMode | src/triangle_example/swap_chain_support_details.hpp:47-51 | the mode is mailbox or FIFO, and mailbox exactly when mailbox is offered (FIFO even if FIFO is not listed) |
| SwapChainSupport.ImageCount | src/triangle_example/swap_chain_support_details.hpp:72-76 | the count is `min + 1`, lowered to a nonzero maximum it exceeds; it never exceeds a nonzero maximum. With `min` at `UINT32_MAX` the `uint32_t` sum wraps to 0 |
| SwapChainSupport.ImageCountExamples | src/triangle_example/swap_chain_support_details.hpp:72-76 | (min 2, max 0) gives 3 and (min 2, max 2) gives 2 |
| SwapChainSupport.SharingFor | src/triangle_example/swap_chain_support_details.hpp:88-98 | different families give CONCURRENT with both indices (count 2); equal families give EXCLUSIVE with count 0 |
| SwapChainSupport.CreateSwapChainInfo | src/triangle_example/swap_chain_support_details.hpp:64-104 | throws `bad_optional_access` iff either queue family is missing. Otherwise the record carries exactly the chosen format and colour space (the preferred one when offered, else the first entry), the chosen present mode, extent and image count, the surface's transform, one layer, colour-attachment usage, opaque alpha, clipping, the sharing decision, and the caller's old swapchain unchanged |
| DeviceExtensions.Offers | src/triangle_example/device_ext.hpp:15-16 | `find` over the available extensions is not `end()` iff some extension matches the name |
| DeviceExtensions.SupportsAll | src/triangle_example/device_ext.hpp:14-17 | `all_of` holds iff every required name is matched by some available extension |
| DeviceExtensions.SupportsAllMonotone | src/triangle_example/device_ext.hpp:14-17 | reporting more extensions never turns support into non-support, for any match predicate |
| DeviceExtensions.SupportsAllIgnoresOrder | src/triangle_example/device_ext.hpp:14-17 | the result does not depend on the order of the available list |
| DeviceExtensions.SupportExtensionsAsWritten | src/triangle_example/device_ext.hpp:8-18 | `support_extensions` as written holds iff some reported name is stored where the `VK_KHR_SWAPCHAIN_EXTENSION_NAME` literal is (the address comparison) |
| DeviceExtensions.AsWrittenNeverSupported | src/triangle_example/device_ext.hpp:15 | with the address comparison the code performs, no device's reported names (stored in the program's own vector) ever match the literal, so the check is always false |
| DeviceExtensions.AsWrittenRejectsSwapchainDevice | src/triangle_example/device_ext.hpp:6-18 | a device reporting exactly `VK_KHR_swapchain` is rejected as written and accepted by the corrected check |
| DeviceExtensions.SupportExtensions | src/triangle_example/device_ext.hpp:6-18 | corrected check: true exactly when some reported extension is named `VK_KHR_swapchain`, the one required name |
| VertexInput.FirstQualifyingFrom | src/triangle_example/vertex_input.hpp:41-46 | the first index from a start point that passes both filters of the view pipeline, or none |
| VertexInput.FindMemoryType | src/triangle_example/vertex_input.hpp:36-49 | the result is below `memoryTypeCount`, has its `typeFilter` bit set and all requested property flags, and no smaller index qualifies. It throws "failed to find suitable memory type!" iff no index qualifies |
| VertexInput.MeshIsTriangleList | src/triangle_example/vertex_input.hpp:51-55 | 4 vertices and 6 indices: a multiple of 3, each below 4 and within `uint16_t`; both triangles have the same winding and half the quad's area |
| DeviceSelection.IsDeviceSuitable | src/triangle_example/triangle_example.cpp:337-357 | for any extension-name comparison, the score is at most 1701. It is at least 1000 iff the GPU is discrete, and odd iff geometry shaders are supported. A fully capable device scores at least 600, or at least 1600 if discrete. Without extension support at most 201 comes from the non-type terms. It is 0 iff no term applies |
| DeviceSelection.SurfaceSupportNeedsExtensions | src/triangle_example/triangle_example.cpp:348-354 | without extension support the formats and present modes do not affect the score |
| DeviceSelection.DiscreteCapableBeatsIntegrated | src/triangle_example/triangle_example.cpp:345-356 | a fully capable discrete GPU outscores every non-discrete device |
| DeviceSelection.AsWrittenScoreIgnoresSurface | src/triangle_example/triangle_example.cpp:348-354 | with the address comparison `support_extensions` performs, no device is fully capable, and its score is at most 201 beyond the 1000-point type term (at most 1201) |
| DeviceSelection.MaxElementFrom | src/triangle_example/triangle_example.cpp:368-371 | `max_element` over the non-null devices ends on a non-null device of maximal score, and on the first such one in list order |
| DeviceSelection.PickPhysicalDevice | src/triangle_example/triangle_example.cpp:359-378 | it fails with the source's message iff the list is empty, iff every handle is null, or iff every non-null device scores 0, and with no other error. It succeeds iff some non-null device scores above 0, and then picks a listed non-null device of maximal score, the first maximal one in list order (ties included) |
| DeviceSelection.PickChoosesStrictBest | src/triangle_example/triangle_example.cpp:365-376 | a non-null device strictly outscoring every other non-null device is the one picked |
| DeviceSelection.AsWrittenPicksWrongDevice | src/triangle_example/triangle_example.cpp:359-378 | two integrated GPUs: one reporting the swapchain extension and surface support (scored 200 as written, 700 corrected), one with only geometry shaders (201). As written the second is picked; with names compared by text, the first |
| DeviceSelection.Lists | src/triangle_example/triangle_example.cpp:68-70 | `find_if` with `strncmp(…, 256) == 0` succeeds iff some available name matches the element |
| DeviceSelection.Contains | src/triangle_example/triangle_example.cpp:66-77 | `contains(in, is)` is true iff some element of `is` is MISSING from `in` |
| DeviceSelection.CreateInstance | src/triangle_example/triangle_example.cpp:637-641 | the validation-layer check (`check_validation_layer_support`, lines 102-107) is true exactly when `VK_LAYER_KHRONOS_validation` is missing, and instance creation then throws "Layers not supported!"; otherwise it fails only on a non-success result of instance creation |
| FrameLoop.NextSlot | src/triangle_example/triangle_example.cpp:540 | the next frame slot is below `MAX_FRAMES_IN_FLIGHT` |
| FrameLoop.SlotAfterIsModulo | src/triangle_example/triangle_example.cpp:540 | after k slot advances from 0, the slot is k mod `MAX_FRAMES_IN_FLIGHT` |
| FrameLoop.SlotOfValidWindow | src/triangle_example/triangle_example.cpp:540 | in a consistent window, `current_frame` equals the number of completed frames mod `MAX_FRAMES_IN_FLIGHT` |
| FrameLoop.Resize | src/triangle_example/triangle_example.cpp:544 | `vector::resize` gives length n, keeps the existing prefix and pads with null handles |
| FrameLoop.CreateAll | src/triangle_example/triangle_example.cpp:545-551 | filling by index succeeds iff every creation succeeds, and then holds every created handle; a failure throws the given error |
| FrameLoop.BuildOutcome | src/triangle_example/triangle_example.cpp:167-188 | a rebuild succeeds iff the create-info does not throw and the swapchain, every image view and every framebuffer are created |
| FrameLoop.Window.constructor | src/triangle_example/triangle_example.hpp:85-86 | a new window starts in frame slot 0 with the resize flag clear and no swapchain objects |
| FrameLoop.Window.FrameBufferChangeCallback | src/triangle_example/triangle_example.cpp:27-31 | a resize of any size only raises the resize flag |
| FrameLoop.Window.CreateImageViews | src/triangle_example/triangle_example.cpp:543-552 | the view list is resized to the image count and filled by index; the new list and outcome are `CreateAll` of the resized list |
| FrameLoop.Window.CreateFramebuffers | src/triangle_example/triangle_example.cpp:190-207 | the framebuffer list is resized to the view count and filled by index; the new list and outcome are `CreateAll` of the resized list |
| FrameLoop.Window.CreateSwapChainDevice | src/triangle_example/triangle_example.cpp:571-580 | a throwing create-info or a failed creation leaves the window unchanged. Otherwise the window records the new handle, the create-info's format and extent, and the swapchain's images |
| FrameLoop.Window.BuildSwapChain | src/triangle_example/triangle_example.cpp:177-187 | swapchain, image-view and framebuffer creation in order, with the outcome `BuildOutcome`. On success the window is `Rebuilt`: the new handle, the create-info's format and extent, the images, and one view and one framebuffer per image holding the created handles |
| FrameLoop.Window.RecreateSwapChain | src/triangle_example/triangle_example.cpp:167-188 | exactly one rebuild, passing the current swapchain as the old one. The slot, resize flag, submissions and presents are untouched. On success the window is consistent, with the new swapchain's extent, format, images, views and framebuffers |
| FrameLoop.Window.DrawFrame | src/triangle_example/triangle_example.cpp:486-541 | an out-of-date acquire rebuilds exactly once and submits, presents and advances nothing; any other acquire result than success or suboptimal throws "failed to acquire swap chain image!" and changes nothing. A failed begin, end (`start_render_pass`, lines 422-463) or submit throws its message and changes nothing. Otherwise exactly one submission is added (the current slot, the acquired image's framebuffer, the swapchain extent, one indexed draw of all 6 indices) and one present. After present it rebuilds, clearing the resize flag, iff the result is out-of-date or suboptimal or the flag was set; any other non-success result throws. A successful rebuild leaves the new swapchain, format, extent, images, views and framebuffers (`Rebuilt`); without a rebuild all of them are unchanged. The slot advances to the next one exactly when the frame completes |

## Left out

- Every Vulkan and GLFW call is left out; their results are inputs of the model. This covers instance, surface, logical-device, render-pass, pipeline, command-pool, buffer and synchronisation-object creation, and the `init_vulkan` sequence that calls them.
- The two-phase enumeration wrapper (`helper.hpp`) is left out; the lists it returns are inputs.
- Fences, semaphores, `vkDeviceWaitIdle` and the destruction of old swapchain objects are left out: they only order CPU and GPU work and free driver objects.
- The wait in `recreate_swap_chain` for a non-zero framebuffer size is left out. It depends on window events. The model requires the framebuffer size it receives to be non-zero.
- The main loop and window polling are left out.
- The debug messenger and the diagnostic printing in `contains` are left out.
- Staging buffers and `memcpy` in vertex, index and uniform buffer creation are left out (raw memory and driver calls).
- `update_uniform_data`, the viewport and the `glm` maths are left out. They work in floating point, and the uniform update is disabled in the source.
- The descriptor-layout code is left out; it is never called.
- Shader file reading is left out (file I/O).
- The configuration-only headers (command buffer, multisampling, dynamic state) and `main.cpp` are left out.
- `supported_extensions` is left out: its list comes from GLFW.
- `consts.hpp` is not part of this model; `MAX_FRAMES_IN_FLIGHT` is 2.
- Vertex colours and positions are exact `float` literals and are written as reals.
- A creation call that fails is taken not to write its output handle. The model keeps the previous value in that slot.
- FrameLoop.Window.DrawFrame: it requires an acquired image index below the framebuffer count, which the API guarantees for a successful or suboptimal acquire. It also requires a well-formed `SwapchainEnv`: a non-empty format list (the format choice dereferences its first entry), ordered extent limits (`std::clamp` needs them), a non-zero framebuffer size, and one creation result per image.
- SwapChainSupport.CreateSwapChainInfo: the queue-family index array is modelled as a value held in the returned record. In the source, `pQueueFamilyIndices` points at an array local to `createSwapChainInfo` (src/triangle_example/swap_chain_support_details.hpp:88-93). The record is returned by value (:103) and used by `create_swap_chain_device` after that array has gone out of scope (src/triangle_example/triangle_example.cpp:572-574). In the concurrent case the driver therefore reads through a dangling pointer; the model does not capture this object lifetime.
- FrameLoop.Window.RecreateSwapChain: after a failed rebuild the contract states only the outcome and the untouched counters, not which of the swapchain, view and framebuffer fields were already replaced. Those fields are stated exactly by `CreateSwapChainDevice`, `CreateImageViews` and `CreateFramebuffers`.
- FrameLoop.Window.DrawFrame: the window's consistency (`Valid`) is promised only when the frame completes, because a failed rebuild can leave the view and framebuffer lists of different lengths.
- DeviceSelection.IsDeviceSuitable: its result is an unbounded `nat` rather than `std::size_t`. The score never exceeds 1701, so no wrap-around can occur.

## Findings

| source | as written | input that shows it | evidently intended | confidence | as-written member | corrected member |
|---|---|---|---|---|---|---|
| src/triangle_example/device_ext.hpp:15 | `std::ranges::find` projects each `VkExtensionProperties` onto its `char[256]` name and compares it with the required `const char*`. The array decays to a pointer, so this compares addresses, and a name inside the program's own vector never has the literal's address. `support_extensions` is therefore false on every device, so no device earns the 100-point extension term or the 400 points for surface formats and present modes | a device whose only extension is `VK_KHR_swapchain` | compare the names' text, as `strncmp(…, 256)` does for the validation layers at src/triangle_example/triangle_example.cpp:69 | high; not executed | DeviceExtensions.AsWrittenNeverSupported, DeviceSelection.AsWrittenPicksWrongDevice | DeviceExtensions.SupportExtensions |
