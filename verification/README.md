# Vulkan renderer core, modelled in Dafny

This project models the `Renderer` class of a small Vulkan rendering
framework. The class is a process-wide singleton. It creates the Vulkan
instance, picks a physical device and builds a logical device. It then
builds the swapchain generation (the swapchain, one image view per image,
the depth view, one framebuffer per view), the descriptor tables, the
per-frame uniform buffers and the per-frame command buffers, semaphores and
fences. After that it drives frames: wait on the slot's fence, acquire an
image, record and submit, present. It rebuilds the swapchain when the
surface goes out of date or the window is resized.

The model has seven modules:

- `VkTypes` (vk_types.dfy): handles, formats, present modes, surface
  capabilities, queue families and result codes, as plain values. This
  module also holds the `Option` and `Result` wrappers.
- `SwapchainPolicy` (swapchain_policy.dfy): the swapchain parameter rules.
  - The surface-format and present-mode choosers are first-match searches
    with a fallback. Each is written as a loop method proved against a
    specification function.
  - The extent rule, as written and as intended.
  - The image-count rule, including its `uint32_t` wrap-around.
  - The sharing-mode choice.
  - The create-info the swapchain is built from.
- `DeviceSelection` (device_selection.dfy): the extension check, device
  suitability and the first-suitable-device pick. It also has the queue
  families the logical device asks for and the requested features.
- `Descriptors` (descriptors.dfy): the default descriptor-set layout (a
  uniform buffer at binding 0, eight sampler bindings after it) and the
  pool that mirrors it. The pool is proved to hold exactly
  `MAX_FRAMES_IN_FLIGHT` sets' worth of every descriptor type.
- `ResourceLog` (resource_log.dfy): the events a renderer performs on its
  objects (create, destroy, wait for idle) and the phase order a rebuild
  must follow.
- `Ownership` (ownership.dfy): the table of live objects. It maps each
  handle to its kind and the handles it references. It states that nothing
  alive references a destroyed object, and it describes the shape of a
  complete swapchain generation.
- `Rendering` (renderer.dfy): the `Renderer` class. Its fields are the
  source's fields: the device, the swapchain generation, the per-slot
  vectors, `currentFrame`, `framebufferResized`, `isInitialized` and the
  persistently mapped uniform slots (an array). It also holds the ghost
  object table, the event log and the GPU-side fence state.
  - `Init` runs the source's creation sequence. Its outcome is
    `InitOutcome`: the first failing call decides it, or no suitable GPU.
  - `Render` takes the driver's answers (acquire, submit and present
    results) as inputs, and `RecreateSwapChain` takes the new surface
    state. `RecreateSwapChain` preserves `Valid()`, which says:
    - every per-slot object is alive and distinct;
    - the generation is complete and matches the swapchain images;
    - every fence is signalled or has pending work that will signal it.

    `Render` keeps the first two. It breaks the third in exactly one case.
    A frame that raises between the fence reset and the submission leaves
    its fence unsignalled with nothing to signal it (`StrandsFence`). The
    next wait on that slot would never return. Three raises fall in that
    window (Renderer.cpp:469-480):
    - there is no render callback;
    - the render callback throws;
    - `vkQueueSubmit` fails.
  - `CleanUpSwapChain` does not destroy the depth image, its view or its
    memory (Renderer.cpp:493-501). Each `RecreateSwapChain` therefore
    leaves the previous depth view alive next to the new one, and the
    model keeps it alive too.
- `Lifecycle` (lifecycle.dfy): the static instance pointer and the static
  initialized flag. It covers the constructor, which runs `Init` and
  registers the first renderer it completes, and `GetInstance()`.

What the environment decides becomes parameters. That covers the
enumerated devices, the framebuffer size, the swapchain images the driver
returns, the result codes, and which creation call (if any) fails. The
object handles come from a counter that stands in for the driver.

## Model

| member | source | states |
|---|---|---|
| SwapchainPolicy.FirstMatchSpec | VulkanRenderer/VulkanRenderer/Renderer.cpp:159-165 | The first-match search finds an accepted element with no accepted element before it, and finds nothing exactly when no element is accepted. |
| SwapchainPolicy.SelectedSurfaceFormat | VulkanRenderer/VulkanRenderer/Renderer.cpp:211-223 | The chosen format is always one of the offered formats. |
| SwapchainPolicy.SelectedSurfaceFormatSpec | VulkanRenderer/VulkanRenderer/Renderer.cpp:211-223 | When some format passes the active test, the chosen format passes it. The active test is the custom predicate when one is set, otherwise R8G8B8A8_SRGB with SRGB_NONLINEAR. When none passes, the choice is `formats[0]`. |
| SwapchainPolicy.ChooseSwapSurfaceFormat | VulkanRenderer/VulkanRenderer/Renderer.cpp:211-223 | The loop over the offered formats returns the first format the active test accepts, or `formats[0]`. It requires the list to be non-empty, because the fallback indexes it. |
| SwapchainPolicy.SelectedPresentMode | VulkanRenderer/VulkanRenderer/Renderer.cpp:225-237 | The chosen mode is one of the offered modes, or FIFO. |
| SwapchainPolicy.SelectedPresentModeSpec | VulkanRenderer/VulkanRenderer/Renderer.cpp:225-237 | When some mode passes the active test (the custom predicate, otherwise MAILBOX), the choice is offered and passes it. When none does, the choice is FIFO. |
| SwapchainPolicy.ChooseSwapPresentMode | VulkanRenderer/VulkanRenderer/Renderer.cpp:225-237 | The loop returns the first mode the active test accepts, or FIFO. |
| SwapchainPolicy.ExamplePredicatesChooseAsDefaults | VulkanRenderer/VulkanRenderer/VulkanRenderer.cpp:22-30 | The application's two predicates choose exactly what the built-in defaults choose, for every non-empty format list and every mode list. |
| SwapchainPolicy.Clamp | VulkanRenderer/VulkanRenderer/Renderer.cpp:251 | With ordered bounds the result lies within them. A value already within them is kept. The result is always the value or one of the bounds. |
| SwapchainPolicy.ToU32 | VulkanRenderer/VulkanRenderer/Renderer.cpp:247-250 | The `static_cast<uint32_t>` of a window size keeps every value already in range. |
| SwapchainPolicy.ChooseSwapExtent | VulkanRenderer/VulkanRenderer/Renderer.cpp:238-256 | As written. A defined current extent is returned unchanged. For the sentinel width, the result is within the image-extent bounds and an in-range window width is kept. The height is the width, clamped, whatever the window height is. |
| SwapchainPolicy.ChooseSwapExtentIntended | VulkanRenderer/VulkanRenderer/Renderer.cpp:238-256 | As intended. A defined current extent is returned unchanged. For the sentinel width, the result is within bounds. Each dimension is clamped on its own: a window width or height within its bounds is kept, one below its minimum becomes the minimum, and one above its maximum becomes the maximum. For example, 5000x600 with bounds 1..4096 gives 4096x600. |
| SwapchainPolicy.ExtentHeightDefect | VulkanRenderer/VulkanRenderer/Renderer.cpp:252 | For every window size inside the image-extent bounds whose width also fits the height bounds and differs from its height, the as-written height is wrong. The intended rule returns the window size. |
| SwapchainPolicy.ExtentHeightDefectExample | VulkanRenderer/VulkanRenderer/Renderer.cpp:252 | An 800x600 window with the sentinel extent gets an 800x800 swapchain as written, and 800x600 as intended. |
| SwapchainPolicy.ImageCount | VulkanRenderer/VulkanRenderer/Renderer.cpp:263-266 | The count is at most `maxImageCount` when that is non-zero. It is at least `minImageCount` when max is 0 or at least min. It is exactly `min + 1` when that neither wraps nor exceeds a non-zero max. It wraps to 0 when `min` is `UINT32_MAX`. |
| SwapchainPolicy.ChooseImageSharing | VulkanRenderer/VulkanRenderer/Renderer.cpp:277-288 | Sharing is CONCURRENT exactly when the graphics and present families differ, listing those two families. Otherwise it is EXCLUSIVE with no family list. |
| SwapchainPolicy.BuildSwapchainCreateInfo | VulkanRenderer/VulkanRenderer/Renderer.cpp:258-293 | The create-info carries the chosen format and colour space, the chosen present mode, the intended extent, the image count and the sharing mode for the surface. |
| DeviceSelection.CheckDeviceExtensionSupport | VulkanRenderer/VulkanRenderer/Renderer.cpp:126-140 | Erasing every available name from the required set leaves it empty exactly when every required extension is available. |
| DeviceSelection.IsDeviceSuitable | VulkanRenderer/VulkanRenderer/Renderer.cpp:142-152 | A device is suitable exactly when all of these hold: its queue families are complete, it has the extensions, it offers a format and a present mode, and the device predicate accepts it. |
| DeviceSelection.PickFirstPhysicalDevice | VulkanRenderer/VulkanRenderer/Renderer.cpp:154-169 | A device is picked exactly when some device is suitable. The pick is suitable and is the first suitable device in enumeration order. |
| DeviceSelection.DefaultPolicyPicksNoDevice | VulkanRenderer/VulkanRenderer/Renderer.h:20 | With the built-in device predicate no device is ever picked. |
| DeviceSelection.UniqueQueueFamilies | VulkanRenderer/VulkanRenderer/Renderer.cpp:175 | The queues requested are the graphics and present families, one entry when they coincide and two otherwise. |
| DeviceSelection.RequestedFeatures | VulkanRenderer/VulkanRenderer/Renderer.cpp:186-188 | With the built-in feature hook, exactly sampler anisotropy is enabled. |
| Descriptors.BuildDefaultLayoutBindings | VulkanRenderer/VulkanRenderer/Renderer.cpp:323-336 | Binding 0 is the vertex-stage uniform buffer. Bindings 1 to 8 are fragment-stage combined image samplers. Every binding holds one descriptor and binding i sits at index i. |
| Descriptors.BuildDescriptorPoolSizes | VulkanRenderer/VulkanRenderer/Renderer.cpp:339-353 | One pool entry per layout binding, of the same type, each with `MAX_FRAMES_IN_FLIGHT` descriptors. The pool allows `MAX_FRAMES_IN_FLIGHT` sets. |
| Descriptors.MirroredPoolCapacity | VulkanRenderer/VulkanRenderer/Renderer.cpp:340-348 | A pool that mirrors a layout, with `n` times each binding's count, holds `n` sets' worth of every descriptor type. |
| Descriptors.DefaultPoolServesEveryFrameSlot | VulkanRenderer/VulkanRenderer/Renderer.cpp:356-362 | The default pool holds exactly one default set per frame slot, for every descriptor type. |
| ResourceLog.TeardownPhaseOrdered | VulkanRenderer/VulkanRenderer/Renderer.cpp:493-501 | After the idle wait, the teardown destroys every framebuffer before any view, and every view before the swapchain. |
| ResourceLog.RebuildLogPhaseOrdered | VulkanRenderer/VulkanRenderer/Renderer.cpp:502-511 | A rebuild never goes back a phase: wait for idle, destroy framebuffers, views, swapchain, then create swapchain, views, depth view, framebuffers. |
| Ownership.TeardownReleasable | VulkanRenderer/VulkanRenderer/Renderer.cpp:493-501 | In a well-formed table, each destruction of the teardown, taken in order, removes a live object of the expected kind that nothing still alive references. |
| Ownership.TeardownClearsGeneration | VulkanRenderer/VulkanRenderer/Renderer.cpp:493-501 | The teardown leaves a well-formed table with no generation object and every other object unchanged. |
| Ownership.GenerationCreated | VulkanRenderer/VulkanRenderer/Renderer.cpp:507-510 | The four creation steps build a complete generation over the table: one view per image, view i over image i, and framebuffer i attaching view i and the depth view. Every other object is kept. |
| Ownership.FramebuffersAttached | VulkanRenderer/VulkanRenderer/Renderer.cpp:402-408 | Framebuffers created over ready views and a live depth view complete the generation. |
| Ownership.SlotsCreated | VulkanRenderer/VulkanRenderer/Renderer.cpp:421-432 | A per-slot allocation yields `MAX_FRAMES_IN_FLIGHT` distinct handles, each alive as a per-slot object. |
| Ownership.SyncObjectsCreated | VulkanRenderer/VulkanRenderer/Renderer.cpp:434-454 | The sync-object loop yields three live per-slot vectors, and no handle is shared between any two of them. |
| Rendering.InitOutcome | VulkanRenderer/VulkanRenderer/Renderer.cpp:45-66 | Init succeeds exactly when no modelled creation call fails and some device is suitable. The modelled calls are the ones named by `InitStage`. "No modelled call fails" includes a failing debug-messenger call while validation layers are off, which the source skips. No suitable GPU means no device is suitable. An API failure names the failing call. |
| Rendering.DefaultPolicyNeverInitializes | VulkanRenderer/VulkanRenderer/Renderer.cpp:154-168 | With the built-in device predicate Init always fails. |
| Rendering.FrameOutcomeFor | VulkanRenderer/VulkanRenderer/Renderer.cpp:456-491 | The frame is skipped exactly when acquire is out of date. It is presented exactly when acquire succeeded, the callback exists and returns normally, submit succeeded, and present succeeded or asked for a rebuild. It rebuilds after presenting exactly on out of date, suboptimal or resize. After a successful acquire, it raises with a missing callback exactly when there is none, and with a raising callback exactly when the callback throws. It strands the fence exactly when acquire succeeded and then the callback is missing, the callback throws, or submit fails. |
| Rendering.PresentOutcome | VulkanRenderer/VulkanRenderer/Renderer.cpp:481-489 | After a submit, the frame rebuilds exactly on out of date, suboptimal or resize. It raises on any other non-success. It never strands its fence. |
| Rendering.NextSlot | VulkanRenderer/VulkanRenderer/Renderer.cpp:490 | The next frame slot is always below `MAX_FRAMES_IN_FLIGHT`. |
| Rendering.IdleThenReplaced | VulkanRenderer/VulkanRenderer/Renderer.cpp:502-511 | An idle wait followed by a generation replacement is a full swapchain rebuild, logged in protocol order. |
| Rendering.AcquireFailedEffect | VulkanRenderer/VulkanRenderer/Renderer.cpp:466-468 | A frame that raises on acquire leaves its fence signalled, records nothing and keeps the frame counter. |
| Rendering.SkippedFrameEffect | VulkanRenderer/VulkanRenderer/Renderer.cpp:460-465 | An out-of-date acquire rebuilds the swapchain. It does not reset the fence, does not call the callback and keeps the frame counter. |
| Rendering.WaitedFrameEffect | VulkanRenderer/VulkanRenderer/Renderer.cpp:457 | The fence wait at the start of a frame does not change what the frame's effect says. |
| Rendering.SubmitFailedEffect | VulkanRenderer/VulkanRenderer/Renderer.cpp:469-480 | A frame that raises between the fence reset and the submit leaves the fence unsignalled with nothing pending to signal it. The raise may come from a missing callback, a callback that throws, or a failed submit. Only the failed submit follows a completed recording. |
| Rendering.SubmittedFrameEffect | VulkanRenderer/VulkanRenderer/Renderer.cpp:469-490 | A submitted frame records the slot's command buffer against the acquired image's framebuffer. It presents or rebuilds as the present result and the resize flag say, and advances the slot only when presented. |
| Rendering.Renderer.constructor | VulkanRenderer/VulkanRenderer/Renderer.cpp:14-22 | The device and feature functions are replaced only when given. The format, present-mode and render functions are copied as given. The renderer starts on slot 0 with no resize, a zero extent, no device and nothing created. |
| Rendering.Renderer.AllocateSlots | VulkanRenderer/VulkanRenderer/Renderer.cpp:421-432 | Allocates one new object per frame slot, logged in order, leaving other objects as they were. |
| Rendering.Renderer.ReleaseAll | VulkanRenderer/VulkanRenderer/Renderer.cpp:494-499 | Destroys exactly the listed unreferenced objects, logging each destruction in list order. |
| Rendering.Renderer.CreateSyncObjects | VulkanRenderer/VulkanRenderer/Renderer.cpp:434-454 | Creates two semaphores and one fence per slot. The fences start signalled. |
| Rendering.Renderer.CreateSwapChain | VulkanRenderer/VulkanRenderer/Renderer.cpp:257-305 | Creates one swapchain from the create-info for the surface, and takes the driver's images, the chosen format and the extent. |
| Rendering.Renderer.CreateImageViews | VulkanRenderer/VulkanRenderer/Renderer.cpp:307-320 | Creates one view per swapchain image, view i over image i, logged in order. |
| Rendering.Renderer.CreateDepthResources | VulkanRenderer/VulkanRenderer/Renderer.cpp:394-400 | Creates one depth view sized to the swapchain extent. |
| Rendering.Renderer.CreateFramebuffers | VulkanRenderer/VulkanRenderer/Renderer.cpp:402-408 | Creates one framebuffer per view, framebuffer i attaching view i and the depth view, logged in order. |
| Rendering.Renderer.CleanUpSwapChain | VulkanRenderer/VulkanRenderer/Renderer.cpp:493-501 | Destroys exactly the framebuffers, the views and the swapchain, in that order. The table stays well-formed with no generation object left and every other object unchanged. |
| Rendering.Renderer.WaitForDeviceIdle | VulkanRenderer/VulkanRenderer/Renderer.cpp:503 | After the idle wait every fence is signalled and nothing is pending. |
| Rendering.Renderer.BuildSwapChainGeneration | VulkanRenderer/VulkanRenderer/Renderer.cpp:507-510 | Creates a complete generation (swapchain, views, depth view, framebuffers, in that order) for the surface, keeping every other object. |
| Rendering.Renderer.RebuildSwapChain | VulkanRenderer/VulkanRenderer/Renderer.cpp:505-510 | Tears down the old generation and builds a new one for the surface, logged in that order. The new extent is the intended extent. |
| Rendering.Renderer.RebuildObjects | VulkanRenderer/VulkanRenderer/Renderer.cpp:505-510 | The teardown and rebuild keep every object invariant and change nothing but the generation and the log: every object outside the swapchain generation keeps its table entry (`KeepsOtherObjects`), so the previous depth view is still alive, unchanged, next to the new one. |
| Rendering.Renderer.RecreateSwapChain | VulkanRenderer/VulkanRenderer/Renderer.cpp:493-511 | Keeps `Valid()`. Waits for idle, then tears down and rebuilds in protocol order, changing nothing else: every object outside the swapchain generation, the depth views of earlier rebuilds and the per-slot objects included, keeps its table entry (`KeepsOtherObjects`). The new images and extent come from the surface. The previous depth view stays alive, because `CleanUpSwapChain` never destroys the depth resources. |
| Rendering.Renderer.Clean | VulkanRenderer/VulkanRenderer/Renderer.cpp:67-71 | Destroys the debug messenger, then the generation as CleanUpSwapChain does, then the instance, keeping every other object. |
| Rendering.Renderer.InitDevice | VulkanRenderer/VulkanRenderer/Renderer.cpp:46-50 | Fails exactly as Init's outcome says up to the logical device. On success, the device is the first suitable one, with its unique queue families and the requested features. |
| Rendering.Renderer.InitSwapchain | VulkanRenderer/VulkanRenderer/Renderer.cpp:51-54 | Fails exactly when the swapchain or layout call fails, naming that call. Otherwise the swapchain is chosen for the picked device, with one view per image and the default layout. |
| Rendering.Renderer.InitUniformBuffers | VulkanRenderer/VulkanRenderer/Renderer.cpp:373-384 | Creates one live uniform buffer and one fresh mapped slot per frame slot. |
| Rendering.Renderer.InitDescriptorSets | VulkanRenderer/VulkanRenderer/Renderer.cpp:356-371 | Fails exactly when the pool or set call fails. Otherwise it has the default pool and one set per slot, set i writing uniform buffer i. |
| Rendering.Renderer.InitDescriptorStages | VulkanRenderer/VulkanRenderer/Renderer.cpp:55-57 | Uniform buffers, pool and sets: fails exactly when the pool or set call fails. Otherwise the descriptor tables are ready. |
| Rendering.Renderer.InitSwapchainStages | VulkanRenderer/VulkanRenderer/Renderer.cpp:51-57 | Fails exactly on the first failing call from the swapchain to the sets. Otherwise views and descriptor tables are ready. |
| Rendering.Renderer.InitFramebuffers | VulkanRenderer/VulkanRenderer/Renderer.cpp:60-62 | Fails exactly when the command-pool call fails. Otherwise the generation is complete. |
| Rendering.Renderer.InitCommandBuffers | VulkanRenderer/VulkanRenderer/Renderer.cpp:421-432 | Fails exactly when the allocation fails. Otherwise there is one live command buffer per slot. |
| Rendering.Renderer.InitSyncObjects | VulkanRenderer/VulkanRenderer/Renderer.cpp:434-454 | Fails exactly when the sync-object call fails. Otherwise every per-slot object is alive and distinct, and every fence is signalled. |
| Rendering.Renderer.InitSlotStages | VulkanRenderer/VulkanRenderer/Renderer.cpp:63-64 | Command buffers then sync objects: fails exactly on the first failing call, and otherwise every per-slot object is alive. |
| Rendering.Renderer.InitFrameStages | VulkanRenderer/VulkanRenderer/Renderer.cpp:60-64 | Fails exactly on the first failing call from the command pool to the sync objects. Otherwise every object is alive and every fence signalled. The device, the descriptor tables and the chosen swapchain are untouched. |
| Rendering.Renderer.MarkInitialized | VulkanRenderer/VulkanRenderer/Renderer.cpp:65 | Setting the flag after every object exists makes the object invariant hold. |
| Rendering.Renderer.InitFrameStagesAndMark | VulkanRenderer/VulkanRenderer/Renderer.cpp:60-65 | The flag is set exactly when no call from the command pool on fails. |
| Rendering.Renderer.InitObjects | VulkanRenderer/VulkanRenderer/Renderer.cpp:51-65 | Fails exactly when one of the object-creation calls fails, naming it. The flag is set exactly on success. |
| Rendering.Renderer.InitAfterDevice | VulkanRenderer/VulkanRenderer/Renderer.cpp:51-65 | Once the logical device exists, the outcome is decided by the creation calls. Success leaves a valid renderer on slot 0 with every fence signalled. |
| Rendering.Renderer.Init | VulkanRenderer/VulkanRenderer/Renderer.cpp:45-66 | The outcome is `InitOutcome` and the flag is set exactly on success. Success leaves `Valid()`, slot 0, every fence signalled, nothing in flight, the driver's images and the intended extent. |
| Rendering.Renderer.WaitForFence | VulkanRenderer/VulkanRenderer/Renderer.cpp:457 | The slot's fence is signalled and its work finished. Nothing else changes. |
| Rendering.Renderer.SubmitFrame | VulkanRenderer/VulkanRenderer/Renderer.cpp:469-480 | Resets the fence and has the callback record the slot's command buffer against the image's framebuffer. It raises exactly when the callback is missing, the callback throws, or submit fails, with the first of these as the reason. A throwing callback leaves no completed recording. The images, the extent and the object table are unchanged. |
| Rendering.Renderer.PresentFrame | VulkanRenderer/VulkanRenderer/Renderer.cpp:481-490 | Keeps `Valid()`, rebuilding and clearing the resize flag when the present result or the flag asks. The slot advances exactly when presented. After a rebuild the images and extent are the surface's. Otherwise they, the object table and the rest of the frame view are unchanged. |
| Rendering.Renderer.RecreateThenAdvance | VulkanRenderer/VulkanRenderer/Renderer.cpp:483-490 | A present that asks for a rebuild clears the flag, rebuilds the swapchain for the surface and moves to the next slot, with nothing else in the frame view changed. |
| Rendering.Renderer.AdvanceFrame | VulkanRenderer/VulkanRenderer/Renderer.cpp:490 | Only the frame counter moves, to the next slot. |
| Rendering.Renderer.RecordSubmitPresent | VulkanRenderer/VulkanRenderer/Renderer.cpp:469-490 | After a successful acquire the outcome is `FrameOutcomeFor` the callback's behaviour and the driver's answers, and the state change is `FrameEffect`. A frame that does not rebuild changes only the counter, the flag, the recordings and its own slot's fence and work. A frame that rebuilds changes only what the rebuild changes. After a rebuild the images and extent are the surface's. Otherwise they and the object table are unchanged. The fence invariant holds unless the frame stranded its fence. |
| Rendering.Renderer.Render | VulkanRenderer/VulkanRenderer/Renderer.cpp:456-491 | One frame: the outcome is `FrameOutcomeFor` the driver's answers and whether the render callback throws, the object invariant always holds, and the fence invariant holds unless the frame stranded its fence. The state change is `FrameEffect`. A frame that does not rebuild leaves the other slots' fences and work, the generation, the command buffers, the log, the images, the extent and the object table unchanged. A frame that rebuilds (stale acquire, or a present asking for it) takes the surface's images and extent and changes nothing else in the frame view. |
| Rendering.Renderer.UpdateUniformBuffer | VulkanRenderer/VulkanRenderer/Renderer.cpp:513-515 | Slot i's mapped bytes become the new value and every other slot is unchanged. |
| Rendering.Renderer.GetDescriptorSet | VulkanRenderer/VulkanRenderer/Renderer.h:94 | Before Init has completed the null handle; afterwards slot i's descriptor set. |
| Rendering.Renderer.GetUniformBuffer | VulkanRenderer/VulkanRenderer/Renderer.h:96 | Slot i's uniform buffer, with no initialization guard. |
| Rendering.Renderer.SlotResourcesLiveAndDistinct | VulkanRenderer/VulkanRenderer/Renderer.h:94-96 | On a valid renderer both getters return live, non-null handles, different for different slots. |
| Lifecycle.Registry.constructor | VulkanRenderer/VulkanRenderer/Renderer.cpp:11-12 | At program start there is no instance and the flag is clear. |
| Lifecycle.Registry.GetInstance | VulkanRenderer/VulkanRenderer/Renderer.cpp:27-37 | Finds the registered renderer exactly when one is registered and the flag is set, and reports no instance exactly when none is registered. While the registry is valid, the "call Init first" answer never occurs. |
| Lifecycle.Registry.Create | VulkanRenderer/VulkanRenderer/Renderer.cpp:14-26 | The outcome is the new renderer's Init outcome. On success the renderer is valid, the flag is set, and the renderer is registered if it is the first. A failed Init registers nothing. |
| Lifecycle.CreateThenGetInstance | VulkanRenderer/VulkanRenderer/Renderer.cpp:22-36 | After building a program's first renderer, GetInstance finds exactly that renderer. It finds no instance when Init threw. |
| Lifecycle.DefaultPolicyNeverRegisters | VulkanRenderer/VulkanRenderer/Renderer.h:20 | Without a custom device predicate construction always fails and GetInstance finds no instance. |

## Left out

- Vulkan, GLFW and the driver are not modelled, only the outcomes of their calls. Each creation call yields a fresh handle from a counter and each destruction removes it from the ghost object table. Result codes, enumerated devices, surface support, framebuffer size and swapchain images are inputs.
- The instance, debug messenger, surface, logical device, queues, render pass, descriptor-set layout, descriptor pool, sampler, pipeline, pipeline layout, command pool, depth image memory and uniform buffer memory are not tracked as objects. Only their effect on what follows is modelled (for example the layout and pool tables).
- `CreateDefaultSampler`, the pipeline and render-pass builders, `CreateBuffer`, `CreateImageView`, `findDepthFormat` and `transitionImageLayout` are not part of this model. They live in helper files outside the `Renderer` class. Their failures are not among the failing calls the model considers: Init's outcome ranges only over the calls named by `InitStage`. These unconsidered failures include a throwing `SamplerBuilder::CreateSampler` (Renderer.cpp:386-392), `CreateBuffer` (Renderer.cpp:381), `CreateImageView` (Renderer.cpp:311, Renderer.cpp:398), and `CreateImage` or `findDepthFormat` (Renderer.cpp:395-397). An unchecked `vkMapMemory` result is not modelled either.
- Rendering.Renderer.CreateSwapChain: the create-info is kept as a value, and the pre-transform, composite alpha, clipping and `oldSwapchain` fields are not modelled. The extent it uses is the intended one (see Findings), where Renderer.cpp:261 calls the defective rule.
- SwapchainPolicy.BuildSwapchainCreateInfo, Rendering.Renderer.Init, Rendering.Renderer.InitAfterDevice, Rendering.Renderer.RebuildSwapChain, Rendering.Renderer.RebuildObjects, Rendering.Renderer.RecreateSwapChain, Rendering.Renderer.PresentFrame, Rendering.Renderer.RecreateThenAdvance, Rendering.Renderer.RecordSubmitPresent, Rendering.Renderer.Render: each states the intended extent (`ChooseSwapExtentIntended`), not the defective one Renderer.cpp:261 computes (see Findings).
- `GetInstance(window, funcs)` is not modelled. Its creation path falls off the end of a non-void function, which is undefined behaviour in C++.
- `FramebufferResizeCallback` is not modelled as a callback. `framebufferResized` is a field that a frame reads and clears; the window system setting it is outside the model.
- The deleted copy constructor and assignment have no counterpart. The destructor (which calls `Clean`) is private and is never run in the model.
- Rendering.Renderer.Clean: a second call is not callable, since the handles are already destroyed. The model does not claim idempotence. The depth view and the per-slot objects are not destroyed, as in the source.
- Rendering.Renderer.Init: requires a freshly constructed renderer, which is the only place the source calls it. When a call fails, the objects created before it are neither destroyed nor described. The model promises only the outcome and that the flag stays clear.
- Rendering.Renderer.RecreateSwapChain: a failing Vulkan call during a rebuild (a raising `vkCreateSwapchainKHR`) is not modelled; the rebuild always succeeds.
- Rendering.Renderer.Render: after a frame that rebuilds, the object table is described by the object invariant and the rebuild log only; the frame's contract does not repeat `RecreateSwapChain`'s per-object guarantees. The swapchain image format, the create-info and the depth extent are not in the frame view.
- The GPU timeline is abstracted to one ghost bit per fence plus the set of slots with work in flight. Semaphore waits and `vkDeviceWaitIdle` blocking keep only the ordering they impose.
- `isInitialized` is a static flag in the source. The registry holds it as the static, and each renderer also keeps its own copy, which `Valid()` and `GetDescriptorSet` read. The two agree for the single renderer a program builds.
- Console output (`std::cout`) and exception messages are not modelled. A raised exception from a modelled call is a `FrameFailed`, `InitError` or `Err` outcome. Whether the application's render callback throws is an input to `Render`, `RecordSubmitPresent` and `SubmitFrame`. A throw gives `FrameFailed(RenderFuncRaised)`.

## Findings

| source | as written | input that shows it | evidently intended | confidence | as-written member | corrected member |
|---|---|---|---|---|---|---|
| VulkanRenderer/VulkanRenderer/Renderer.cpp:252 | The height is clamped from the already-clamped width: `clamp(actualExtent.width, minH, maxH)` | Sentinel current extent, bounds 1..4096, window 800x600: the swapchain extent is 800x800 | The height is clamped from the window height, giving 800x600 | not executed | SwapchainPolicy.ChooseSwapExtent, SwapchainPolicy.ExtentHeightDefectExample | SwapchainPolicy.ChooseSwapExtentIntended |
