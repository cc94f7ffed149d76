# vulkan_training: a Dafny model of the engine's bookkeeping

This project models the parts of the `vulkan_training` rendering engine (the
"Riverfish" engine) that make decisions: which fences a frame waits on and
resets, which uniform slot it writes, how textures get registry slots, how
uniform copies are laid out in one buffer, how the mouse turns the camera and
the keyboard moves it, and how devices, queue families, memory types,
swapchain formats and extents, image aspects, instance layers and framebuffer
attachments are chosen. It also models how pipelines, shaders and unique
handles pass ownership of Vulkan handles, how the asset loader flattens meshes
and walks the node tree, and how the SPIR-V reflection printers build their text.

The Vulkan driver, VMA, GLFW, assimp and stb are not modelled. What they
report (surface capabilities, queue families, memory types, decoded images,
whether a create or submit call succeeds, the acquired image index, the
first contents of a new allocation) is a
parameter of the operation that asks for it. `Vk.Device` stands for the
logical device. It hands out fresh non-null handles and tracks whether each
fence is signalled: a wait leaves the fence signalled, and a reset leaves it
unsignalled. `Vk.DestroyLog` records the vkDestroy* calls in order.

Each source file that updates objects in place is a class with the fields it
updates. Its methods state their new state, often through a pure step
function on a snapshot of the object (`FrameLoop.DrawFrameStep`,
`Textures.Load`), and the lemmas are proved about that function. The pure
selection rules are functions with contracts.

Where the code has an evident bug, the operations keep the code's behaviour.
The corrected definition sits next to it, with the intended property proved
and a lemma giving an input on which the two differ (see "## Findings").

One file per source file:

| file | models |
|---|---|
| `frame_loop.dfy` | src/VulkanApplication.cpp: sync objects, command buffers, `updateUbos`, `drawFrame` |
| `fence_container.dfy` | include/ImagesInFlight.hpp |
| `texture_manager.dfy` | src/TextureManager.cpp |
| `uniform_data.dfy` | include/UniformData.hpp |
| `vma_buffer.dfy` | src/VmaVulkanBuffer.cpp |
| `per_frame_uniforms.dfy` | src/PerFrameUniformSystem.cpp |
| `renderable.dfy` | src/Renderable.cpp |
| `camera.dfy` | src/CameraSystem.cpp |
| `swapchain.dfy` | src/VulkanSwapchain.cpp |
| `device.dfy` | src/VulkanDevice.cpp |
| `image.dfy` | src/VulkanImage.cpp |
| `instance.dfy` | src/VulkanInstance.cpp |
| `framebuffer.dfy` | src/VulkanFramebuffer.cpp |
| `pipeline.dfy` | include/Pipeline.hpp, src/Pipeline.cpp |
| `shader.dfy` | src/Shader.cpp |
| `unique_handle.dfy` | include/utils/UniqueHandle.hpp |
| `asset_loader.dfy` | src/AssetLoader.cpp |
| `printers.dfy` | include/spirv_reflect/printers.h |
| `vk.dfy`, `common.dfy` | the device and destroy log above; handles, `Option`/`Result`, constants from include/Constants.hpp |

The texture manager's binding numbers follow the code, which puts the texture
array at binding 1 and the sampler at binding 0
(src/TextureManager.cpp:67-83). The engine's own constants in
include/Constants.hpp say the reverse.

## Model

| member | source | states |
|---|---|---|
| FrameLoop.SubmitEvents | src/VulkanApplication.cpp:333-353 | a frame whose vkQueueSubmit succeeds makes exactly two more calls, the submit and the present, and neither waits on a fence; a failed submit makes no further call |
| FrameLoop.DrawFrameEvents | src/VulkanApplication.cpp:276-356 | the calls of a frame are those made before the submit followed by those of the submit and present |
| FrameLoop.DrawFramePreservesInv | src/VulkanApplication.cpp:276-356 | every frame, completed or thrown at the submit, keeps the frame-loop invariant: K distinct non-null slot fences, every claim-table entry null or a slot fence, submitted work pending only under unsignalled slot fences |
| FrameLoop.DrawFrameAdvancesSlot | src/VulkanApplication.cpp:355 | `currentFrame` moves to `(currentFrame + 1) % maxFramesInFlight` after a completed frame, stays put when the submit throws, and stays below maxFramesInFlight |
| FrameLoop.WaitBeforeAcquire | src/VulkanApplication.cpp:281-289 | the slot's in-flight fence is waited for before the next image is acquired with the slot's image-available semaphore |
| FrameLoop.ClaimWaited | src/VulkanApplication.cpp:295-296 | the fence claiming the acquired image is waited for after the acquire exactly when that claim is not null |
| FrameLoop.WaitsBeforeSubmit | src/VulkanApplication.cpp:281-298 | before the submit the slot fence is waited for once, and a second time when the acquired image is claimed by that same fence |
| FrameLoop.OwnClaimWaitedTwice | src/VulkanApplication.cpp:281-298 | over the whole frame the slot fence is waited for twice when it also claims the acquired image, once otherwise |
| FrameLoop.ImageClaimedBySlotFence | src/VulkanApplication.cpp:298 | after the frame the acquired image is claimed by the slot fence and every other claim-table entry is unchanged |
| FrameLoop.ResetThenSubmit | src/VulkanApplication.cpp:330-353 | on success the last three calls are the slot-fence reset, the submit of the acquired image's command buffer (waiting on image-available, signalling render-finished and the slot fence) and the present; on failure the reset is the last call and nothing is submitted or presented |
| FrameLoop.UniformsWrittenBeforeWait | src/VulkanApplication.cpp:255-281 | every frame writes uniform slot 0, and only slot 0, before its first fence wait |
| FrameLoop.FirstWaitIsSlotFence | src/VulkanApplication.cpp:278-281 | a frame's first fence wait is its third call and is on the current slot's fence |
| FrameLoop.NextFrameOverwritesPendingSlot | src/VulkanApplication.cpp:165-166 | with every command buffer reading slot 0, after one completed frame its work is still pending under its fence while the next frame rewrites slot 0 before waiting, and that first wait is on the other slot's fence |
| FrameLoop.Application.CreateCommandBuffers | src/VulkanApplication.cpp:106-124 | one entry and no recorded slot per framebuffer; it succeeds iff vkAllocateCommandBuffers does, and then the entries are distinct, fresh and non-null; on failure (the throw) every entry is VK_NULL_HANDLE and no handle is used; fence states unchanged |
| FrameLoop.Application.RecordCommandBuffers | src/VulkanApplication.cpp:129-173 | succeeds iff neither vkBeginCommandBuffer nor vkEndCommandBuffer fails on any buffer; every buffer before the first failing one is recorded to bind uniform slot 0, and that one and the later ones keep their prior state |
| FrameLoop.Application.CreateSyncObjects | src/VulkanApplication.cpp:175-198 | succeeds iff all 3 * maxFramesInFlight creates succeed; the objects of exactly the create calls before the first failing one exist, later entries stay null (the throw); every fence made is fresh and signalled, other fences keep their state, the claim table is all null with one entry per framebuffer; on success the frame-loop invariant holds |
| FrameLoop.Application.CreateSlots | src/VulkanApplication.cpp:190-197 | the loop over the slots stops at the first failing create; exactly the calls before it made their objects; the fences made are fresh, signalled and in increasing handle order |
| FrameLoop.Application.CreateSlotObjects | src/VulkanApplication.cpp:191-195 | the `or` chain of one slot: a create is made only when every earlier create of the slot succeeded, so the first failure leaves that object and the later ones of the slot null; a fence made is fresh and signalled |
| FrameLoop.MadeFirstStep | src/VulkanApplication.cpp:190-197 | filling slot i with the first `made` of its three objects extends the prefix of successful create calls from 3i to 3i + made |
| FrameLoop.Application.UpdateUbos | src/VulkanApplication.cpp:255-274 | the object uniforms and the per-frame uniforms are both written to slot 0, whatever `frameIdx` is |
| FrameLoop.Application.WaitAndRetire | src/VulkanApplication.cpp:281 | waiting on a fence leaves it signalled and retires the work submitted under it; no other fence changes |
| FrameLoop.Application.PrepareFrame | src/VulkanApplication.cpp:276-330 | the state and the call trace up to the submit are those of the specification function `BeforeSubmit` and its event list |
| FrameLoop.Application.DrawFrame | src/VulkanApplication.cpp:276-356 | the new state and the calls made are exactly those of `DrawFrameStep`, about which the lemmas above are proved; it reports whether the submit succeeded |
| FrameLoop.Application.SubmitFrame | src/VulkanApplication.cpp:333-355 | after a successful submit the state is `Advance` of the state before it: the slot fence now guards the image's work and the frame index moves on; the submit and the present are recorded with the slot's semaphores and fence |
| FrameLoop.Advance | src/VulkanApplication.cpp:333-355 | only the pending work and the frame index change: the slot fence maps to the image and the index becomes (currentFrame + 1) % maxFramesInFlight |
| FrameLoop.SubmittedIsAdvanced | src/VulkanApplication.cpp:276-356 | a completed frame is the state before the submit, advanced; the slot fences and the frame index are untouched before the submit |
| FenceContainers.FenceContainer.Sized | include/ImagesInFlight.hpp:18-36 | `size` fresh fences, each created signalled and stored in creation order; the device's other fences keep their state and it gains no other fence |
| FenceContainers.FenceContainer.NullHandles | include/ImagesInFlight.hpp:38-42 | `size` entries, all VK_NULL_HANDLE |
| FenceContainers.FenceContainer.WaitForFence | include/ImagesInFlight.hpp:45-54 | a null entry is a no-op; otherwise that fence, and only it, ends up signalled |
| FenceContainers.FenceContainer.ResetFence | include/ImagesInFlight.hpp:57-63 | a null entry is a no-op; otherwise that fence, and only it, ends up unsignalled |
| FenceContainers.FenceContainer.At | include/ImagesInFlight.hpp:68-76 | reading entry `idx` yields exactly `fences[idx]`, one of the container's fences |
| FenceContainers.FenceContainer.Assign | include/ImagesInFlight.hpp:68-71 | writing through `operator[]` replaces that entry alone |
| Textures.LoadAll | src/TextureManager.cpp:151-191 | loading a list of paths in order keeps both arrays at TEXTURES_MAX entries and yields one result per path |
| Textures.InitialInv | src/TextureManager.cpp:85-90 | the freshly built registry satisfies the registry invariant: no path mapped, every slot showing the placeholder with a null sampler and the shader-read-only layout |
| Textures.LoadPreservesInv | src/TextureManager.cpp:151-191 | every load keeps the invariant: mapped slots are distinct and below the counter, a mapped slot's descriptor shows its texture, unused slots still show the placeholder |
| Textures.HitIsIdempotent | src/TextureManager.cpp:153-156 | a mapped path returns its stored slot and changes nothing, so a path loaded once returns the same slot on every later load |
| Textures.DecodeFailureGivesSentinel | src/TextureManager.cpp:158-162 | a new path that fails to decode returns TEXTURES_MAX - 1 and leaves counter, map and descriptors unchanged |
| Textures.NewPathGetsNextSlot | src/TextureManager.cpp:179-190 | a new decodable path below capacity gets the counter's prior value, not used by any other path; the counter grows by one; the map gains that entry alone; only that slot's texture and descriptor view change |
| Textures.OverflowIsSticky | src/TextureManager.cpp:179-184 | at capacity a new decodable path throws after the counter was bumped, with map and slots untouched, and every later new decodable path throws as well |
| Textures.SequentialSlots | src/TextureManager.cpp:179 | distinct new decodable paths loaded one after another get consecutive slots counter, counter + 1, ... in call order |
| Textures.TailStillNew | src/TextureManager.cpp:179-190 | after the first of distinct new paths is mapped, the remaining paths are still distinct and unmapped |
| Textures.SentinelIsNotReserved | src/TextureManager.cpp:161 | with 4095 textures loaded, the next real texture gets slot TEXTURES_MAX - 1, the very slot a decode failure reports |
| Textures.TextureManager.constructor | src/TextureManager.cpp:54-94 | the registry starts in the initial state (every descriptor on the placeholder view, null sampler, shader-read-only layout); the texture array sits at binding 1 with TEXTURES_MAX descriptors, the sampler at binding 0; the pool-size list stays empty |
| Textures.TextureManager.FindInIndexMap | src/TextureManager.cpp:193-197 | finds a slot exactly when the path is mapped, and then it is the mapped slot |
| Textures.TextureManager.SetInIndexMap | src/TextureManager.cpp:199-203 | maps the path to the slot and changes no other entry |
| Textures.TextureManager.GenerateDescriptorEntry | src/TextureManager.cpp:205-209 | needs `slot < TEXTURES_MAX`; that slot's descriptor now shows its texture's view and no other descriptor changes |
| Textures.TextureManager.LoadTexture | src/TextureManager.cpp:151-191 | the new registry state and the returned slot or error are those of the specification function `Load`, about which the lemmas above are proved; the invariant is kept |
| UniformBuffers.CalcAlignedTypeSize | include/UniformData.hpp:29-45 | the result is a multiple of the alignment, at least sizeof(T) and less than sizeof(T) plus one alignment |
| UniformBuffers.AlignedSizeIsSmallestMultiple | include/UniformData.hpp:36-44 | no multiple of the alignment that holds a T is smaller than the result: it is the least such multiple |
| UniformBuffers.AlignedSizeExamples | include/UniformData.hpp:32-35 | for an alignment of 40 bytes, 64 becomes 80, 120 stays 120 and 12 becomes 40 |
| UniformBuffers.SlotsInBounds | include/UniformData.hpp:51-54 | in a buffer of `aligned_t_size * N` bytes every one of the N slots fits |
| UniformBuffers.SlotInfo | include/UniformData.hpp:111-117 | the descriptor of slot i names the buffer, starts at `aligned_t_size * i` and spans sizeof(T) |
| UniformBuffers.WriteSlotsStep | include/UniformData.hpp:75-80 | one more pass of `update()`'s loop overwrites just the next slot |
| UniformBuffers.WriteSlots | include/UniformData.hpp:73-81 | writing the first `count` copies into their slots keeps the buffer's length |
| UniformBuffers.WriteSlotsFillsSlots | include/UniformData.hpp:73-81 | after the first `count` passes, slot i (for every i < count) holds copy i's bytes |
| UniformBuffers.WriteSlotsKeepsPadding | include/UniformData.hpp:73-81 | after those passes every byte outside the written slots, the padding and the tail, is as before |
| UniformBuffers.OtherSlotsUnchanged | include/UniformData.hpp:92-99 | writing one slot leaves the bytes of every other slot as they were |
| UniformBuffers.SlotFlushes | src/VmaVulkanBuffer.cpp:71-73 | `count` slot writes record one flush of [0, sizeof(T)) each on memory that is not host-coherent, and none on host-coherent memory |
| UniformBuffers.SlotWriteNotFlushed | include/UniformData.hpp:92-99 | the requested flush of `update(index)`, before VMA widens it to whole atoms, covers a byte of the slot it wrote iff index is 0: from slot 1 on the written bytes are never in the requested range |
| UniformBuffers.RoundedSlotWriteNotFlushed | include/UniformData.hpp:92-99 | once the flush is widened to whole nonCoherentAtomSize atoms, `update(index)` still flushes none of its bytes when slot `index` starts at or past sizeof(T) rounded up to the atom |
| UniformBuffers.UniformData.Encoded | include/UniformData.hpp:144 | the memory images of the N host copies, copy i's image at position i |
| UniformBuffers.UniformData.constructor | include/UniformData.hpp:50-58 | a buffer sized for `aligned_t_size * N` bytes, mapped for good, holding the allocation's first contents with no flush yet, with `aligned_t_size` the rounded size |
| UniformBuffers.UniformData.WithData | include/UniformData.hpp:60-69 | as the plain constructor, holding the given copies, with every copy then pushed to its slot over the first contents, and one [0, sizeof(T)) flush per copy when the memory is not host-coherent |
| UniformBuffers.UniformData.Update | include/UniformData.hpp:73-81 | the buffer afterwards is the old one with every slot i rewritten with copy i, which by the lemmas above means each slot holds its copy and the padding is untouched; the flushes gained are N ranges [0, sizeof(T)) when not host-coherent, none otherwise |
| UniformBuffers.UniformData.CopyNextSlot | include/UniformData.hpp:75-80 | one pass of `update()`'s loop from i to i + 1: the first i + 1 slots are written and one more flush is recorded |
| UniformBuffers.UniformData.CopySlot | include/UniformData.hpp:77-79 | one pass of `update()`'s loop: copy i lands at `aligned_t_size * i`, nothing else changes, and the flush recorded is [0, sizeof(T)) whatever i is |
| UniformBuffers.UniformData.UpdateAt | include/UniformData.hpp:92-99 | needs `index < N`; exactly bytes [aligned * index, aligned * index + sizeof(T)) change, they receive copy `index`, every other slot is unchanged, and the flush recorded is [0, sizeof(T)) |
| UniformBuffers.UniformData.GetDescriptorBufferInfos | include/UniformData.hpp:106-121 | N descriptors, descriptor i over the whole buffer's handle at offset `aligned_t_size * i` with range sizeof(T); the ranges are pairwise disjoint and inside the allocation |
| UniformBuffers.UniformData.Set | include/UniformData.hpp:137-141 | needs `index < N`; writing through `operator[]` replaces host copy `index` alone |
| VmaBuffers.Overwrite | src/VmaVulkanBuffer.cpp:69 | a memcpy into the mapping: the written range holds the chunk, every other byte is unchanged, the length is kept |
| VmaBuffers.VmaBuffer.constructor | src/VmaVulkanBuffer.cpp:6-19 | a fresh allocation of the given size holding its first contents, unmapped, with the initial data copied by `copyToBuffer(data, size)` and a descriptor covering the whole allocation |
| VmaBuffers.VmaBuffer.Map | src/VmaVulkanBuffer.cpp:110-117 | maps at most once: afterwards the buffer is mapped and holds exactly one VMA mapping |
| VmaBuffers.VmaBuffer.Unmap | src/VmaVulkanBuffer.cpp:119-127 | afterwards the buffer is unmapped and holds no VMA mapping; a second call does nothing |
| VmaBuffers.VmaBuffer.Mem | src/VmaVulkanBuffer.cpp:129-136 | returns with the buffer mapped, mapping on demand, never mapping twice |
| VmaBuffers.VmaBuffer.CreateBufferDescriptor | src/VmaVulkanBuffer.cpp:103-108 | the descriptor is the buffer, the allocation offset and the allocation size |
| VmaBuffers.VmaBuffer.FlushIfNotCoherent | src/VmaVulkanBuffer.cpp:40-44 | a flush of [0, size) is recorded exactly when the memory is not host-coherent |
| VmaBuffers.VmaBuffer.CopyToBuffer | src/VmaVulkanBuffer.cpp:21-49 | a null pointer or a zero size changes nothing; otherwise the first min(size, allocation size) bytes land at offset 0, are flushed when not host-coherent, and the mapping is left as found |
| VmaBuffers.VmaBuffer.CopyToBufferAt | src/VmaVulkanBuffer.cpp:52-78 | null or zero size changes nothing; a range past the allocation throws, leaving the bytes alone and the buffer mapped; otherwise exactly [offset, offset + size) is written, [0, size) is flushed when not host-coherent, and the mapping is left as found |
| VmaBuffers.WrittenRangeFlush | src/VmaVulkanBuffer.cpp:71-73 | the intended flush of a write at `offset`: it covers a byte iff the write wrote it |
| VmaBuffers.RoundUp | src/VmaVulkanBuffer.cpp:72 | the least whole number of atoms at or above its argument |
| VmaBuffers.RoundDown | src/VmaVulkanBuffer.cpp:72 | the greatest whole number of atoms at or below its argument |
| VmaBuffers.AtomAligned | src/VmaVulkanBuffer.cpp:72 | the range vmaFlushAllocation flushes: both ends on atom boundaries, containing the requested range and less than one atom wider at each end |
| VmaBuffers.RoundedWriteNotFlushed | src/VmaVulkanBuffer.cpp:71-73 | a write starting at or past `size` rounded up to the atom is missed by the widened [0, size) flush and covered by the widened intended flush |
| VmaBuffers.OffsetWriteNotFlushed | src/VmaVulkanBuffer.cpp:71-73 | for a write at an offset at least its size, no written byte is covered by the [0, size) flush as written, and every written byte is covered by the intended flush |
| PerFrameUniforms.PerFrameUniformSystem.constructor | src/PerFrameUniformSystem.cpp:5-20 | uniform data for maxFramesInFlight copies, then pool, sets, texture fills and uniform-buffer writes in that order; afterwards set i's uniform binding covers exactly slot i |
| PerFrameUniforms.PerFrameUniformSystem.CreateDescriptorPool | src/PerFrameUniformSystem.cpp:22-43 | the pool sizes are the texture manager's followed by one UNIFORM_BUFFER entry of maxFramesInFlight descriptors, with maxSets = maxFramesInFlight; the pool is a fresh handle |
| PerFrameUniforms.PerFrameUniformSystem.GenerateDescriptorSets | src/PerFrameUniformSystem.cpp:45-60 | exactly maxFramesInFlight distinct fresh sets, every one allocated with the pipeline's frame-frequency layout |
| PerFrameUniforms.PerFrameUniformSystem.FillDescriptorSets | src/PerFrameUniformSystem.cpp:84-90 | every set, in order, is handed to the texture manager once |
| PerFrameUniforms.PerFrameUniformSystem.FillUboDescriptor | src/PerFrameUniformSystem.cpp:62-82 | the buffer-info count equals the set count (the source's assertion, here proved), and set i is bound at `perFrame_uboBinding` to the descriptor of slot i |
| PerFrameUniforms.PerFrameUniformSystem.RefreshData | src/PerFrameUniformSystem.cpp:92-101 | needs `setIdx` below the set count and maxFramesInFlight; the set's textures are filled again, slot `setIdx` gets the camera's current view and projection, its bytes are pushed, and every other slot's bytes are unchanged |
| PerFrameUniforms.PerFrameUniformSystem.Bind | src/PerFrameUniformSystem.cpp:103-114 | needs `setIdx` below the set count; binds set `setIdx` alone at set number BindFrequency_Frame with the pipeline layout, and the only uniform descriptor written into that set covers slot `setIdx` |
| Renderables.DrawSequence | src/Renderable.cpp:72-88 | the recorded commands are the pipeline bind first, then one draw per mesh in mesh order, then the bind of the chosen set at set number 1 |
| Renderables.DrawsPrecedeSetBind | src/Renderable.cpp:76-87 | no set bind precedes a draw in that sequence: the only set bind is the last command, so every draw of the call runs with whatever set 1 was bound before it |
| Renderables.Renderable.constructor | src/Renderable.cpp:4-10 | the pool then the sets; afterwards set i's binding 0 covers exactly uniform slot i |
| Renderables.Renderable.CreateDescriptorPool | src/Renderable.cpp:12-27 | a single UNIFORM_BUFFER pool entry of maxFramesInFlight descriptors, with maxSets = maxFramesInFlight; the pool is a fresh handle |
| Renderables.Renderable.GenerateUboDescriptorSets | src/Renderable.cpp:29-63 | maxFramesInFlight distinct fresh sets allocated with the pipeline's set layout at index 1, and set i bound at binding 0 to the descriptor of slot i |
| Renderables.Renderable.UpdateUniforms | src/Renderable.cpp:65-70 | host copy `bufferIdx` becomes the new block, its bytes land in slot `bufferIdx`, and every other slot's bytes are unchanged |
| Renderables.Renderable.CmdBindSetsDrawMeshes | src/Renderable.cpp:72-88 | the commands recorded are exactly `DrawSequence`, draws before the set bind |
| Cameras.Init | src/CameraSystem.cpp:12-16 | the constructor sets speed 0.05 and sensitivity 0.5, position z to 5, direction z to -1 and up y to 1, and leaves every other field of the shared camera as it was |
| Cameras.InitialCamera | src/CameraSystem.cpp:12-16 | the process's first camera starts at (0,0,5) looking along (0,0,-1) with up (0,1,0), speed 0.05, sensitivity 0.5, zero yaw and pitch, callback flag unset |
| Cameras.ClampPitch | src/CameraSystem.cpp:51-54 | the clamp as written: pitch ends in [-89, 89], in-range values are kept, above 89 gives exactly 89, below -89 gives -88 |
| Cameras.ClampPitchIntended | src/CameraSystem.cpp:50 | the clamp the comment describes: in-range values kept, above 89 gives 89, below -89 gives -89 |
| Cameras.ClampPitchAsymmetric | src/CameraSystem.cpp:51-54 | at -90 the clamp as written gives -88 where the intended clamp gives -89; at +90 both give 89 |
| Cameras.ClampPitchIntendedMonotonic | src/CameraSystem.cpp:50 | the intended clamp is monotonic and idempotent |
| Cameras.MouseStep | src/CameraSystem.cpp:25-63 | after any callback the last cursor equals the given one and the flag is set; yaw grows by (last_x - xpos) * sensitivity and pitch by (last_y - ypos) * sensitivity, the first call using the cursor itself as last; pitch is then clamped into [-89, 89]; position, up, speed and sensitivity are untouched |
| Cameras.FirstCallbackHasZeroOffsets | src/CameraSystem.cpp:29-36 | the first callback of the process leaves yaw as it was and pitch only clamped |
| Cameras.StillCursorDoesNotTurn | src/CameraSystem.cpp:39-48 | a second callback at the same cursor position changes neither yaw, pitch nor direction |
| Cameras.MoveStep | src/CameraSystem.cpp:99-127 | only the position changes: FORWARD adds direction times speed, BACKWARD subtracts it, LEFT adds the normalised side vector times speed, RIGHT subtracts it |
| Cameras.MoveThenOppositeRestores | src/CameraSystem.cpp:106-125 | over the reals each move followed by the opposite move restores the camera exactly |
| Cameras.OppositeKeysCancel | src/CameraSystem.cpp:84-97 | holding W with S, A with D, or all four keys leaves the camera where it was, over the reals |
| Cameras.CameraStatics.constructor | src/CameraSystem.cpp:29 | the statics start zeroed with the first-input flag unset |
| Cameras.CameraStatics.MouseMovementCallback | src/CameraSystem.cpp:25-63 | the statics change exactly as `MouseStep` says; pitch ends in [-89, 89] and the last cursor is the given one |
| Cameras.CameraSystem.constructor | src/CameraSystem.cpp:9-23 | the shared statics change as `Init` says and the projection is built once, with near plane 0.1 and far plane 100 |
| Cameras.CameraSystem.GenCurrentVPMatrices | src/CameraSystem.cpp:70-80 | the projection is the constructor's, unchanged; the view looks from the position towards position plus direction with the stored up vector; no state changes |
| Cameras.CameraSystem.MoveCamera | src/CameraSystem.cpp:99-127 | the statics change exactly as `MoveStep` says |
| Cameras.CameraSystem.ProcessKeyboardMovement | src/CameraSystem.cpp:84-97 | the statics change exactly as `KeyboardStep` says |
| Cameras.KeyboardStep | src/CameraSystem.cpp:84-97 | W, S, A and D are checked in that order; only the position changes; no key pressed changes nothing, and a single key makes exactly its one move |
| Cameras.DirFromAngles | src/CameraSystem.cpp:56-60 | the direction's y is sin(pitch), x is cos(yaw) cos(pitch) and z is sin(yaw) cos(pitch), so a vertical pitch leaves no horizontal component |
| Swapchains.ChooseSwapSurfaceFormat | src/VulkanSwapchain.cpp:13-21 | the result is one of the offered formats; it is B8G8R8A8_SRGB with SRGB_NONLINEAR iff that pair is offered, and the first offered format otherwise |
| Swapchains.ChooseSwapPresentMode | src/VulkanSwapchain.cpp:23-31 | MAILBOX iff it is offered, FIFO otherwise (whether offered or not) |
| Swapchains.ToUint32 | src/VulkanSwapchain.cpp:42-45 | the cast lands in [0, 2^32-1], agrees with the input on that range and is congruent to it modulo 2^32 |
| Swapchains.Clamp | src/VulkanSwapchain.cpp:49-55 | max(lo, min(hi, x)) lies in [lo, hi] when lo <= hi, keeps in-range values and gives lo when hi < lo |
| Swapchains.ChooseSwapExtentAsWritten | src/VulkanSwapchain.cpp:33-59 | the current extent when its width is not UINT32_MAX; otherwise the framebuffer width, cast to 32 bits, clamped into [min width, max width], and the height clamped into [min WIDTH, max height] |
| Swapchains.ChooseSwapExtent | src/VulkanSwapchain.cpp:33-59 | the current extent when its width is not UINT32_MAX; otherwise each dimension lies within its own [min, max] and an in-range framebuffer size is kept exactly |
| Swapchains.HeightClampUsesMinWidth | src/VulkanSwapchain.cpp:53 | for a 900x500 framebuffer on a surface allowing widths 800-1000 and heights 100-600 the height as written is 800, above the maximum, while the per-dimension clamp keeps 500 |
| Swapchains.ImageCount | src/VulkanSwapchain.cpp:103-106 | at most minImageCount, at most maxImageCount when that is non-zero, equal to minImageCount iff there is no limit or the minimum fits under it, and positive when the minimum is |
| Swapchains.SharingFor | src/VulkanSwapchain.cpp:120-133 | fails iff a queue family is missing; CONCURRENT over [graphics, present] iff the families differ, EXCLUSIVE with no indices otherwise |
| Swapchains.CreateSwapchain | src/VulkanSwapchain.cpp:87-153 | succeeds iff both families are known and creation succeeds; then the handle is fresh and non-null and the create info holds the chosen image count, surface format, extent as written, sharing and present mode, one layer, clipped, no old swapchain |
| Swapchains.CreateSwapchainImageViews | src/VulkanSwapchain.cpp:169-200 | succeeds iff every view creation does, otherwise reports the first failing index; view i is a fresh distinct handle describing a 2D colour view, one mip level and one layer, of image i in the swapchain format |
| Devices.QueryGraphicsFamilyIndice | src/VulkanDevice.cpp:10-27 | some index iff some family has the graphics bit; then it is the first such family |
| Devices.FirstEvenPresent | src/VulkanDevice.cpp:41-50 | an even index at or past the start whose family can present, with no earlier even presenting family; none iff no even family from there on can present |
| Devices.QueryQueueFamilies | src/VulkanDevice.cpp:29-53 | the graphics family is the first graphics-capable one; the presentation family is the first presenting family among indices 0, 2, 4, ..., because the loop increments twice |
| Devices.PresentationFamily | src/VulkanDevice.cpp:41-50 | the intended search: some index iff some family can present, and then it is the first one |
| Devices.QueueFamiliesOf | src/VulkanDevice.cpp:29-53 | the intended result of the family query: the first graphics family and the first presenting family |
| Devices.OddFamiliesSkipped | src/VulkanDevice.cpp:41-50 | the search as written only ever reports even families, and with two families of which only family 1 presents it finds nothing where the intended search finds 1 |
| Devices.SearchesAgreeOnEvenFamily | src/VulkanDevice.cpp:41-50 | when the first presenting family is even, the search as written and the intended one agree |
| Devices.PickPhysicalDeviceAsWritten | src/VulkanDevice.cpp:55-72 | no devices gives the "No Vulkan supporting physical devices" error; device 0 when it has a graphics family; otherwise device 1, and a read past the end when there is only one device |
| Devices.PickPhysicalDevice | src/VulkanDevice.cpp:55-72 | the intended choice: the first device with a graphics family, an error iff there is none, the no-devices error iff the list is empty |
| Devices.PickAsWrittenIgnoresSecondDevice | src/VulkanDevice.cpp:65-71 | with two devices lacking graphics families the code as written returns device 1 while the intended choice reports that no device fits |
| Devices.UniqueFamilies | src/VulkanDevice.cpp:78-81 | exactly the two family indices, without duplicates, in ascending order |
| Devices.CreateLogicalDeviceQueues | src/VulkanDevice.cpp:74-123 | succeeds iff both families are known and device creation succeeds; then one queue-create info per distinct family, ascending, covering both families, each for one queue of priority 1.0 |
| Devices.GetMemoryTypeIndex | src/VulkanDevice.cpp:168-193 | a suitable type below memoryTypeCount exists iff one is returned, and then it is the smallest; otherwise UINT_MAX with the flag false when the caller passed one, the "Cannot find suitable memory type" error when not |
| Devices.GuardAdmitsOnePastEnd | src/VulkanDevice.cpp:197 | the `<=` guard as written (`MemoryIndexGuardAsWritten`) admits index 32, one past the end of the 32-entry table |
| Devices.GetMemoryProperties | src/VulkanDevice.cpp:195-202 | the flags of the given memory type iff the index is inside the table, the assertion failure otherwise |
| Devices.FoundTypeHasProperties | src/VulkanDevice.cpp:177-201 | a type index the search finds always passes the corrected bound, and its flags include the requested properties |
| Images.HasDepth | src/VulkanImage.cpp:10-22 | holds exactly for the six depth formats, codes 124 to 130 without S8_UINT |
| Images.HasStencil | src/VulkanImage.cpp:24-34 | holds exactly for the four stencil formats, codes 127 to 130 |
| Images.HasDepthOrStencil | src/VulkanImage.cpp:36-39 | holds exactly for codes 124 to 130 |
| Images.CombinedFormatsHaveDepth | src/VulkanImage.cpp:12-31 | every stencil format other than S8_UINT also has depth |
| Images.AspectMaskAsWritten | src/VulkanImage.cpp:45-58 | colour usage gives COLOR alone; the mask never holds DEPTH; without colour usage it holds COLOR iff the image is a depth-stencil attachment with a depth format, and STENCIL iff it is one with a stencil format |
| Images.AspectMask | src/VulkanImage.cpp:45-58 | the intended mask: colour usage gives COLOR alone; a depth-stencil attachment gets DEPTH iff its format has depth, STENCIL iff it has stencil, never COLOR; other usages get nothing |
| Images.DepthFormatGetsColorAspect | src/VulkanImage.cpp:52-53 | a D32_SFLOAT depth attachment gets COLOR as written and DEPTH as intended |
| Images.AspectMasksEmptyTogether | src/VulkanImage.cpp:60 | the mask as written is empty iff the intended one is, so the correction never changes whether the assertion fires |
| Images.VulkanImage.Wrap | src/VulkanImage.cpp:112-123 | the wrapper stores image, view, format and range unchanged and marks the image as wrapped |
| Images.VulkanImage.Allocated | src/VulkanImage.cpp:41-109 | the allocating constructor's object holds the handles, format and range it made and is not wrapped |
| Images.NewImage | src/VulkanImage.cpp:41-109 | fails iff the aspect mask as written is empty; otherwise fresh image and view handles, a stored range with that mask over one mip level and all the layers, a 2D view iff there is one layer, and a view aspect of DEPTH alone for a depth format |
| Instances.GetRequiredExtensions | src/VulkanInstance.cpp:9-21 | GLFW's extensions in their order, followed by the debug-utils extension iff validation is enabled |
| Instances.CheckValidationLayerSupport | src/VulkanInstance.cpp:23-41 | true iff some requested layer is among the available ones |
| Instances.SingleLayerCheckIsComplete | src/VulkanInstance.cpp:36 | with the single requested layer the check holds iff that layer is available |
| Instances.SomeLayerIsEnough | src/VulkanInstance.cpp:31-38 | with two requested layers of which only one is available the check still passes |
| Instances.CreateInstance | src/VulkanInstance.cpp:43-95 | the "validation layers requested, not available" error iff validation is on and the Khronos layer is missing; success iff that check passes and creation succeeds; then the required extensions and the Khronos layer exactly when validation is on |
| Instances.CreateDebugUtilsMessenger | src/VulkanInstance.cpp:110-128 | EXTENSION_NOT_PRESENT when the entry point is missing, else the entry point's own result |
| Instances.SetupDebugMessenger | src/VulkanInstance.cpp:145-177 | a null messenger with validation off; an error iff validation is on and creation does not succeed; otherwise a fresh non-null messenger |
| Instances.VulkanInstance.constructor | src/VulkanInstance.cpp:187-190 | stores the debug flag, the instance and the messenger |
| Instances.NewInstance | src/VulkanInstance.cpp:187-196 | succeeds iff instance creation does and, with validation on, the messenger set-up does; the instance is non-null and the messenger is null iff validation is off |
| Framebuffers.DescriptionFor | src/VulkanFramebuffer.cpp:18-28 | format and samples from the create info; cleared on load; stored iff the image is sampled; stencil ignored; undefined initial layout; final layout depth-stencil read-only iff the format has depth or stencil, shader read-only otherwise |
| Framebuffers.VulkanFramebuffer.Empty | include/VulkanFramebuffer.hpp:43 | the default object holds no framebuffers |
| Framebuffers.VulkanFramebuffer.Size | include/VulkanFramebuffer.hpp:48 | the number of framebuffers held |
| Framebuffers.BuildFramebuffer | src/VulkanFramebuffer.cpp:9-32 | succeeds iff every create info yields an image; then one attachment per create info, in order, each a fresh non-wrapped image of that format with that info's description, and no VkFramebuffer yet |
| Framebuffers.NewFramebuffers | src/VulkanFramebuffer.cpp:5-39 | succeeds iff no framebuffer is asked for or every create info yields an image; then exactly numOfFramebuffers framebuffers, each built from the whole create-info list |
| Pipelines.VertexInputFor | include/Pipeline.hpp:47-74 | no binding iff the no-input tag is used, at most one binding, and the vertex format's attribute count (zero for the tag) |
| Pipelines.DestroyedHandles | src/Pipeline.cpp:8-15 | exactly the non-null ones among the layout and the pipeline, at most two handles |
| Pipelines.DestroyedAtMostOnce | src/Pipeline.cpp:8-15 | with distinct layout and pipeline handles the destructor releases no handle twice |
| Pipelines.Pipeline.Owned | src/Pipeline.cpp:8-15 | what this object's destructor would release, layout first: exactly its non-null handles, at most two |
| Pipelines.Pipeline.Default | include/Pipeline.hpp:214 | both handles null, no set layouts, nothing owned |
| Pipelines.Pipeline.Created | include/Pipeline.hpp:35-211 | the templated constructor's object holds the pipeline, layout, device and set layouts it built |
| Pipelines.Pipeline.Destroy | src/Pipeline.cpp:8-15 | appends the layout and then the pipeline to the destroyed-handle log, each only when non-null; nothing null is ever destroyed |
| Pipelines.Pipeline.Move | src/Pipeline.cpp:17-24 | the new object takes both handles and the device, the source's handles become null, so the new object owns what the source owned and the source owns nothing; set layouts start empty |
| Pipelines.Pipeline.MoveAssign | src/Pipeline.cpp:26-34 | takes both handles from a distinct source and nulls the source's; the previous handles are dropped without any destroy call; the device and set layouts stay; self-assignment leaves both handles null |
| Pipelines.Pipeline.GetHandle | include/Pipeline.hpp:217 | the pipeline handle, which the object destroys when it is non-null |
| Pipelines.Pipeline.GetLayoutHandle | include/Pipeline.hpp:218 | the pipeline-layout handle, which the object destroys when it is non-null |
| Pipelines.Pipeline.GetSetLayoutIndex | include/Pipeline.hpp:219 | the set layout at an in-range index |
| Pipelines.NewPipeline | include/Pipeline.hpp:28-212 | fails iff no shader is a vertex shader; otherwise one stage per shader in order, the vertex-input rule, viewport and scissor over the extent, no depth-stencil or dynamic state, subpass 0, fresh distinct non-null layout and pipeline handles, and the set layouts of the first vertex shader |
| Shaders.GetVulkanStageType | src/Shader.cpp:27-36 | the vertex bit iff a vertex shader, the fragment bit iff a fragment shader |
| Shaders.MakeShaderCreateInfo | src/Shader.cpp:38-51 | the mapped stage, the given module and the entry point "main"; never the zeroed struct |
| Shaders.ShaderModuleCreateInfo | src/Shader.cpp:9-16 | the code size is the code's byte count and the code is passed unchanged |
| Shaders.CreateShaderModule | src/Shader.cpp:7-25 | a fresh non-null module iff vkCreateShaderModule succeeds; otherwise the "Cannot create shadermodule from code" error and no handle used |
| Shaders.SharedModule.constructor | src/Shader.cpp:66-72 | a new control block with one owner over a module not yet destroyed |
| Shaders.SharedModule.Share | src/Shader.cpp:88-93 | a copy of the shared pointer adds one owner; the module is still not destroyed |
| Shaders.SharedModule.Drop | src/Shader.cpp:68-72 | removes one owner; the deleter destroys the module exactly once, when the last owner lets go |
| Shaders.Shader.Empty | include/Shader.hpp:24 | no module, null device, zeroed create info |
| Shaders.Shader.Wrap | src/Shader.cpp:58-75 | the new module is owned by a fresh control block with one owner; the create info is the one made for the type and module; the device is stored |
| Shaders.Shader.Move | src/Shader.cpp:77-86 | the target takes module, create info and device; the source's module is reset, its device null and its create info zeroed; the owner count is unchanged |
| Shaders.Shader.Copy | src/Shader.cpp:88-93 | both shaders share the same module, create info and device, and the module gains one owner |
| Shaders.Shader.Release | src/Shader.cpp:95-101 | the shader lets go of its module: one owner fewer, and the module is destroyed iff that was the last owner |
| Shaders.Shader.GetCi | src/Shader.cpp:103-106 | the stored create info |
| Shaders.Shader.GetShaderModule | src/Shader.cpp:108-111 | the owned module, which is also the module named in the create info |
| Shaders.Shader.GetShaderType | include/Shader.hpp:32 | the stage recorded in the create info |
| Shaders.NewShader | src/Shader.cpp:58-75 | succeeds iff module creation does; then a fresh shader owning a fresh one-owner block over the new module, with the create info for its type |
| UniqueHandles.UniqueVkHandle.constructor | include/utils/UniqueHandle.hpp:12 | holds the given handle |
| UniqueHandles.UniqueVkHandle.Move | include/utils/UniqueHandle.hpp:14-18 | the target takes the handle and the source becomes null, so at most one of them holds a non-null handle |
| UniqueHandles.UniqueVkHandle.Value | include/utils/UniqueHandle.hpp:20-23 | the held handle |
| UniqueHandles.NonNull | include/utils/UniqueHandle.hpp:2-6 | exactly the non-null handles of the list, no more of them than the list holds |
| UniqueHandles.MoveThenDestroyBoth | include/utils/UniqueHandle.hpp:2-18 | after a move, destroying source and target releases the original handle exactly once when it is non-null and nothing otherwise |
| Assets.Flatten | src/AssetLoader.cpp:60-66 | for faces of at least three indices: three indices per face, index 3i+j being the j-th vertex index of face i, so any fourth index is dropped |
| Assets.FaceIndices | src/AssetLoader.cpp:62-65 | the indices read from a face are exactly its first three |
| Assets.FlattenAppend | src/AssetLoader.cpp:60-66 | flattening two face lists back to back is flattening each and concatenating |
| Assets.ProcessMesh | src/AssetLoader.cpp:23-81 | succeeds iff the mesh has a vertex, every face has three indices and the three texture loads return slots; fails with NoVertices for no vertices, else ShortFace for a short face, else TextureLimitReached when a texture load throws; otherwise one vertex per source vertex in order (position, normal, tangent, channel-0 texture coordinates or zero), the faces' first three indices flattened, and the material's three texture slots |
| Assets.CopyVertices | src/AssetLoader.cpp:36-58 | one vertex per source vertex, in order, each the vertex `VertexOf` describes |
| Assets.CopyFaceIndices | src/AssetLoader.cpp:60-66 | succeeds iff every face has three indices, and then yields exactly `Flatten` of the faces; otherwise ShortFace |
| Assets.AppendFace | src/AssetLoader.cpp:62-65 | the inner loop appends indices 0, 1 and 2 of the face and nothing else |
| Assets.FlattenSnoc | src/AssetLoader.cpp:60-66 | one more face appends exactly its first three indices to the flattened list |
| Assets.QuadLosesFourthIndex | src/AssetLoader.cpp:62 | a four-index face flattens to its first three indices only |
| Assets.NodeWithChildrenNeverReturns | src/AssetLoader.cpp:102-105 | the walk as written, which recurses on the same node once per child, never returns for a node with a child, whatever the allowed call depth |
| Assets.ProcessNodesAsWritten | src/AssetLoader.cpp:89-108 | the walk as written with a call-depth budget: a returned list starts with the node's own meshes, a leaf returns exactly them, and nothing is returned without budget |
| Assets.RepeatOnSameNode | src/AssetLoader.cpp:102-105 | the child loop as written: zero passes give nothing, and any pass that returns needed call depth left |
| Assets.ProcessNodes | src/AssetLoader.cpp:89-108 | the intended walk: the node's own meshes first, then the children's subtrees; a leaf yields exactly its meshes |
| Assets.ProcessChildren | src/AssetLoader.cpp:102-105 | the subtrees of the children from the given index on; nothing past the last child |
| Assets.ChildMeshesIncluded | src/AssetLoader.cpp:89-108 | every mesh a child's subtree lists is also listed by its parent's walk, with at least the same multiplicity |
| Assets.ChildMeshesIncludedFrom | src/AssetLoader.cpp:102-105 | the same inclusion for the children walked from any earlier index |
| Assets.LeafWalksAgree | src/AssetLoader.cpp:89-108 | for a leaf the walk as written and the intended walk give the same meshes |
| Assets.LastSlash | src/AssetLoader.cpp:127 | some index iff the path holds a '/'; then that index holds '/' and no later character does |
| Assets.ObjectFolder | src/AssetLoader.cpp:127-130 | succeeds iff the path holds a '/'; the folder is the path's prefix up to and including its last '/' |
| Assets.LoadObject | src/AssetLoader.cpp:110-136 | succeeds iff the scene was imported complete with a root, the path holds a '/' and every mesh on the walk is processable and gets its three texture slots; ImportFailed iff the import failed, NoSlashInPath iff only the slash is missing, NoVertices, ShortFace or TextureLimitReached only when some mesh on the walk cannot be loaded; on success the object folder and one mesh per entry of the walk, in walk order, each holding its scene mesh's vertices in full, its flattened indices and that mesh's texture slots; a mesh error is that of the first mesh on the walk that cannot be loaded |
| Printers.OStream.Write | include/spirv_reflect/printers.h:14 | `os << s` appends exactly s to the text written so far |
| Printers.DecimalIsDigits | include/spirv_reflect/printers.h:14 | a printed unsigned number consists of decimal digits only |
| Printers.OneBracketPerDimension | include/spirv_reflect/printers.h:23-26 | the dimension list holds exactly one '[' per printed dimension, counted character by character |
| Printers.NameLine | include/spirv_reflect/printers.h:42-47 | the name line's length is the indent, the label and the name, plus the type name and three characters when there is a non-empty type name, and then it ends in ')' |
| Printers.BindingTextFrame | include/spirv_reflect/printers.h:7-48 | a binding's text always starts with the binding line and ends with the name line |
| Printers.SetLineOnlyWhenWriteSet | include/spirv_reflect/printers.h:15-18 | passing write_set inserts exactly the set line after the binding line and changes nothing else |
| Printers.CounterLineOnlyWithCounter | include/spirv_reflect/printers.h:31-40 | a counter binding inserts exactly the counter line just before the name line and changes nothing else |
| Printers.ArrayLineIffDims | include/spirv_reflect/printers.h:21-28 | the array line is printed iff the binding has dimensions, and then its count of '[' is the indent's plus one per dimension |
| Printers.PrintDescriptorBinding | include/spirv_reflect/printers.h:7-48 | appends exactly the binding text: binding line, set line iff write_set, array line iff dimensions, counter line iff a counter binding, then the name line |
| Printers.StageName | include/spirv_reflect/printers.h:58-67 | two letters for each of the six known stages and nothing for any other stage |
| Printers.StageOnlyForHlsl | include/spirv_reflect/printers.h:55-68 | outside HLSL the text does not depend on the stage; in HLSL the stage abbreviation ends the text |
| Printers.PrintModuleInfo | include/spirv_reflect/printers.h:50-69 | appends exactly the entry-point, language and version lines, then the stage line for HLSL modules only |
| Printers.NoSeparatorAfterLast | include/spirv_reflect/printers.h:87-90 | every binding block but the last ends in a separating newline, and the last binding's text ends the output |
| Printers.PrintEntry | include/spirv_reflect/printers.h:83-90 | one loop pass appends the index line, the binding's text under the deeper indent and the separator when a binding follows |
| Printers.PrintDescriptorSet | include/spirv_reflect/printers.h:71-92 | appends exactly the set header followed by every binding's block, in index order |
| Printers.PrintEntries | include/spirv_reflect/printers.h:80-91 | the set's loop appends the blocks of all bindings, in index order |
| Printers.EntriesStep | include/spirv_reflect/printers.h:80-91 | one more binding appends exactly its block |
| Printers.CountAppend | include/spirv_reflect/printers.h:23-26 | the count of a character in two texts back to back is the sum of the counts |

## Left out

- Vulkan, VMA, GLFW, assimp and stb calls are not executed. Their results are parameters, and handle creation is `Vk.Device`'s counter.
- Calls wrapped in `VK_CHECK` are taken to succeed. A failure there aborts the program, which the model does not represent.
- Concurrency is not modelled. This covers the texture manager's atomic counter and map mutex, and the asset loader's three `std::async` texture loads. All of these are modelled as sequential code.
- Floating point is modelled as `real`. Trigonometry, `glm::normalize`, `glm::lookAt` and `glm::perspective` are inputs or symbolic terms, not computed.
- Logging and printing to standard output (`dbgI`, `dbgE`, the instance-handle print) are left out. So is the validation-layer callback.
- src/VulkanApplication.cpp: `initWindow`, `createSurface`, `createGraphicsPipeline` and `cleanup` are set-up glue and are left out. The results of vkAcquireNextImageKHR and vkQueuePresentKHR are not checked by the code; the acquired image index is an input, and present has no outcome.
- Cameras.CameraSystem.constructor: the camera state is process-wide static data. The model keeps it in one `CameraStatics` object shared by every `CameraSystem`.
- Cameras.MouseStep: the result of `glm::normalize` at src/CameraSystem.cpp:60 is discarded by the code. The model likewise stores the un-normalised direction.
- PerFrameUniforms.PerFrameUniformSystem.constructor: the header declares a three-argument constructor, but the source file defines a four-argument one with a camera. The model follows the source file. The per-frame uniform block's members other than the camera are not part of this model.
- PerFrameUniforms.PerFrameUniformSystem.GenerateDescriptorSets: `Pipeline::getDescriptorSetLayout` is not defined anywhere. It is modelled as `getSetLayoutIndex` on the frame-frequency set number.
- PerFrameUniforms.PerFrameUniformSystem.FillDescriptorSets: `TextureManager::fillDescriptorSet` is declared but not defined. The model only records which sets are handed to it.
- Renderables.Renderable.constructor: the `pipeline` and `uniforms` members are never initialised by the code. The model takes them as constructor parameters. The header also declares `cmdBindSetsDrawRenderable`, while the source defines `cmdBindSetsDrawMeshes`; the model follows the source.
- Shaders.Shader.GetShaderType: `getShaderType` and `getReflectedDescriptorSetLayouts` are declared but not defined. The model reads the stage from the create info and takes the reflected layouts as a constructor input. The header defaults the copy constructor that the source file also defines. The model follows src/Shader.cpp, whose copy constructor copies no set layouts; the header's `= default` would copy them.
- Pipelines.NewPipeline: `createPipelineLayout` is not shown, so the layout handle is a fresh handle. The fixed-function state (rasteriser, blending, multisampling) is not modelled.
- Pipelines.Pipeline.Default: the `device` member has no initialiser; the model starts it null.
- UniqueHandles.UniqueVkHandle.Move: the template names `UniqueHandle` in its copy and move constructors, so it does not compile as written. The model gives the intended `UniqueVkHandle` semantics.
- Images.NewImage: the header declares the constructors with a `VulkanDevice` pointer and a `swapchainImage` flag, while the source file uses an allocator and `wrappedAllocatedImage`; the model follows the source file. The VkImageCreateInfo contents and the data-upload constructor are not part of this model.
- Framebuffers.NewFramebuffers: the header declares the constructor over `FramebufferAttachmentInfo`, but the source file takes plain image create infos; the model follows the source file. The render pass and the VkFramebuffer objects are never created by the code, and the swapchain constructor is not defined.
- Devices.QueryQueueFamilies: the graphics-family query is modelled once. The code queries the queue families twice and gets the same answer both times.
- Devices.PickPhysicalDeviceAsWritten: reading `physicalDevices[1]` when only one device exists is undefined behaviour. The model returns `Err(DeviceIndexOutOfRange)` there.
- The VMA allocator creation and the vkGetDeviceQueue calls of the device constructor are not part of this model.
- Instances.NewInstance: the destructor's destroy calls are commented out in the source and are not modelled.
- Assets.ProcessMesh: the `Mesh` constructor and `MeshPushConstantData` are not part of this model. Texture slots come from an input, `None` when a texture load throws. The import requests no triangulation, so faces may have any number of indices: the code reads the first three, which drops the rest of a polygon, and a point or line face is read past its end, which the model reports as `Err(ShortFace)`. Normals and tangents are assumed present: the code reads both arrays unconditionally, although the importer makes no tangents for a mesh without texture coordinates, and the code then reads a null array.
- Assets.LoadObject: building the `Renderable` from the meshes is left out. The outcome of each mesh's three texture loads is an input function of the mesh index rather than being computed from the texture manager's state; the throw itself, once every slot is used, is modelled by `Textures.Load` and `Textures.OverflowIsSticky`. The walk used is the intended `ProcessNodes`, because the walk as written never returns for a root with a child. A path without '/' is `Err(NoSlashInPath)`; the code reads before the string's start there.
- FenceContainers.FenceContainer: include/ImagesInFlight.hpp does not compile as written, and no file includes it. The loop bound calls `size()` on the `size_t` parameter (line 27). `fences.resize(size)` needs movable elements, and `std::atomic<VkFence>` is not movable (lines 21, 41). `fences[index].load()`, a `VkFence`, is passed where vkWaitForFences and vkResetFences take a `const VkFence*` (lines 52, 61). The tag constructor leaves the reference member `vkDevice` uninitialised (line 38). Every member is private, since the class has no `public:`. The model gives the evident intended semantics of each member.
- FenceContainers.FenceContainer.Sized: the result of vkCreateFence is ignored by the code (include/ImagesInFlight.hpp:29-34), and a failed create would store an uninitialised handle. The model assumes every fence create succeeds.
- FrameLoop.Application.CreateSyncObjects: Vulkan leaves the output handle of a failed create undefined. The model stores a null handle there, and the later entries, which the code never reaches, keep the null value `resize` gives them.
- Devices.CreateLogicalDeviceQueues: `pQueuePriorities` points at `queuePriority`, a variable local to the loop body (src/VulkanDevice.cpp:84-91), which has ended by the time vkCreateDevice reads it (src/VulkanDevice.cpp:118). That read is undefined behaviour. The model gives each queue the priority 1.0 the code means.
- Swapchains.CreateSwapchain: the surface-support queries and vkGetSwapchainImagesKHR are inputs. When the two families differ, `pQueueFamilyIndices` points at `queueFamilyIndices`, an array local to the lambda that builds the create info (src/VulkanSwapchain.cpp:121-130), which has ended by the time vkCreateSwapchainKHR reads it (src/VulkanSwapchain.cpp:151). That read is undefined behaviour. The model gives the intended indices [graphics, present].
- Instances.CheckValidationLayerSupport: the any-match is kept as written. The code's comment says it checks only one layer, and `createInstance` requests exactly one, so `SingleLayerCheckIsComplete` shows it is complete there.
- UniformBuffers.UniformData: `update(Offset, Size)` (include/UniformData.hpp:83-90) is not modelled. Its `static_assert` is on a run-time value and nothing calls it. `getMinUboOffsetAlignment` is an input.
- Printers: `spvReflectSourceLanguage` is an input function. A null `name` or `type_description` pointer is not modelled. `PrintModuleInfo`'s indent parameter is unused by the code and dropped. The counter line's several `<<` are written as one piece.

## Findings

| source | as written | input that shows it | evidently intended | confidence | as-written member | corrected member |
|---|---|---|---|---|---|---|
| src/CameraSystem.cpp:51-54 | pitch below -89 is set to -88 | pitch -90 gives -88 | clamp into [-89, 89], as the +89 side does | not executed | `Cameras.ClampPitch`, `Cameras.ClampPitchAsymmetric` | `Cameras.ClampPitchIntended` |
| src/VulkanSwapchain.cpp:53 | the height is clamped below by the minimum WIDTH | min extent 800x100, max 1000x600, framebuffer 900x500: height 800, above the maximum 600 | clamp the height into [minImageExtent.height, maxImageExtent.height] | not executed | `Swapchains.ChooseSwapExtentAsWritten`, `Swapchains.HeightClampUsesMinWidth` | `Swapchains.ChooseSwapExtent` |
| src/VulkanDevice.cpp:41-49 | `i` is incremented in the loop body and the header, so odd families are never asked | two families, only family 1 can present: no presentation family | the first family that can present | not executed | `Devices.QueryQueueFamilies`, `Devices.OddFamiliesSkipped` | `Devices.QueueFamiliesOf` |
| src/VulkanDevice.cpp:65-71 | device 1 is returned whenever device 0 lacks a graphics family, unchecked | two devices without graphics families: device 1 is picked | the first device with a graphics family, else the "No device with all required queue families found." error | not executed | `Devices.PickPhysicalDeviceAsWritten`, `Devices.PickAsWrittenIgnoresSecondDevice` | `Devices.PickPhysicalDevice` |
| src/VulkanDevice.cpp:197 | `memIndex <= VK_MAX_MEMORY_TYPES` | memIndex 32 passes and reads past the 32-entry table | `memIndex < VK_MAX_MEMORY_TYPES` | not executed | `Devices.MemoryIndexGuardAsWritten`, `Devices.GuardAdmitsOnePastEnd` | `Devices.GetMemoryProperties` |
| src/VulkanImage.cpp:52-53 | a depth format contributes the COLOR aspect | D32_SFLOAT depth attachment: mask COLOR | the DEPTH aspect | not executed | `Images.AspectMaskAsWritten`, `Images.DepthFormatGetsColorAspect` | `Images.AspectMask` |
| src/AssetLoader.cpp:102-105 | each child pass recurses on the same `node` | any node with one child: the recursion never ends | recurse on `node->mChildren[i]` | not executed | `Assets.ProcessNodesAsWritten`, `Assets.NodeWithChildrenNeverReturns` | `Assets.ProcessNodes` |
| src/VmaVulkanBuffer.cpp:71-73 | a write at `offset` flushes [0, size) rather than the bytes written | memory that is not host-coherent and `update(index)` with slot `index` starting at or past sizeof(T) rounded up to nonCoherentAtomSize (slot 4 of a 64-byte T at 64-byte alignment on a 256-byte atom): the requested flush is [0, sizeof(T)), and even widened to whole atoms by vmaFlushAllocation it covers none of the slot's bytes | flush [offset, offset + size) | not executed | `VmaBuffers.VmaBuffer.CopyToBufferAt`, `UniformBuffers.SlotWriteNotFlushed`, `UniformBuffers.RoundedSlotWriteNotFlushed`, `VmaBuffers.OffsetWriteNotFlushed`, `VmaBuffers.RoundedWriteNotFlushed` | `VmaBuffers.WrittenRangeFlush` |
