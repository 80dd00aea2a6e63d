# Gecko render-bundle, DRM, MMS/SMS, error-buffer and HWC cores in Dafny

This project models six small cores of the Gecko tree (B2G flavour), each as its
own Dafny module, and proves properties of them.

- **Render-bundle normaliser** (`third_party/rust/wgpu-core/src/command/bundle.rs`;
  modules `BundleCommands`, `BundleEncoder`, `BundleState`, `BundleFinish`).
  - `RenderBundleEncoder::new` validates the colour-target count and the sample count, and computes `is_ds_read_only`.
  - `RenderBundleEncoder::finish` replays the recorded `RenderCommand`s against a simulated binding state. It rejects bad resources, bad dynamic offsets and out-of-range draws. Before every draw it emits only the `Set*` commands whose state is dirty.
  - The binding state is the `State` class: vertex slots and bind slots live in arrays, `flat_dynamic_offsets` is a sequence the flushes extend.
  - `IndexState`, `VertexState` and `PushConstantState` are value types held in fields of `State`.
  - Resource lookups are maps in a `Hub` value.
- **EME DRM session bookkeeping** (`dom/media/eme/gonk/GonkDrmSupport.cpp`; module `GonkDrm`).
  - `SessionManager` is a table indexed twice, by EME id and by DRM id.
  - The key-status, key-type and message-type mappings.
  - The guarded session operations: open, close, update, remove, notify and reset. Every `IDrm` call and storage callback is an answer passed in as a parameter.
- **MMS message conversions** (`dom/mobilemessage/MmsMessageInternal.cpp`; module `MmsMessage`).
  - The delivery, delivery-status and read-status enum/string conversions.
  - The IPC constructor, `GetData`, `Create` and the getters.
- **Error buffer and adapter request** (`gfx/wgpu_bindings/src/server.rs`; module `WgpuServer`).
  - `ErrorBuffer::init_str` truncates to the capacity and writes a terminating zero.
  - `ErrorBuffer::init` formats the "caused by" chain.
  - `wgpu_server_instance_request_adapter` returns the adapter's index or −1.
- **SMS parent actors** (`dom/mobilemessage/ipc/SmsParent.cpp`; module `SmsIpc`).
  - The silent-number list and the silent-SMS sender filter.
  - The one-shot guards of `SmsRequestParent` and `MobileMessageCursorParent`.
  - `GetMobileMessageDataFromMessage`.
- **HWC composer** (`widget/gonk/HwcComposer2D.cpp`; module `HwcComposer`). The layer-list growth, the vsync decision rule and the flag setters.

`Wrappers` holds `Option`/`Result` and `NsResults` holds the `nsresult` codes the actors return.

Integer widths are written out: `u8`, `u32` and `u64` are subset types of `nat`. A Rust `+` on them is modelled as it behaves in a release build, that is, wrapping (`WrappingAddU32`, …), except where a Findings row below shows the wrap to be a defect: there the as-written member keeps the wrap and the rest of the model runs the corrected definition.

`finish` is modelled twice and the two are proved equal: `Finish` is the loop over the `State` object, and `FinishOf` is a left fold (`ReplayOf`) of one value-level step per command (`StepOf`, built from one `…Move` function per match arm). Each arm method is proved to return the verdict, the commands and the new state its `…Move` function gives.

## Model

| member | source | states |
|---|---|---|
| BundleCommands.WrappingAddU32 | third_party/rust/wgpu-core/src/command/bundle.rs:457 | the sum if it fits in 32 bits, otherwise the sum minus 2^32 |
| BundleCommands.WrappingAddU64 | third_party/rust/wgpu-core/src/command/bundle.rs:386 | the sum when it fits in 64 bits |
| BundleCommands.WrappingSubU64 | third_party/rust/wgpu-core/src/command/bundle.rs:947 | the difference when it is non-negative, otherwise the difference plus 2^64 |
| BundleCommands.WrappingSubU32 | third_party/rust/wgpu-core/src/command/bundle.rs:1247 | the difference when it is non-negative |
| BundleCommands.TruncateToU32 | third_party/rust/wgpu-core/src/command/bundle.rs:947 | `as u32` leaves values that fit unchanged |
| BundleCommands.NonZeroSize | third_party/rust/wgpu-core/src/command/bundle.rs:959 | `BufferSize::new` is None exactly for 0, and otherwise holds the size |
| BundleCommands.Recorded | third_party/rust/wgpu-core/src/command/bundle.rs:217-620 | the recorded commands of a stream are a sub-collection of it, each one a pipeline change, a push-constant upload command that carries a data offset (only the command, not the data) or a draw |
| BundleCommands.RecordedKeeps | third_party/rust/wgpu-core/src/command/bundle.rs:217-620 | every recorded command of the input is among the recorded commands |
| BundleCommands.RecordedAppend | third_party/rust/wgpu-core/src/command/bundle.rs:217-620 | the recorded commands of a concatenation are the concatenation of the recorded commands |
| BundleCommands.DynamicOffsetCountAppend | third_party/rust/wgpu-core/src/command/bundle.rs:283-287 | the dynamic offsets consumed by a concatenation add up |
| BundleCommands.UnrecordedVanish | third_party/rust/wgpu-core/src/command/bundle.rs:1256-1295 | state commands alone leave no recorded command |
| BundleCommands.NoBindGroupsNoOffsets | third_party/rust/wgpu-core/src/command/bundle.rs:283-287 | a stream without `SetBindGroup` consumes no dynamic offset |
| BundleEncoder.ValidSampleCounts | third_party/rust/wgpu-core/src/command/bundle.rs:157-161 | the accepted sample counts are exactly 1, 2, 4, 8, 16 and 32 |
| BundleEncoder.IsDsReadOnly | third_party/rust/wgpu-core/src/command/bundle.rs:164-171 | false without a depth-stencil attachment; otherwise true iff every aspect the format has is flagged read-only, case by case |
| BundleEncoder.New | third_party/rust/wgpu-core/src/command/bundle.rs:135-176 | `TooManyColorAttachments` iff more than 4 colour formats; otherwise `InvalidSampleCount(sc)` iff sc is 0, above 32 or not a power of two; on success every descriptor field lands in the encoder's context |
| BundleEncoder.CheckValidToUse | third_party/rust/wgpu-core/src/command/bundle.rs:624-633 | a resource passes iff it belongs to the encoder's own device |
| BundleState.BufferEnd | third_party/rust/wgpu-core/src/command/bundle.rs:385-388 | the end of a bound range is offset + size, or the buffer's size when no size is given |
| BundleState.IndexState.Limit | third_party/rust/wgpu-core/src/command/bundle.rs:941-948 | needs a buffer; the index count is the range's length over 2 (Uint16) or 4 (Uint32) |
| BundleState.IndexState.Command | third_party/rust/wgpu-core/src/command/bundle.rs:955-960 | the `SetIndexBuffer` replay carries the buffer, the format and the range start, with no size exactly when the range is empty |
| BundleState.IndexState.Flush | third_party/rust/wgpu-core/src/command/bundle.rs:952-964 | a command is emitted iff the state is dirty, and the flag is cleared |
| BundleState.IndexState.SetFormat | third_party/rust/wgpu-core/src/command/bundle.rs:967-972 | the format is stored; the state becomes dirty iff the format changed, or stays dirty |
| BundleState.IndexState.SetBuffer | third_party/rust/wgpu-core/src/command/bundle.rs:975-979 | buffer and range are stored and the state is always dirty |
| BundleState.IndexCommandRestoresRange | third_party/rust/wgpu-core/src/command/bundle.rs:952-979 | replaying the emitted `SetIndexBuffer` through the arm's end computation restores the stored range |
| BundleState.VertexState.SetBuffer | third_party/rust/wgpu-core/src/command/bundle.rs:1014-1018 | buffer and range are stored, stride and rate kept, and the slot is dirty |
| BundleState.VertexState.Command | third_party/rust/wgpu-core/src/command/bundle.rs:1026-1031 | the `SetVertexBuffer` replay carries the slot, the buffer and the range start, with no size exactly when the range is empty |
| BundleState.VertexState.Flush | third_party/rust/wgpu-core/src/command/bundle.rs:1023-1035 | a command is emitted iff the slot is dirty, and the flag is cleared |
| BundleState.VertexState.Restride | third_party/rust/wgpu-core/src/command/bundle.rs:1205-1211 | the new stride and rate are stored; the slot becomes dirty iff either changed, or stays dirty |
| BundleState.VertexState.Limit | third_party/rust/wgpu-core/src/command/bundle.rs:1136-1139 | a slot allows (range length / stride) entries, truncated to 32 bits |
| BundleState.VertexCommandRestoresRange | third_party/rust/wgpu-core/src/command/bundle.rs:1014-1035 | replaying the emitted `SetVertexBuffer` through the arm's end computation restores the stored range |
| BundleState.VertexLimitsAreFirstMinima | third_party/rust/wgpu-core/src/command/bundle.rs:1128-1156 | per step mode, the limit is at most the limit of every slot of that mode with non-zero stride; below u32::MAX it is attained at the reported slot and at no earlier slot; at u32::MAX the reported slot is 0 |
| BundleState.InvalidatedFrom | third_party/rust/wgpu-core/src/command/bundle.rs:1159-1164 | slots before the index are untouched; each occupied slot from it on is marked dirty |
| BundleState.BindGroupSetEffect | third_party/rust/wgpu-core/src/command/bundle.rs:1165-1194 | with no dynamic offsets and the same group id, nothing changes; otherwise the slot holds the new group dirty, every occupied later slot is dirty and earlier slots are untouched |
| BundleState.BindGroupSetWellFormed | third_party/rust/wgpu-core/src/command/bundle.rs:1165-1194 | setting a group keeps every stored offset range inside the dynamic-offset list |
| BundleState.FirstLayoutMismatchIsFirst | third_party/rust/wgpu-core/src/command/bundle.rs:1218-1228 | the search returns the first slot whose stored layout differs from the pipeline's, or none when none differs |
| BundleState.PipelineReboundDirties | third_party/rust/wgpu-core/src/command/bundle.rs:1196-1232 | after `set_pipeline` an occupied slot is dirty iff it was dirty, the push-constant ranges changed, or it is at or after the first layout mismatch |
| BundleState.PushConstantState.SetPushConstants | third_party/rust/wgpu-core/src/command/bundle.rs:1069-1079 | the ranges are stored; it reports a change iff the ranges differ; a change makes the state dirty |
| BundleState.PushConstantState.Flush | third_party/rust/wgpu-core/src/command/bundle.rs:1234-1254 | commands are produced iff the state is dirty: one `SetPushConstant` without data per split range, with that range's stages, offset and size |
| BundleState.CleanedVertices | third_party/rust/wgpu-core/src/command/bundle.rs:1256-1261 | every slot keeps its buffer, range, stride and rate, with the dirty flag cleared |
| BundleState.VertexFlushCommandsAreDirtySlots | third_party/rust/wgpu-core/src/command/bundle.rs:1256-1261 | the vertex flush emits exactly one `SetVertexBuffer` per dirty slot, each one the slot's own command, in increasing slot order |
| BundleState.VertexFlushIsIdempotent | third_party/rust/wgpu-core/src/command/bundle.rs:1256-1261 | a second vertex flush emits nothing |
| BundleState.BindCommand | third_party/rust/wgpu-core/src/command/bundle.rs:1282-1290 | the replayed `SetBindGroup` carries the slot, the group and the length of its offset range |
| BundleState.CleanedBinds | third_party/rust/wgpu-core/src/command/bundle.rs:1264-1295 | the used slots are cleaned and the rest are unchanged |
| BundleState.BindFlushCommandsAreDirtyEntries | third_party/rust/wgpu-core/src/command/bundle.rs:1264-1295 | the bind flush emits exactly one `SetBindGroup` per dirty slot, each one the slot's own command, in increasing index order |
| BundleState.DirtyOffsetsMatchCommands | third_party/rust/wgpu-core/src/command/bundle.rs:1264-1295 | the offsets appended to `flat_dynamic_offsets` are exactly as many as the emitted commands consume |
| BundleState.DirtyOffsetsAreResentSlices | third_party/rust/wgpu-core/src/command/bundle.rs:1264-1295 | the offsets the bind flush appends are, command by command, the `dynamic_offsets` slice recorded for the group each emitted `SetBindGroup` re-binds |
| BundleState.ResentOffsetsAgree | third_party/rust/wgpu-core/src/command/bundle.rs:1264-1295 | the offsets a run of re-bind commands reads depend only on the slots it names |
| BundleState.BindFlushIsIdempotent | third_party/rust/wgpu-core/src/command/bundle.rs:1264-1295 | a second bind flush emits nothing |
| BundleState.State.constructor | third_party/rust/wgpu-core/src/command/bundle.rs:237-252 | fresh index, vertex and push-constant states, empty bind slots, no offsets, no groups used, no pipeline |
| BundleState.State.VertexLimits | third_party/rust/wgpu-core/src/command/bundle.rs:1128-1156 | the loop computes the per-mode minima over the slots, as `VertexLimitsOf` defines them |
| BundleState.State.InvalidateGroupFrom | third_party/rust/wgpu-core/src/command/bundle.rs:1159-1164 | the bind slots become `InvalidatedFrom` of the old ones and nothing else changes |
| BundleState.State.SetBindGroup | third_party/rust/wgpu-core/src/command/bundle.rs:1165-1194 | the bind slots become `BindGroupSet` of the old ones and nothing else changes |
| BundleState.State.SetPipeline | third_party/rust/wgpu-core/src/command/bundle.rs:1196-1232 | the pipeline's index format is stored; each vertex slot is restrided; the push-constant ranges are updated; `used_bind_groups` becomes the layout count; the bind slots are invalidated from 0 after a push-constant change, else from the first layout mismatch |
| BundleState.State.FlushVertices | third_party/rust/wgpu-core/src/command/bundle.rs:1256-1261 | it returns the commands of the dirty slots and leaves every slot clean |
| BundleState.State.FlushBinds | third_party/rust/wgpu-core/src/command/bundle.rs:1264-1295 | for the used slots it returns the commands of the dirty ones, appends their offsets to `flat_dynamic_offsets` and cleans them |
| BundleFinish.BindGroupCheck | third_party/rust/wgpu-core/src/command/bundle.rs:266-281 | a bind group passes iff it exists, is on the encoder's device and its index is below `max_bind_groups`; otherwise the first failing check's error is reported, in source order |
| BundleFinish.PipelineCheck | third_party/rust/wgpu-core/src/command/bundle.rs:328-354 | a pipeline passes iff it exists, is on the encoder's device, matches the pass context and does not write depth-stencil into a read-only bundle; errors in source order |
| BundleFinish.BufferCheck | third_party/rust/wgpu-core/src/command/bundle.rs:373-383 | a buffer passes iff it exists, is on the encoder's device and has the usage; errors in source order |
| BundleFinish.PushConstantCheck | third_party/rust/wgpu-core/src/command/bundle.rs:425-444 | `MissingPipeline` without a pipeline layout; otherwise the layout's range validation decides |
| BundleFinish.FindMisaligned | third_party/rust/wgpu-core/src/command/bundle.rs:299-313 | none iff every dynamic offset is a multiple of its alignment; otherwise the first misaligned index |
| BundleFinish.FirstMisaligned | third_party/rust/wgpu-core/src/command/bundle.rs:299-313 | none iff no offset from the given index on is misaligned; otherwise the first misaligned index at or after it |
| BundleFinish.DrawLimitError | third_party/rust/wgpu-core/src/command/bundle.rs:445-478 | a draw passes iff first vertex + count and first instance + count are within the vertex and instance limits (sums taken exactly); the vertex error is reported first |
| BundleFinish.DrawLimitErrorAsWritten | third_party/rust/wgpu-core/src/command/bundle.rs:457-474 | the same checks on the 32-bit wrapping sums |
| BundleFinish.DrawLimitWrapAdmitsOverflow | third_party/rust/wgpu-core/src/command/bundle.rs:457-458 | a draw past the vertex limit whose wrapped sum is 0 passes the as-written check |
| BundleFinish.DrawLimitAgreesWithoutWrap | third_party/rust/wgpu-core/src/command/bundle.rs:457-474 | when no sum overflows, the as-written and the exact checks agree |
| BundleFinish.IndexedDrawLimitError | third_party/rust/wgpu-core/src/command/bundle.rs:479-515 | an indexed draw passes iff first index + count is within the index limit and first instance + count within the instance limit (exact sums); the index error is reported first |
| BundleFinish.IndexedDrawLimitErrorAsWritten | third_party/rust/wgpu-core/src/command/bundle.rs:493-509 | the same checks on the 32-bit wrapping sums |
| BundleFinish.IndexedDrawLimitWrapAdmitsOverflow | third_party/rust/wgpu-core/src/command/bundle.rs:493-494 | an indexed draw past the index limit whose wrapped sum is 1 passes the as-written check |
| BundleFinish.SetBindGroupArm | third_party/rust/wgpu-core/src/command/bundle.rs:259-327 | a failed check stops with the check's error; a slice past the end of the dynamic offsets panics; a dynamic-offset count mismatch and the first misaligned offset stop with their errors; otherwise the slot is set with its offset range and nothing is emitted; verdict and new state are `SetBindGroupMove` of the old state |
| BundleFinish.PipelineReboundWellFormed | third_party/rust/wgpu-core/src/command/bundle.rs:1196-1232 | rebinding a pipeline keeps every stored offset range inside the dynamic-offset list |
| BundleFinish.Restrided | third_party/rust/wgpu-core/src/command/bundle.rs:1205-1211 | each vertex slot the pipeline gives a stride for is restrided with it, and the other slots are kept |
| BundleFinish.SetPipelineArm | third_party/rust/wgpu-core/src/command/bundle.rs:328-367 | the pipeline id is stored before the checks; a failed check stops with its error; otherwise the state is rebound and `SetPipeline` is emitted followed by any push-constant replay; verdict, commands and new state are `SetPipelineMove` of the old state |
| BundleFinish.SetIndexBufferArm | third_party/rust/wgpu-core/src/command/bundle.rs:368-396 | a failed buffer check stops with its error; otherwise the format and the buffer range are stored in the index state; verdict and new state are `SetIndexBufferMove` of the old state |
| BundleFinish.SetVertexBufferArm | third_party/rust/wgpu-core/src/command/bundle.rs:397-424 | a failed buffer check stops with its error; a slot of 16 or more panics; otherwise the slot gets the buffer range; verdict and new state are `SetVertexBufferMove` of the old state |
| BundleFinish.FlushedCommandsAreState | third_party/rust/wgpu-core/src/command/bundle.rs:511-513 | what a draw flushes contains no recorded command and consumes exactly the offsets it appends |
| BundleFinish.FlushForDraw | third_party/rust/wgpu-core/src/command/bundle.rs:511-513 | it panics iff a dirty vertex slot has no buffer; otherwise it emits the index, vertex and bind flushes, leaves the flushed state clean and appends to `flat_dynamic_offsets` the `dynamic_offsets[range]` slice of every dirty used bind slot, in slot order; the new state is `Flushed` of the old |
| BundleFinish.DrawArm | third_party/rust/wgpu-core/src/command/bundle.rs:445-478 | the draw stops with `DrawLimitError`'s error when there is one; it panics when the flush would; otherwise it emits the flush followed by the draw, and the new state, offsets included, is the flushed one (`DrawMove`) |
| BundleFinish.DrawIndexedArm | third_party/rust/wgpu-core/src/command/bundle.rs:479-515 | without an index buffer it panics; otherwise it stops with `IndexedDrawLimitError`'s error, panics when the flush would, or emits the flush (index included) followed by the draw, with the flushed state and offsets (`DrawIndexedMove`) |
| BundleFinish.IndirectArm | third_party/rust/wgpu-core/src/command/bundle.rs:516-586 | without indirect execution, or with a failing buffer check, it stops with that error; it panics when the flush would; otherwise it emits the flush followed by the draw, with the flushed state and offsets (`IndirectMove`) |
| BundleFinish.Execute | third_party/rust/wgpu-core/src/command/bundle.rs:257-600 | one loop step returns exactly `StepOf`'s verdict — stop with the arm's error, panic (also for the commands that reach `unimplemented!()` or `unreachable!()`), or continue — and on continuing exactly its commands, new state, offset cursor and pipeline layout; a continuing step passed its resource checks and adds exactly this command to the recorded commands |
| BundleFinish.CleanedBindsWellFormed | third_party/rust/wgpu-core/src/command/bundle.rs:1264-1295 | cleaning the used bind slots keeps every offset range inside the dynamic-offset list |
| BundleFinish.StepKeepsCursorValid | third_party/rust/wgpu-core/src/command/bundle.rs:257-600 | a step that continues leaves a well-formed state and a pipeline layout that exists |
| BundleFinish.ExecuteSetter | third_party/rust/wgpu-core/src/command/bundle.rs:259-444 | the same as `Execute`, for the five state-setting commands |
| BundleFinish.ExecuteDraw | third_party/rust/wgpu-core/src/command/bundle.rs:445-586 | the same as `Execute`, for the draw commands |
| BundleFinish.AllPassResourceChecksMeans | third_party/rust/wgpu-core/src/command/bundle.rs:257-600 | the loop's accumulated predicate means every command processed so far passed its resource checks |
| BundleFinish.Finish | third_party/rust/wgpu-core/src/command/bundle.rs:217-620 | the outcome is exactly `FinishOf`: the first command whose arm stops or panics decides `Failed` or `Panicked`, otherwise the bundle holds the emitted commands and the accumulated offsets; a finished bundle keeps exactly the recorded commands of the input in order, carries the label, read-only flag, device and context of the encoder, holds as many dynamic offsets as its `SetBindGroup` commands consume, and every input command passed its resource checks; its string and push-constant data are empty (bundle.rs:608-609), so every kept push-constant upload with a data offset is in the bundle with an offset at or past the end of that data |
| BundleFinish.ReplayOf | third_party/rust/wgpu-core/src/command/bundle.rs:257-600 | a replay still running after a prefix of the commands has a valid cursor |
| BundleFinish.ReplayStaysHalted | third_party/rust/wgpu-core/src/command/bundle.rs:271-570 | once a command's arm has returned an error or panicked, the commands after it change nothing |
| BundleFinish.ContinuesAtMeans | third_party/rust/wgpu-core/src/command/bundle.rs:257-600 | the loop is past command i iff it reached command i and that command's arm lets it go on |
| BundleFinish.ContinuesAtPrefix | third_party/rust/wgpu-core/src/command/bundle.rs:257-600 | whether command i lets the loop go on depends only on the commands up to i |
| BundleFinish.ReplayRunsIffEveryStepContinues | third_party/rust/wgpu-core/src/command/bundle.rs:257-600 | the loop runs through all commands iff every command's arm lets it go on |
| BundleFinish.ReplayHaltsAtFirstFailure | third_party/rust/wgpu-core/src/command/bundle.rs:257-600 | a stopped loop stopped at the first command whose arm does not go on, every earlier one having gone on, with that arm's verdict |
| BundleFinish.FinishOutcomeIsFirstFailure | third_party/rust/wgpu-core/src/command/bundle.rs:217-620 | `finish` returns a bundle iff every arm goes on; otherwise it fails with the error, or panics, of the first arm that does not, every earlier one having gone on |
| GonkDrm.ConvertToMediaKeyStatus | dom/media/eme/gonk/GonkDrmSupport.cpp:35-50 | usable, expired, output-not-allowed and pending map to their statuses, each iff the input is that code; every other value is an internal error |
| GonkDrm.KeyTypeFor | dom/media/eme/gonk/GonkDrmSupport.cpp:322-326 | Release iff released; otherwise Streaming for a temporary session and Offline for a persistent one |
| GonkDrm.MessageTypeFor | dom/media/eme/gonk/GonkDrmSupport.cpp:345-361 | Initial, Renewal and Release map to license request, renewal and release; every other request type has no message type |
| GonkDrm.SessionInfo.constructor | dom/media/eme/gonk/GonkDrmSupport.cpp:158-184 | a new session keeps its ids and persistence, is not released and has no key set id |
| GonkDrm.SessionInfo.RequestId | dom/media/eme/gonk/GonkDrmSupport.cpp:324 | the key set id when released, otherwise the DRM id |
| GonkDrm.SessionManager.FindByEmeId | dom/media/eme/gonk/GonkDrmSupport.cpp:802-808 | the session stored under the EME id, or null iff there is none |
| GonkDrm.SessionManager.FindByDrmId | dom/media/eme/gonk/GonkDrmSupport.cpp:810-817 | the session stored under the DRM id, or null iff there is none |
| GonkDrm.SessionManager.Add | dom/media/eme/gonk/GonkDrmSupport.cpp:773-779 | both indexes map the session's ids to it, so both finds return it; adding a new session keeps the two indexes in step |
| GonkDrm.SessionManager.Remove | dom/media/eme/gonk/GonkDrmSupport.cpp:781-787 | both ids are erased, so both finds return null; removing a session filed under both its ids keeps the two indexes in step |
| GonkDrm.SessionManager.Clear | dom/media/eme/gonk/GonkDrmSupport.cpp:789-792 | both indexes are empty |
| GonkDrm.SessionManager.All | dom/media/eme/gonk/GonkDrmSupport.cpp:794-800 | every stored session exactly once |
| GonkDrm.SharedData.SetCryptoSessionId | dom/media/eme/gonk/GonkDrmSupport.cpp:155 | the crypto session id is stored |
| GonkDrm.SharedData.AddKey | dom/media/eme/gonk/GonkDrmSupport.cpp:764-769 | the (DRM id, key id) pair is appended to the registered keys |
| GonkDrm.SharedData.RemoveSession | dom/media/eme/gonk/GonkDrmSupport.cpp:521 | the DRM id is appended to the removed sessions |
| GonkDrm.RegisteredKeys | dom/media/eme/gonk/GonkDrmSupport.cpp:764-769 | every reported key except the dummy key id is registered under the session's DRM id, and nothing else |
| GonkDrm.RegisteredKeysSnoc | dom/media/eme/gonk/GonkDrmSupport.cpp:764-769 | one more reported key adds exactly its registration, unless it is the dummy key |
| GonkDrm.StorageOutcome | dom/media/eme/gonk/GonkDrmSupport.cpp:483-494 | a storage answer succeeds iff the data was stored |
| GonkDrm.GonkDrmSupport.constructor | dom/media/eme/gonk/GonkDrmSupport.cpp:52-56 | no DRM open, no shared data, no sessions |
| GonkDrm.GonkDrmSupport.GetKeyRequest | dom/media/eme/gonk/GonkDrmSupport.cpp:319-365 | the DRM is asked with the request id, init data, mime type and key type; a request comes back iff the DRM made one of a known type, with the mapped message type |
| GonkDrm.GonkDrmSupport.OpenDrmSession | dom/media/eme/gonk/GonkDrmSupport.cpp:158-184 | a failed open returns its error and changes no table; a missing session object is an unknown error; otherwise the new session, with the DRM id, EME id and persistence given, is added to both indexes and nothing else in them changes |
| GonkDrm.GonkDrmSupport.CloseDrmSession | dom/media/eme/gonk/GonkDrmSupport.cpp:186-200 | null is OK; a failed DRM close returns its error and changes no table; a successful one removes the session from both indexes |
| GonkDrm.GonkDrmSupport.UpdateSession | dom/media/eme/gonk/GonkDrmSupport.cpp:459-497 | null fails with session-not-found; a failed provide fails; a temporary or released session succeeds; otherwise the key set id is stored and the storage answer decides |
| GonkDrm.GonkDrmSupport.RemoveSession | dom/media/eme/gonk/GonkDrmSupport.cpp:548-584 | the guards fail in order: not found, not persistent, no key set id; otherwise the session is marked released before it is saved; a failed save fails with the storage error and asks for nothing; after a save the DRM is asked for a Release-type key request on the key set id with no init data, and the outcome succeeds iff a request of a known type comes back, carrying the DRM's message |
| GonkDrm.GonkDrmSupport.CloseSession | dom/media/eme/gonk/GonkDrmSupport.cpp:499-524 | an unknown EME id fails; a failed DRM close fails and changes no table; otherwise the session is erased from both indexes and its DRM id is reported to the shared data |
| GonkDrm.GonkDrmSupport.NotifyKeyStatus | dom/media/eme/gonk/GonkDrmSupport.cpp:760-771 | the shared data gains exactly `RegisteredKeys` of the report, and the report is forwarded under the session's EME id |
| GonkDrm.GonkDrmSupport.Reset | dom/media/eme/gonk/GonkDrmSupport.cpp:261-277 | the sessions closed are exactly the open ones, each once (their DRM ids, without repeats); the tables and the shared data are cleared and the DRM is closed |
| HwcComposer.HwcComposer2D.constructor | widget/gonk/HwcComposer2D.cpp:89-118 | no list and no capacity; hardware vsync iff a composer exists and the callback registered; colour fill and RB swap iff the composer reports them |
| HwcComposer.HwcComposer2D.ReallocLayerList | widget/gonk/HwcComposer2D.cpp:239-257 | success iff the allocation succeeds; then the capacity grows by 5, a first list starts with no layers and no flags, a grown list keeps its header; a failure changes nothing |
| HwcComposer.HwcComposer2D.EnableVsync | widget/gonk/HwcComposer2D.cpp:145-157 | false without hardware vsync; true without asking the HAL when disabling while always-enabled; otherwise the HAL answer and `enable`, so a successful disable implies always-enabled |
| HwcComposer.HwcComposer2D.Prepare | widget/gonk/HwcComposer2D.cpp:804-813 | the composer is prepared afterwards, and it warns iff it already was |
| HwcComposer.HwcComposer2D.StopRenderWithHwc | widget/gonk/HwcComposer2D.cpp:967-969 | the flag takes the argument |
| HwcComposer.HwcComposer2D.SetVsyncAlwaysEnabled | widget/gonk/HwcComposer2D.cpp:971-973 | the flag takes the argument |
| MmsMessage.ParseDelivery | dom/mobilemessage/MmsMessageInternal.cpp:186-199 | only the five delivery strings parse, each to the state whose string it is |
| MmsMessage.DeliveryRoundTrip | dom/mobilemessage/MmsMessageInternal.cpp:430-451 | the unknown state, and only it, has no string (the source crashes); parsing any other state's string gives the state back |
| MmsMessage.ParseDeliveryStatus | dom/mobilemessage/MmsMessageInternal.cpp:327-342 | a string parses iff it is one of the six delivery-status strings, to the status whose string it is |
| MmsMessage.DeliveryStatusRoundTrip | dom/mobilemessage/MmsMessageInternal.cpp:119-142 | the constructor's status-to-string switch and `GetData`'s chain are inverse |
| MmsMessage.ParseReadStatus | dom/mobilemessage/MmsMessageInternal.cpp:346-360 | a string parses iff it is one of the four read-status strings, to the status whose string it is |
| MmsMessage.ReadStatusRoundTrip | dom/mobilemessage/MmsMessageInternal.cpp:148-166 | the read-status switch and `GetData`'s chain are inverse |
| MmsMessage.InfoFromData | dom/mobilemessage/MmsMessageInternal.cpp:108-172 | the stored status strings parse back to the data's statuses |
| MmsMessage.InfoToData | dom/mobilemessage/MmsMessageInternal.cpp:318-369 | conversion succeeds iff both status strings are known, and the result converts back to the same entry |
| MmsMessage.InfoRoundTrip | dom/mobilemessage/MmsMessageInternal.cpp:318-369 | converting an entry from data and back gives the same data |
| MmsMessage.AttachmentFromData | dom/mobilemessage/MmsMessageInternal.cpp:94-104 | the stored attachment keeps id and location and has no content blob |
| MmsMessage.AttachmentToDataAsWritten | dom/mobilemessage/MmsMessageInternal.cpp:372-398 | needs the attachment's own content; converts iff its blob serialises |
| MmsMessage.DataAttachmentsBreakAsWrittenGetData | dom/mobilemessage/MmsMessageInternal.cpp:372-398 | an attachment stored by the data constructor has no content, so the as-written conversion cannot be applied to it |
| MmsMessage.AttachmentToData | dom/mobilemessage/MmsMessageInternal.cpp:372-398 | converts iff the parallel blob serialises, keeping id and location; agrees with the as-written conversion when the content is that blob |
| MmsMessage.MmsMessageInternal.constructor | dom/mobilemessage/MmsMessageInternal.cpp:46-76 | every field is stored, and each attachment's blob is the parallel blob |
| MmsMessage.MmsMessageInternal.FromData | dom/mobilemessage/MmsMessageInternal.cpp:78-173 | every scalar field is copied; attachments and blobs are parallel to the data's attachments; each delivery entry is converted from its data |
| MmsMessage.MmsMessageInternal.GetData | dom/mobilemessage/MmsMessageInternal.cpp:302-401 | succeeds iff every status string is known and every blob serialises; then the fields are copied, each delivery entry is converted back and each attachment pairs with its blob |
| MmsMessage.MmsMessageInternal.GetDelivery | dom/mobilemessage/MmsMessageInternal.cpp:430-451 | the crash on the unknown state is `None`, and happens iff the state is unknown; otherwise the string parses back to the stored state |
| MmsMessage.MmsMessageInternal.GetDeliveryInfo | dom/mobilemessage/MmsMessageInternal.cpp:457-470 | null iff there is no delivery entry, otherwise the entries |
| MmsMessage.MmsMessageInternal.GetAttachments | dom/mobilemessage/MmsMessageInternal.cpp:521-550 | null iff there is no attachment, otherwise the attachments with their blobs |
| MmsMessage.Create | dom/mobilemessage/MmsMessageInternal.cpp:175-299 | an unknown delivery string is an invalid argument; an attachment without content is unexpected; otherwise a message holding the parsed state and every other argument, each attachment's blob being its content's blob |
| MmsMessage.DataRoundTrip | dom/mobilemessage/MmsMessageInternal.cpp:78-401 | building a message from data and calling `GetData` gives the data back when blob serialisation inverts deserialisation |
| SmsIpc.GetMobileMessageDataFromMessage | dom/mobilemessage/ipc/SmsParent.cpp:142-167 | null fails; an MMS message converts iff its `GetData` does, and then carries exactly `GetData`'s relation to the message; otherwise an SMS message gives its data; anything else fails |
| SmsIpc.RemoveFirst | dom/mobilemessage/ipc/SmsParent.cpp:369-372 | the first occurrence is removed and nothing else; an absent element changes nothing |
| SmsIpc.RemoveFirstFromUnique | dom/mobilemessage/ipc/SmsParent.cpp:361-375 | in a list without duplicates, removal keeps it without duplicates, removes the number and keeps every other number |
| SmsIpc.SmsParent.constructor | dom/mobilemessage/ipc/SmsParent.cpp:172-189 | no silent numbers |
| SmsIpc.SmsParent.RecvAddSilentNumber | dom/mobilemessage/ipc/SmsParent.cpp:345-359 | the service is asked iff the number is absent; it is appended iff the service succeeds; the list never holds duplicates |
| SmsIpc.SmsParent.RecvRemoveSilentNumber | dom/mobilemessage/ipc/SmsParent.cpp:361-375 | the service is asked iff the number is present; it is removed iff the service succeeds |
| SmsIpc.SmsParent.ObserveSilentSms | dom/mobilemessage/ipc/SmsParent.cpp:290-306 | a silent SMS is forwarded iff it is an SMS whose sender is a silent number, and then its data is forwarded |
| SmsIpc.SmsRequestParent.constructor | dom/mobilemessage/ipc/SmsParent.cpp:421-429 | the actor is alive and has sent nothing |
| SmsIpc.SmsRequestParent.ActorDestroy | dom/mobilemessage/ipc/SmsParent.cpp:482-484 | the actor is destroyed |
| SmsIpc.SmsRequestParent.SendReply | dom/mobilemessage/ipc/SmsParent.cpp:647-654 | after destruction it fails and sends nothing; otherwise the reply is sent and the result reports delivery |
| SmsIpc.MobileMessageCursorParent.constructor | dom/mobilemessage/ipc/SmsParent.cpp:459-467 | the callback is held as given and nothing is sent |
| SmsIpc.MobileMessageCursorParent.ActorDestroy | dom/mobilemessage/ipc/SmsParent.cpp:766-773 | the continue callback is cleared |
| SmsIpc.MobileMessageCursorParent.NotifyCursorError | dom/mobilemessage/ipc/SmsParent.cpp:845-854 | without a callback it fails and sends nothing; otherwise it clears the callback and sends the one error reply |
| SmsIpc.MobileMessageCursorParent.NotifyCursorDone | dom/mobilemessage/ipc/SmsParent.cpp:913-915 | without a callback it fails; otherwise it clears the callback and sends the one success reply |
| WgpuServer.ChainTextOfCausedError | gfx/wgpu_bindings/src/server.rs:45-55 | an error with a source is formatted as its text, ", caused by: " and the source's chain |
| WgpuServer.FormatErrorChain | gfx/wgpu_bindings/src/server.rs:48-53 | the loop produces the whole chain, which starts with the error's own text |
| WgpuServer.CopiedLength | gfx/wgpu_bindings/src/server.rs:58-69 | needs a non-zero capacity; the copied length is below the capacity and is the message length, or capacity − 1 when truncated |
| WgpuServer.Written | gfx/wgpu_bindings/src/server.rs:58-74 | the buffer keeps its length |
| WgpuServer.ReadBackAfterInitStr | gfx/wgpu_bindings/src/server.rs:58-74 | reading the buffer as a C string gives the copied prefix of the message, and the whole message when it fits |
| WgpuServer.EmbeddedZeroTruncates | gfx/wgpu_bindings/src/server.rs:35-44 | a message with an embedded zero reads back only up to that zero |
| WgpuServer.ErrorBuffer.constructor | gfx/wgpu_bindings/src/server.rs:28-32 | the buffer wraps the caller's storage and capacity |
| WgpuServer.ErrorBuffer.InitStr | gfx/wgpu_bindings/src/server.rs:58-74 | the storage becomes `Written` of the old storage and the message, and nothing else changes |
| WgpuServer.ErrorBuffer.Init | gfx/wgpu_bindings/src/server.rs:45-56 | the storage receives the formatted chain |
| WgpuServer.Position | gfx/wgpu_bindings/src/server.rs:136 | the first index holding the id |
| WgpuServer.AsI8 | gfx/wgpu_bindings/src/server.rs:136 | `as i8` keeps the value modulo 256 in −128..127 and leaves values below 128 unchanged |
| WgpuServer.RequestAdapterAnswerAsWritten | gfx/wgpu_bindings/src/server.rs:124-142 | −1 on error; the position when it is below 128 |
| WgpuServer.AdapterAnswerCollidesWithError | gfx/wgpu_bindings/src/server.rs:136 | with 256 adapters, choosing the last one answers −1, as an error does |
| WgpuServer.RequestAdapterAnswer | gfx/wgpu_bindings/src/server.rs:124-142 | −1 iff the request failed; otherwise an index holding the chosen id; agrees with the as-written answer for at most 128 adapters |
| WgpuServer.RequestAdapter | gfx/wgpu_bindings/src/server.rs:124-142 | returns `RequestAdapterAnswer`; the error buffer is untouched on success and receives the error chain on failure |

## Left out

- Finish: the bundle it builds has empty string and push-constant data, as the source builds it (bundle.rs:603-610), so the data offsets of kept push-constant uploads point past the end of that data; `RenderBundle::execute`, which slices that data (bundle.rs:797-801), is not part of this model.
- Render-bundle resource tracking: trackers, the memory-initialisation actions, the hub read locks, `RenderBundle::execute` with its HAL calls, and the `bundle_ffi` entry points are not part of this model.
- `validate_push_constant_ranges`, `compute_nonoverlapping_ranges` and `buffer_binding_type_alignment` are parameters: a validation flag, a splitting function and the bind group's list of alignments.
- Render-pass compatibility (`RenderPassContext::check_compatible`) is modelled as equality of contexts.
- Texture formats are reduced to the aspects they have; wgpu-hal's `FormatAspects` and `conv::is_power_of_two_u32` are not part of this model.
- Debug builds panic on overflowing `u32`/`u64` additions; the model follows release builds, where they wrap, except in the members the next line names.
- DrawArm, DrawIndexedArm, Finish, RequestAdapter and MmsMessageInternal.GetData run the corrected definitions of the Findings rows (exact draw-limit sums, an adapter answer that cannot be −1 on success, attachments serialised from `mBlobImpls`), not the code as written; the as-written behaviour is stated only by the as-written members of those rows.
- `MultiDrawIndirect` with a count, `MultiDrawIndirectCount` and the commands that reach `unimplemented!()`/`unreachable!()` are modelled as a panic (`Panicked`); the panic message is not modelled.
- An out-of-range slice of the dynamic offsets, which panics in the source, is a panic of `SetBindGroupArm`, so `Finish` returns `Panicked`.
- `PushConstantState`'s dirty flag is never cleared by `flush_push_constants`; the model keeps that behaviour.
- `IndexState`, `VertexState` and `PushConstantState` are values assigned to fields of `State` rather than objects updated in place.
- GonkDrm: the `IDrm` binder calls, the provisioning round-trip, the storage callbacks and the JS callback are answers passed as parameters; thread dispatch in `notify` and the JSON parsing in `PeekClearkeyKeyStatus` are not modelled; no contract is stated for `CreateSession`'s path after a failed key request.
- SmsParent: observer-service registration, JS object construction, IPDL actor allocation and the request dispatch switches are IPC plumbing and are left out.
- MmsMessageInternal: the `JS::Value` array walking and blob (de)serialisation are parameters; inputs are already-decoded sequences.
- HwcComposer2D: the `#if 0` bodies, the transform classification, vsync timestamps, the mutex and hotplug dispatch are left out; the HAL is an answer passed as a parameter.
- server.rs: the `wgpu_server_*` FFI wrappers, bincode, trace handling and `TRACE_IDX` are foreign calls and I/O.
- `finish`'s order of flushed state commands among the recorded ones, and its offset values, are stated through `FinishOf` and the per-arm `…Move` functions; no separate closed-form lemma states them over the whole command stream.

## Findings

| source | as written | input that shows it | evidently intended | confidence | as-written member | corrected member |
|---|---|---|---|---|---|---|
| third_party/rust/wgpu-core/src/command/bundle.rs:457-458 | `first_vertex + vertex_count` is a `u32` sum that wraps in release builds before it is compared with the vertex limit | vertex limit 0, `first_vertex` = 4294967295, `vertex_count` = 1: the wrapped sum 0 passes | reject every draw whose true last vertex exceeds the limit | not executed | BundleFinish.DrawLimitErrorAsWritten, BundleFinish.DrawLimitWrapAdmitsOverflow | BundleFinish.DrawLimitError |
| third_party/rust/wgpu-core/src/command/bundle.rs:493-494 | `first_index + index_count` wraps the same way before the index-limit check | index limit 2, `first_index` = 4294967295, `index_count` = 2: the wrapped sum 1 passes | reject every indexed draw whose true last index exceeds the limit | not executed | BundleFinish.IndexedDrawLimitErrorAsWritten, BundleFinish.IndexedDrawLimitWrapAdmitsOverflow | BundleFinish.IndexedDrawLimitError |
| gfx/wgpu_bindings/src/server.rs:136 | the adapter's position is returned `as i8` | 256 adapters and the last one chosen: 255 becomes −1, the error answer | an answer that tells every chosen adapter apart from failure | not executed | WgpuServer.RequestAdapterAnswerAsWritten, WgpuServer.AdapterAnswerCollidesWithError | WgpuServer.RequestAdapterAnswer |
| dom/mobilemessage/MmsMessageInternal.cpp:372-398 | `GetData` serialises each attachment's own content blob | a message built from IPC data: its attachments carry no content, so the as-written conversion dereferences a null blob | serialise the parallel blob kept in `mBlobImpls` | not executed | MmsMessage.AttachmentToDataAsWritten, MmsMessage.DataAttachmentsBreakAsWrittenGetData | MmsMessage.AttachmentToData |
