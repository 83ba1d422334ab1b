# infolauncher drawing core, modelled in Dafny

infolauncher opens a Wayland layer-shell surface (a 500x500 panel anchored to
the top edge) and listens for input until escape is pressed or the compositor
closes the surface. It also contains the start of a Vulkan rendering path.
This project models the repository's own logic and treats Wayland and Vulkan
as values that describe what the other side does:

- `shader.dfy` (module `Shader`, from `src/draw/shader/mod.rs`): the four
  shader-interface iterators as `u16` counter machines, their exact-size
  contract, the entry lists they hand out, the two empty pipeline layouts, the
  entry points, and the `Vertex` record.
- `shutdown.dfy` (module `Shutdown`, from `src/draw.rs`): the two-state
  shutdown flag and the one move any handler makes on it.
- `window.dfy` (module `Window`, from `src/draw/window.rs`): `Window::spawn` as
  a log of protocol actions, and the layer-surface handler (configure, closed).
- `draw.dfy` (module `Draw`, from `src/draw.rs`): `Drawer::initialize`, the
  keyboard filter, the seat handler, per-batch dispatch, and the
  `listen_events` loop as a method over a sequence of dispatch batches.
- `vulkan.dfy` (module `Vulkan`, from `src/draw/vulkan.rs`): the choices
  `VkSession::initialize` makes and `new_framebuffers`.
- `protocol.dfy` (module `Protocol`) and `base.dfy` (module `Base`): the wire
  vocabulary, integer widths, and the `Outcome`/`Panicking` results. A Rust
  `?` error is `Err`. A panic from `unwrap`, `expect`, `panic!`,
  `unreachable!` or an out-of-range index is `Abort` or `Panic`, and it names
  the place that panicked.

Three facts about the code shape the model:

- The frame-target viewport is fixed at 500x500, whatever extent the
  swapchain got (`src/draw/vulkan.rs:143-148`).
- `Drawer::initialize` creates no GPU session, because the call to
  `VkSession::initialize` is commented out (`src/draw.rs:36`).
  `Vulkan.Initialize` is therefore modelled on its own.
- The event loop checks the shutdown flag before every dispatch, including
  once before the first one (`src/draw.rs:74-82`).

## Model

| member | source | states |
|---|---|---|
| `Base.WrappingSub16` | src/draw/shader/mod.rs:77 | `u16` subtraction gives the difference modulo 2^16 |
| `Shader.Elements` | src/draw/shader/mod.rs:40-42 | `elements()` starts a counter at 0, which is a reachable state |
| `Shader.Next` | src/draw/shader/mod.rs:49-71 | while declared entries remain, `next` hands out the next one and advances the counter by one; afterwards it returns `None` and does not move the counter; reachable states stay reachable (the single-entry iterators at 104-113, 168-177 and 206-217 have the same shape) |
| `Shader.SizeHint` | src/draw/shader/mod.rs:75-79 | the hint is `(k, Some(k))`; in a reachable state the counter never exceeds the literal it is subtracted from, so nothing wraps, and `k` is the number of declared entries not yet handed out |
| `Shader.TakeWithinHint` | src/draw/shader/mod.rs:74-82 | `n` calls of `next` with `n` at most the hint yield exactly the next `n` declared entries |
| `Shader.TakeExhausted` | src/draw/shader/mod.rs:63-71 | once exhausted, any number of calls yield nothing and leave the iterator unchanged |
| `Shader.TakeBeyondHint` | src/draw/shader/mod.rs:74-82 | `n` calls with `n` at least the hint yield every remaining entry and leave the iterator exhausted: the hint is the exact number of further `Some` results |
| `Shader.CollectYieldsDeclared` | src/draw/shader/mod.rs:37-71 | draining a fresh iterator, by its hint or by any larger number of calls, gives exactly the declared entries and then `None` |
| `Shader.VertInputSequence` | src/draw/shader/mod.rs:55-71 | the vertex input yields `color` at 1..2 (R32G32B32Sfloat), then `position` at 0..1 (R32G32Sfloat), then nothing however often it is asked |
| `Shader.DisjointMeansNoSharedLocation` | src/draw/shader/mod.rs:51-53 | the interval test used for "no overlap" holds exactly when no location lies in both ranges |
| `Shader.InterfacesWellFormed` | src/draw/shader/mod.rs:50-54 | every interface has pairwise disjoint location ranges, one location per entry, and formats of at most 128 bits; the `f_color` format (line 213) is exactly 128 bits |
| `Shader.StageInterfacesMatch` | src/draw/shader/mod.rs:104-177 | what the vertex output hands out equals what the fragment input hands out: one `v_color` at 0..1 of R32G32B32Sfloat |
| `Shader.LayoutsDeclareNothing` | src/draw/shader/mod.rs:128-149 | both layouts (also 231-247) are consistent in the `PipelineLayoutDesc` sense and declare 0 sets, no bindings, no descriptors and 0 push-constant ranges |
| `Shader.EntryVertex` | src/draw/shader/mod.rs:265-280 | the vertex entry point is a vertex shader on the vertex stage; its inputs are `color` then `position`; both its interfaces keep the location contract; what it outputs is exactly what the fragment entry point takes in |
| `Shader.EntryFragment` | src/draw/shader/mod.rs:249-264 | the fragment entry point is a fragment shader on the fragment stage; it takes the single `v_color` and writes the single 128-bit `f_color`; both interfaces keep the location contract |
| `Shader.EntryPointsLink` | src/draw/shader/mod.rs:249-280 | both entry points are `main`; the vertex entry's outputs are the fragment entry's inputs; each layout names only its own stage |
| `Shader.VertexFeedsVertInput` | src/draw/shader/mod.rs:16-22 | the `Vertex` fields (2 and 3 f32 components) and the vertex-input entries correspond one to one, by name, component count and 32-bit component width |
| `Shutdown.Raise` | src/draw.rs:48 | a handler's write (here and at `src/draw/window.rs:73`) leaves the flag at least as far along as before, and `Closing` exactly when it was already `Closing` or the handler closes |
| `Window.OnLayerEvent` | src/draw/window.rs:63-75 | a configure of another size panics with `SizeRefused`; a matching one acknowledges its own serial; `Closed` sets `Closing`; any other event changes nothing |
| `Window.DeliverLayerSpec` | src/draw/window.rs:63-76 | over a whole round-trip, the handler panics exactly when some configure refuses the size; otherwise it acknowledges every configure in order, and the flag ends `Closing` exactly when it was or a `Closed` arrived |
| `Window.FirstRefused` | src/draw/window.rs:68-70 | finds the first configure whose size differs from the requested one; every configure before it grants that size |
| `Window.SpawnConnectFailure` | src/draw/window.rs:30-43 | an unreachable compositor gives `Err(WindowError::Todo(..))` rather than a panic, and no action is taken |
| `Window.SpawnSucceeds` | src/draw/window.rs:37-90 | `spawn` succeeds exactly when the compositor accepts the connection, sends nothing stray, advertises both globals at version 1 and grants the size in every configure. The actions are then: connect, registry round-trip, compositor and layer-shell binds, the top-layer surface with size, top anchor, margin `(top, 0, 0, left)` and keyboard interactivity 1, a round-trip, the acknowledgements, the commit, the final round-trip, then the later acknowledgements |
| `Window.UntilRefused` | src/draw/window.rs:63-75 | when a round-trip refuses the size, the handler run up to the first refused configure does not panic and one event further does. The flag is then `Closing` exactly when it was or a `Closed` came before that configure, and only the configures before it are acknowledged |
| `Window.SpawnRefusedSize` | src/draw/window.rs:63-76 | a wrong-size configure before the commit makes `spawn` panic with `SizeRefused`. Only the configures before it are acknowledged, nothing is committed, and the flag shows any `Closed` that came before the refusal |
| `Window.SpawnRefusedAfterCommit` | src/draw/window.rs:63-79 | a wrong-size configure in the round-trip after the commit makes `spawn` panic with `SizeRefused` after the commit. Every configure of the first round-trip and those of the second before the refused one are acknowledged, and the flag shows any `Closed` that came before the refusal |
| `Draw.KeyFilter` | src/draw.rs:42-53 | the flag becomes `Closing` exactly when it already was or the event is a press of key 1; releases, other keys, focus changes and other events leave it alone |
| `Draw.EscapeIdempotent` | src/draw.rs:46-49 | filtering escape twice gives the same state as once, which is `Closing` |
| `Draw.OnSeatEvent` | src/draw.rs:54-67 | the first capabilities event offering a keyboard obtains it (one `get_keyboard`), later ones do nothing, and the flag is untouched |
| `Draw.Dispatch` | src/draw.rs:42-67 | one event panics exactly for a wrong-size configure, and then with `SizeRefused`; otherwise the flag only moves forward and earlier actions stay in the log |
| `Draw.DeliverBatchPanics` | src/draw/window.rs:63-70 | a dispatch panics exactly when one of its events is a configure refusing the window's size, and the panic is `SizeRefused` |
| `Draw.DeliverBatchMonotone` | src/draw.rs:46-49 | across a whole dispatch the flag never goes back from `Closing` to `Running` |
| `Draw.DeliverBatchCloses` | src/draw.rs:42-67 | after a dispatch that does not panic, the flag is `Closing` exactly when it was already, or the batch had a `Closed` or an escape press on a keyboard obtained by then |
| `Draw.DeliverBatchKeyboardOnce` | src/draw.rs:54-67 | each dispatch preserves the invariant that `get_keyboard` was sent once if `keyboard_created` is set and never otherwise |
| `Draw.KeyboardObtainedAtMostOnce` | src/draw.rs:54-84 | at every check of the loop that invariant holds, so the keyboard is obtained at most once over the whole run |
| `Draw.RepeatedEscapeIsIdempotent` | src/draw.rs:46-49 | delivering escape `n >= 1` times in a row gives the same state as delivering it once |
| `Draw.AfterBatchesMonotone` | src/draw.rs:74-84 | from one loop check to any later one the flag never goes back to `Running` |
| `Draw.ListenEvents` | src/draw.rs:54-84 | binds the seat and round-trips, then checks the flag before every dispatch. The first check that sees `Closing` destroys the surface and round-trips once, delivering that round-trip's events to the handlers, which can still panic. It then returns without dispatching again. Otherwise it reports running out of batches while still `Running`, or the dispatch that panicked |
| `Draw.ClosesExactlyWhenAsked` | src/draw.rs:74-84 | the loop reaches its teardown (which may still panic) exactly when some prefix of the batches makes the flag `Closing`, and then after the shortest such prefix |
| `Draw.ClosedEventEndsLoop` | src/draw.rs:74-84 | a `Closed` event, or an escape press on a keyboard already obtained, in a batch dispatched while running leaves the flag `Closing` at the very next check |
| `Draw.InitializeOutcome` | src/draw.rs:32-39 | start-up asks for a 500x500 surface with top margin 100 and panics rather than returning when the compositor cannot be reached; the flag after it is `Closing` exactly when the compositor closed the surface during spawn |
| `Vulkan.FirstGraphics` | src/draw/vulkan.rs:77-80 | the chosen queue family supports graphics and no earlier one does; none is chosen exactly when no family supports graphics |
| `Vulkan.FirstAlpha` | src/draw/vulkan.rs:100 | the chosen composite alpha is supported and comes first in iteration order; none exactly when no mode is supported |
| `Vulkan.DeviceIndexOutOfRange` | src/draw/vulkan.rs:73-75 | an index at or beyond the device count gives `Err(PhysicalDeviceIdNotFound(id))` with the same id, after creating the instance and nothing else |
| `Vulkan.NoGraphicsFamilyAborts` | src/draw/vulkan.rs:77-93 | a device with no graphics queue family aborts before any logical device is created |
| `Vulkan.InitializeChoices` | src/draw/vulkan.rs:66-135 | a successful session uses the requested device, the first graphics family, the current extent or else 500x500, the first format and the first composite alpha. It asks for `min_image_count` images, 1 layer, identity transform, FIFO, clipped and sRGB non-linear, with instance extensions {surface, wayland-surface} and device extension {swapchain}. It creates instance, device, surface and swapchain in that order |
| `Vulkan.NewFramebuffers` | src/draw/vulkan.rs:137-181 | one render pass (swapchain format, clear on load, store, 1 sample); one framebuffer per swapchain image, in image order, each on that render pass; exactly one dynamic viewport at (0, 0) of 500x500 |
| `Vulkan.FramebuffersMatchSwapchain` | src/draw/vulkan.rs:102-180 | running `initialize` and then `new_framebuffers` on its session gives framebuffers exactly when `initialize` succeeds. Their attachments are then exactly the images `Swapchain::new` returned, in order, so the framebuffer count equals the image count |

## Left out

- `src/main.rs`: it only calls `Drawer::initialize` and then `listen_events`.
- Wayland I/O: the connection, event queues, blocking `dispatch` and `sync_roundtrip`, and `GlobalManager`. Each round-trip or dispatch is a given sequence of events, and an I/O error inside one (the `unwrap`s at `src/draw.rs:71,78,82` and `src/draw/window.rs:49,76,79`) is not modelled.
- `Draw.ListenEvents`: a real `dispatch` with no traffic blocks forever. The model stops with `Stalled` when the given batches run out.
- Keyboard events that arrive before a keyboard has been obtained are dropped. There is no keyboard object yet to deliver them on.
- The `Mutex`, `lazy_static` and `Arc` around the shutdown flag, and the `unsafe impl Send/Sync for Window`. Dispatch runs on one thread, so the flag is a plain value.
- Logging (`println!`, `eprintln!`).
- The Wayland handles inside `Window` (display, queue, surface, layer objects). The model keeps only the requested size and the advertised globals.
- Vulkan object creation (`Instance::new`, `Device::new`, `Surface::from_wayland`, `Swapchain::new`) and `create_vk_surface`/`SafeBorrow`. These are foreign calls. The driver value says whether each succeeds and which images the swapchain returns. How the `Window` moves into the Vulkan surface is not modelled.
- `Vulkan.NewFramebuffers`: render-pass and framebuffer creation (`unwrap`s at `src/draw/vulkan.rs:165,174,176`) are assumed to succeed, because they are driver calls.
- Floating point: the queue priority 0.5 and the clear colour are not modelled. Vertex data is kept as bit patterns. The viewport's whole-number `f32` values are kept as integers.
- Shader loading (`shader::open`: file reading and `ShaderModule::new`) and the `unsafe` entry-point construction. These are file I/O and foreign calls. Only the entry points' interfaces, layouts and names are modelled.
- The commented-out `test_draw` (`src/draw.rs:87-169`): command recording, submission and present. It is dead code and GPU work.
- `Shader.SizeHint`: the `u16` subtraction is modelled as a release build's wrap-around, where a debug build would panic instead. No reachable state gets there either way.
- `Window.Spawn`: the log places the acknowledgements a round-trip triggers right after that round-trip's sync request, which is the order they reach the wire.
