# surfman iOS backend: context/surface lifecycle and binding, in Dafny

This project models the iOS backend of surfman, a library that creates GPU
contexts and pixel-buffer surfaces. The modelled core is:

- how a `Context` is created, with its id taken from a process-wide counter;
- the binding state machine of a context's framebuffer slot (`None`,
  `Surface(s)` or `External`);
- how a `Surface` is created, destroyed, locked for CPU access through a
  `SurfaceDataGuard`, and released;
- the operations this backend answers with a fixed outcome.

Modules, one per part of the source:

- `Types` (types.dfy): plain values. These are ids, `GLVersion`,
  `ContextAttributes`, `ContextDescriptor`, `Size2D`, `SurfaceAccess`,
  `SurfaceType`, `SurfaceInfo`, the error kinds and the `Framebuffer` slot.
- `Entities` (entities.dfy): the records that the device updates in place,
  written as classes. These are `Context` (its `framebuffer` is a `var`),
  `Surface` (its `destroyed` flag is a `var`), `SurfaceDataGuard`, and
  `ContextIdCounter`, the value behind `CREATE_CONTEXT_MUTEX`. Dafny modules
  cannot import each other in a cycle, and context.rs and surface.rs do, so
  both records live in this one module.
  - `Surface.ioSurfaceCalls` is the history of native lock and unlock calls.
  - `Outstanding` and `Paired` say how many locks that history holds, and
    that locks and unlocks alternate.
- `IosSurface` (surface.dfy): the behaviour in surface.rs.
- `IosContext` (context.dfy): the behaviour in context.rs. It also holds the
  pure transition functions `Bind` and `Unbind`, which specify the two
  methods that change the slot.
- `Lifecycle` (lifecycle.dfy): properties that span several calls. These
  cover ids over a series of creations, binding over a series of calls, and
  the pairing of locks and unlocks.

Calls into native code become parameters:

- `initWithApi: nat -> bool` says whether `initWithAPI:` returns a context
  for a given API version.
- `setCurrentResult: bool` is whether `setCurrentContext:` returned YES.
- `lockResult` is what `IOSurfaceLock` returns.
- `ioSurfaceNew` is the native buffer allocator.
- `cpuAccessAllowed` is `SurfaceAccess::cpu_access_allowed`. It is defined
  outside the modelled files, so it stays uninterpreted.

The process-wide counter is an explicit `ContextIdCounter` argument.

Panics are modelled in two ways:

- Where the source demands something of its callers, the panic becomes a
  precondition. Asking for a widget surface is the example.
- Where the panic is the outcome being described, it becomes a `DropOutcome`
  value. Dropping a surface that was never destroyed is the example.

Where the code and the library's documented design disagree, the model
follows the code:

- `make_context_current` and `make_no_context_current` discard the native
  result and always return Ok. The design says they fail with `Failed` when
  the native switch is refused.
- `destroy_context` only drops the `&mut` reference it receives. It changes
  nothing and returns Ok. In particular it neither unbinds nor destroys a
  bound surface; dropping the context later panics if that surface was not
  destroyed (`DropContext`).
- `create_context_from_native_context` does not wrap the native context.
  It asks for a context with zeroed attributes, whose major version 0 lies
  outside ES1..ES3, so it always fails with `Failed` and never takes an id.
- `context_descriptor` pairs the context's version with zeroed attributes.
  Attributes read back from it therefore carry version 0.0
  (`DescriptorAttributesCannotRecreate`).
- The design says binding a surface to a context with another id always
  fails with `IncompatibleSurface`. The code checks the slot first, so an
  occupied slot reports `SurfaceAlreadyBound` or `ExternalRenderTarget`
  instead (`ForeignSurfaceNeverBinds`).

## Model

| member | source | states |
|---|---|---|
| `Types.ZeroedAttributes` | surfman/src/platform/ios/context.rs:156-160 | the attributes used for native contexts and for descriptors of existing contexts carry version 0.0 and no flags |
| `Entities.Context.constructor` | surfman/src/platform/ios/context.rs:69-74 | a new context has the given id and requested version, and nothing bound |
| `Entities.Surface.constructor` | surfman/src/platform/ios/surface.rs:106-112 | a new surface records its context id, buffer, size and access, is not destroyed, and has issued no lock calls |
| `Entities.SurfaceDataGuard.constructor` | surfman/src/platform/ios/surface.rs:272-277 | a new guard refers to the locked surface and has not been released |
| `IosSurface.CacheModeFor` | surfman/src/platform/ios/surface.rs:170-173 | the cache mode is write-combined if and only if the access is `GPUCPUWriteCombined`, and the default mode otherwise |
| `IosSurface.CreateIOSurfaceProperties` | surfman/src/platform/ios/surface.rs:169-201 | the allocation uses the requested width and height, 4 bytes per element, a row stride of width × 4, BGRA pixels and the access-selected cache mode |
| `IosSurface.PropertiesCoverEveryPixel` | surfman/src/platform/ios/surface.rs:186-192 | stride × height equals width × height × 4, so the buffer has room for every BGRA pixel |
| `IosSurface.CreateSurface` | surfman/src/platform/ios/surface.rs:92-114 | a generic surface always succeeds; it is fresh, belongs to the creating context, has the requested size and access, uses the buffer allocated from the computed properties, and is not destroyed; widget surfaces are excluded because the source panics on them |
| `IosSurface.DestroySurface` | surfman/src/platform/ios/surface.rs:125-128 | returns Ok and leaves the surface destroyed whatever its previous state (so a second call changes nothing); only `destroyed` may change |
| `IosSurface.DropSurface` | surfman/src/platform/ios/surface.rs:74-80 | dropping panics exactly when the surface was not destroyed and the thread is not already panicking |
| `IosSurface.Id` | surfman/src/platform/ios/surface.rs:248-250 | a surface's id is the identity of its native buffer |
| `IosSurface.SurfaceInfoOf` | surfman/src/platform/ios/surface.rs:209-216 | the info reports the surface's size, id and creating context, and framebuffer object 0 |
| `IosSurface.Present` | surfman/src/platform/ios/surface.rs:252-254 | presenting always succeeds |
| `IosSurface.PresentSurface` | surfman/src/platform/ios/surface.rs:150-152 | returns Ok and modifies nothing, so size and every other field stay as they were |
| `IosSurface.ResizeSurface` | surfman/src/platform/ios/surface.rs:155-158 | returns Ok and modifies nothing; the surface keeps the size it was created with |
| `IosSurface.CreateSurfaceTexture` | surfman/src/platform/ios/surface.rs:229-235 | always fails with `UnsupportedOnThisPlatform` and hands back the same surface |
| `IosSurface.DestroySurfaceTexture` | surfman/src/platform/ios/surface.rs:237-243 | always fails with `UnsupportedOnThisPlatform` and hands back the same texture |
| `IosSurface.LockData` | surfman/src/platform/ios/surface.rs:256-279 | `SurfaceDataInaccessible` with no native call when CPU access is not allowed; otherwise one native lock call, then `SurfaceLockFailed` when it does not return `KERN_SUCCESS`, else a fresh unreleased guard on this surface holding exactly one lock |
| `IosSurface.LockSurfaceData` | surfman/src/platform/ios/surface.rs:162-167 | the device-level entry gives the same three outcomes as `LockData` |
| `IosSurface.DropGuard` | surfman/src/platform/ios/surface.rs:296-303 | releasing a guard issues exactly one unlock; the surface then holds no lock and its history stays paired |
| `IosContext.ProbeVersion` | surfman/src/platform/ios/context.rs:57-61 | the probe settles on the highest version from the requested one down to 1 that the native layer accepts, and finds none exactly when no version in that range is accepted |
| `IosContext.EaglCreateContext` | surfman/src/platform/ios/context.rs:54-79 | if no probed version is accepted: `Failed` with the counter unchanged; otherwise a fresh context whose id is the old counter value, whose version is the descriptor's (not the probed one), and whose slot is `None`, with the counter raised by exactly one |
| `IosContext.CreateContextOutcome` | surfman/src/platform/ios/context.rs:122-139 | a major version outside ES1..ES3 fails with `Failed` and keeps the counter; otherwise creation succeeds if and only if some version from the major down to 1 is accepted, taking id `next` and moving the counter to `next + 1` |
| `IosContext.CreateContext` | surfman/src/platform/ios/context.rs:122-139 | the counter and the result follow `CreateContextOutcome`; a created context is fresh, keeps the descriptor's version and has nothing bound |
| `IosContext.CreateContextDescriptor` | surfman/src/platform/ios/context.rs:141-149 | never fails; the descriptor carries the requested version, and reading its attributes back gives the original attributes |
| `IosContext.CreateContextFromNativeContext` | surfman/src/platform/ios/context.rs:152-163 | always `Failed`, and the id counter is untouched |
| `IosContext.DestroyContext` | surfman/src/platform/ios/context.rs:166-169 | returns Ok and modifies nothing, so the context and any bound surface stay as they were |
| `IosContext.ContextDescriptorOf` | surfman/src/platform/ios/context.rs:172-177 | the descriptor has the context's GL version and zeroed attributes |
| `IosContext.EaglMakeCurrent` | surfman/src/platform/ios/context.rs:80-90 | Ok if and only if the native switch returned YES, otherwise `Failed` |
| `IosContext.EaglMakeNoContextCurrent` | surfman/src/platform/ios/context.rs:92-103 | Ok if and only if the native clear returned YES, otherwise `Failed` |
| `IosContext.MakeContextCurrent` | surfman/src/platform/ios/context.rs:179-182 | Ok whatever the native switch answered |
| `IosContext.MakeNoContextCurrent` | surfman/src/platform/ios/context.rs:184-187 | Ok whatever the native clear answered, so it is safe to call when nothing is current |
| `IosContext.Bind` | surfman/src/platform/ios/context.rs:196-213 | binding succeeds if and only if the slot is empty and the ids match, and the slot then holds the new surface. Every failure hands the same surface back and leaves the slot unchanged. `External` gives `ExternalRenderTarget`; an occupied slot gives `SurfaceAlreadyBound`, even when the ids also differ; a mismatch on an empty slot gives `IncompatibleSurface` |
| `IosContext.BindSurfaceToContext` | surfman/src/platform/ios/context.rs:196-213 | the new slot and the result are those of `Bind` on the old slot; only `framebuffer` may change |
| `IosContext.Unbind` | surfman/src/platform/ios/context.rs:215-229 | `External` is refused with `ExternalRenderTarget` and kept; otherwise the slot becomes `None`, returning `Ok(None)` exactly for an empty slot and `Ok(Some(s))` for a slot holding `s` |
| `IosContext.UnbindSurfaceFromContext` | surfman/src/platform/ios/context.rs:215-229 | the new slot and the result are those of `Unbind` on the old slot; only `framebuffer` may change |
| `IosContext.ContextSurfaceInfo` | surfman/src/platform/ios/context.rs:247-253 | mirrors the slot: `Ok(None)` exactly for `None`, `ExternalRenderTarget` exactly for `External`, and the bound surface's info for `Surface(s)` |
| `IosContext.DropContext` | surfman/src/platform/ios/context.rs:46-50 | dropping a context panics exactly when a surface that was never destroyed is still bound and the thread is not already panicking |
| `Lifecycle.CreatedIdsIncrease` | surfman/src/platform/ios/context.rs:68-77 | across any series of create calls, the ids handed out strictly increase and lie between the first and last counter values, and the counter advances by exactly one per created context |
| `Lifecycle.CreatedIdsDistinct` | surfman/src/platform/ios/context.rs:235-242 | two contexts created in one series never share an id |
| `Lifecycle.RejectedVersionLeavesCounter` | surfman/src/platform/ios/context.rs:127-138 | a request outside ES1..ES3 creates nothing and leaves the counter where it was, whatever the native layer would answer |
| `Lifecycle.DescriptorAttributesCannotRecreate` | surfman/src/platform/ios/context.rs:172-194 | attributes read back from a context's descriptor carry version 0.0, and a context requested with them is never created |
| `Lifecycle.BindThenUnbind` | surfman/src/platform/ios/context.rs:196-228 | binding a matching surface to an empty slot and then unbinding returns the very same surface and leaves the slot `None` |
| `Lifecycle.UnbindThenBind` | surfman/src/platform/ios/context.rs:207-227 | unbinding a bound surface and binding it again restores the original slot |
| `Lifecycle.DoubleBindKeepsFirst` | surfman/src/platform/ios/context.rs:201-205 | a second bind fails with `SurfaceAlreadyBound` and hands the second surface back; the first binding stays |
| `Lifecycle.ForeignSurfaceNeverBinds` | surfman/src/platform/ios/context.rs:201-209 | a surface made for another context never binds; the slot is unchanged and the surface comes back, and the error is `IncompatibleSurface` exactly when the slot was empty |
| `Lifecycle.SurfaceInfoAfterBind` | surfman/src/platform/ios/context.rs:247-253 | after a successful bind, the context reports the bound surface's info, whose context id is the context's own |
| `Lifecycle.StepConserves` | surfman/src/platform/ios/context.rs:196-228 | a single bind or unbind neither loses nor invents a surface |
| `Lifecycle.NoSurfaceDropped` | surfman/src/platform/ios/context.rs:196-228 | over any series of binds and unbinds, the surfaces handed in plus the one bound at the start equal, as a multiset, the surfaces handed back plus the one bound at the end |
| `Lifecycle.SlotInvariant` | surfman/src/platform/ios/context.rs:196-228 | over any series of binds and unbinds, a bound surface always belongs to the context, and `External` is neither installed nor removed |
| `Lifecycle.DestroyedSurfaceDropsCleanly` | surfman/src/platform/ios/surface.rs:74-80 | a destroyed surface is released without a panic, and so is a context whose bound surface was destroyed |
| `Lifecycle.NoDoubleUnlock` | surfman/src/platform/ios/surface.rs:256-303 | in a paired lock history, between any two unlocks there is a successful lock: each unlock matches a lock of its own |
| `Lifecycle.PairedCounts` | surfman/src/platform/ios/surface.rs:256-303 | in a paired history, the unlocks never outnumber the successful locks, which exceed them by at most one |

`IosContext.ContextId` (context.rs:240-242) and
`IosContext.ContextDescriptorAttributes` (context.rs:189-194) are plain
accessors without a contract of their own. Their properties are stated by
`CreatedIdsDistinct`, `CreateContextDescriptor` and
`DescriptorAttributesCannotRecreate`.

## Left out

- Objective-C messaging is not modelled: the `EAGLContext` class lookup,
  `alloc`, `release` in `Drop for Context`, and the `eagl_context` handle.
  Only the answers of `initWithAPI:` and `setCurrentContext:` are kept, as
  parameters. Each probe is treated as independent of the earlier ones on
  the same allocated object.
- `get_proc_address` and the thread-local OpenGL ES framework bundle are
  foreign calls that return raw pointers.
- `native_context` and `native_surface` are handle plumbing (the second one
  adjusts a reference count through `mem::forget`).
- `set_surface_flipped` is an empty no-op.
- `surface_gl_texture_target` and `surface_texture_object` return a GL
  constant and a field that no path of this backend can fill.
- Building the IOSurface property dictionary, `io_surface::new`, and
  `IOSurfaceGetBaseAddress`/`AllocSize`/`BytesPerRow` are not modelled. Only
  the computed properties and the allocator's returned handle are kept.
- The guard's `stride()` and `data()` (a raw pointer and slice) are not
  modelled.
- The mutex around the context-id counter and its initial value are not
  modelled. The model is single-threaded, and the counter's first value is a
  constructor argument.
- `IosContext.CreateContext`: the u64 counter is unbounded here, so
  wrap-around after 2^64 contexts is not modelled.
- `IosSurface.CreateIOSurfaceProperties`: requires the i32 stride
  `width * 4` not to overflow. That is where a debug build panics; a
  release build would wrap instead, and that case is not modelled.
- Rust ownership is only partly modelled:
  - Dafny keeps the caller's reference to a surface after a bind moves it
    into the slot.
  - The guard's mutable borrow appears only as `LockData`'s precondition
    that no lock is held. Other calls on a locked surface are not excluded.
- Logging and `Debug` formatting.
- Platform selection in platform/mod.rs and the module list in
  platform/ios/mod.rs carry no behaviour.
