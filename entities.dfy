/** The backend's stateful entities: the `Context` and `Surface` records that
    the device mutates in place, the CPU data guard, and the process-wide
    context-id counter. Their behaviour lives in `IosContext` and `IosSurface`. */
module Entities {
  import opened Types

  /** One native call on a surface's IOSurface lock: a lock attempt (and
      whether it returned `KERN_SUCCESS`) or an unlock. */
  datatype LockCall = Lock(succeeded: bool) | Unlock

  /** Native locks held after the calls in `calls`: each successful lock adds
      one, each unlock removes one, a failed lock changes nothing. */
  function Outstanding(calls: seq<LockCall>): int
  {
    if calls == [] then 0
    else
      var last := calls[|calls| - 1];
      Outstanding(calls[..|calls| - 1]) + (if last == Lock(true) then 1 else if last == Unlock then -1 else 0)
  }

  /** Locks and unlocks alternate: at every point of the history at most one
      lock is held and no unlock came without a lock. */
  predicate Paired(calls: seq<LockCall>)
  {
    forall k :: 0 <= k <= |calls| ==> 0 <= Outstanding(calls[..k]) <= 1
  }

  lemma OutstandingAppend(calls: seq<LockCall>, c: LockCall)
    ensures Outstanding(calls + [c]) ==
            Outstanding(calls) + (if c == Lock(true) then 1 else if c == Unlock then -1 else 0)
  {
    assert (calls + [c])[..|calls|] == calls;
  }

  /** Appending one call keeps the history paired when the count it reaches
      stays in 0..1. */
  lemma PairedAppend(calls: seq<LockCall>, c: LockCall)
    requires Paired(calls)
    requires 0 <= Outstanding(calls + [c]) <= 1
    ensures Paired(calls + [c])
  {
    var s := calls + [c];
    forall k | 0 <= k <= |s|
      ensures 0 <= Outstanding(s[..k]) <= 1
    {
      if k <= |calls| {
        assert s[..k] == calls[..k];
      } else {
        assert s[..k] == s;
      }
    }
  }

  /** `Surface` (surface.rs): the id of the context it was made for, the
      native buffer, its size and access mode, and the `destroyed` flag.
      `ioSurfaceCalls` records the native lock/unlock calls issued on the
      buffer. */
  class Surface {
    const contextId: ContextID
    const ioSurface: IOSurfaceRef
    const size: Size2D
    const access: SurfaceAccess
    var destroyed: bool
    var ioSurfaceCalls: seq<LockCall>

    constructor (contextId: ContextID, ioSurface: IOSurfaceRef, size: Size2D, access: SurfaceAccess)
      ensures this.contextId == contextId && this.ioSurface == ioSurface
      ensures this.size == size && this.access == access
      ensures !destroyed && ioSurfaceCalls == []
    {
      this.contextId := contextId;
      this.ioSurface := ioSurface;
      this.size := size;
      this.access := access;
      destroyed := false;
      ioSurfaceCalls := [];
    }
  }

  /** `SurfaceDataGuard`: the CPU view of a locked surface. `released` is set
      by its drop, which Rust runs exactly once. */
  class SurfaceDataGuard {
    const surface: Surface
    var released: bool

    constructor (surface: Surface)
      ensures this.surface == surface && !released
    {
      this.surface := surface;
      released := false;
    }
  }

  /** `SurfaceTexture`: a surface wrapped as a GL texture object. */
  datatype SurfaceTexture = SurfaceTexture(surface: Surface, textureObject: nat)

  /** `Context` (context.rs): its id, the GL version it was requested with,
      and the render target bound to it. */
  class Context {
    const id: ContextID
    const glVersion: GLVersion
    var framebuffer: Framebuffer<Surface, ()>

    constructor (id: ContextID, glVersion: GLVersion)
      ensures this.id == id && this.glVersion == glVersion
      ensures framebuffer == Framebuffer.None
    {
      this.id := id;
      this.glVersion := glVersion;
      framebuffer := Framebuffer.None;
    }
  }

  /** `NativeContext` carries nothing on this backend. */
  datatype NativeContext = NativeContext

  /** The value behind `CREATE_CONTEXT_MUTEX`: the next context id. */
  class ContextIdCounter {
    var next: ContextID

    constructor (first: ContextID)
      ensures next == first
    {
      next := first;
    }
  }
}
