/** Plain values shared by the iOS backend: identifiers, versions, attributes,
    sizes, access modes, the error taxonomy and the framebuffer slot. */
module Types {

  /** `u8`, the width of a GL version component. */
  type U8 = x: int | 0 <= x < 0x100

  /** `i32`, the width of a surface dimension (`Size2D<i32>`). */
  type I32 = x: int | -0x8000_0000 <= x < 0x8000_0000

  predicate InI32(x: int) { -0x8000_0000 <= x < 0x8000_0000 }

  /** `ContextID(u64)`; the counter is unbounded here (overflow is not modelled). */
  type ContextID = nat

  /** `SurfaceID(usize)`, the address of the native IOSurface handle. */
  type SurfaceID = nat

  /** The address of a native `IOSurfaceRef`. */
  type IOSurfaceRef = nat

  /** `kern_return_t` as returned by the native IOSurface lock. */
  type KernReturn = int

  const KERN_SUCCESS: KernReturn := 0

  datatype Option<T> = None | Some(value: T)

  datatype Result<T, E> = Ok(value: T) | Err(error: E)

  /** The error kinds this backend reports. */
  datatype Error =
    | Failed
    | UnsupportedOnThisPlatform
    | ExternalRenderTarget
    | SurfaceAlreadyBound
    | IncompatibleSurface
    | SurfaceDataInaccessible
    | SurfaceLockFailed

  datatype GLVersion = GLVersion(major: U8, minor: U8)

  /** Requested context attributes; the flag bit set is kept as a number. */
  datatype ContextAttributes = ContextAttributes(version: GLVersion, flags: nat)

  /** `ContextAttributes::zeroed()`: version 0.0 and no flags. */
  function ZeroedAttributes(): (a: ContextAttributes)
    ensures a.version.major == 0 && a.version.minor == 0 && a.flags == 0
  {
    ContextAttributes(GLVersion(0, 0), 0)
  }

  datatype ContextDescriptor = ContextDescriptor(glVersion: GLVersion, attribs: ContextAttributes)

  datatype Size2D = Size2D(width: I32, height: I32)

  /** Whether the CPU may map the surface, and how the GPU caches it. */
  datatype SurfaceAccess = GPUOnly | GPUCPU | GPUCPUWriteCombined

  /** The native widget type of this backend carries nothing. */
  datatype NativeWidget = NativeWidget

  datatype SurfaceType = Generic(size: Size2D) | Widget(nativeWidget: NativeWidget)

  datatype SurfaceInfo = SurfaceInfo(size: Size2D, id: SurfaceID, contextId: ContextID, framebufferObject: nat)

  /** The render target attached to a context: nothing, a surface this system
      owns, or a target created elsewhere that it cannot manage. */
  datatype Framebuffer<S, E> = None | Surface(surface: S) | External(external: E)
}
