/** Surface lifecycle of the iOS backend (surface.rs): creation, the
    parameters of the native buffer, destruction and the must-destroy rule,
    CPU locking through a guard, and the operations this backend does not
    support. */
module IosSurface {
  import opened Types
  import opened Entities

  const BYTES_PER_PIXEL: int := 4

  /** `kCVPixelFormatType_32BGRA`, the four characters 'BGRA'. */
  const PIXEL_FORMAT_32BGRA: nat := 0x4247_5241

  /** The IOSurface cache mode requested at allocation. */
  datatype CacheMode = DefaultCache | WriteCombineCache

  /** The properties handed to the native IOSurface allocator. */
  datatype IOSurfaceProperties = IOSurfaceProperties(
    width: I32,
    height: I32,
    bytesPerElement: int,
    bytesPerRow: I32,
    pixelFormat: nat,
    cacheMode: CacheMode)

  /** Cache mode chosen from the access mode: write-combined exactly for
      `GPUCPUWriteCombined`. */
  function CacheModeFor(access: SurfaceAccess): (mode: CacheMode)
    ensures mode == WriteCombineCache <==> access == GPUCPUWriteCombined
    ensures mode == DefaultCache <==> access != GPUCPUWriteCombined
  {
    match access
    case GPUCPUWriteCombined => WriteCombineCache
    case GPUOnly | GPUCPU => DefaultCache
  }

  /** The computed part of `create_io_surface`. The row stride is an `i32`
      product; a width whose stride does not fit panics (overflow check). */
  function CreateIOSurfaceProperties(size: Size2D, access: SurfaceAccess): (p: IOSurfaceProperties)
    requires InI32(size.width * BYTES_PER_PIXEL)
    ensures p.width == size.width && p.height == size.height
    ensures p.bytesPerElement == 4 && p.bytesPerRow == p.width * p.bytesPerElement
    ensures p.pixelFormat == PIXEL_FORMAT_32BGRA
    ensures p.cacheMode == WriteCombineCache <==> access == GPUCPUWriteCombined
  {
    IOSurfaceProperties(size.width, size.height, BYTES_PER_PIXEL, size.width * BYTES_PER_PIXEL,
                        PIXEL_FORMAT_32BGRA, CacheModeFor(access))
  }

  /** The buffer described by the properties holds `height` rows of
      `bytesPerRow` bytes, i.e. four bytes for every pixel. */
  lemma PropertiesCoverEveryPixel(size: Size2D, access: SurfaceAccess)
    requires InI32(size.width * BYTES_PER_PIXEL)
    ensures var p := CreateIOSurfaceProperties(size, access);
            p.bytesPerRow * p.height == size.width * size.height * 4
  {
  }

  /** `Device::create_surface`. A widget surface makes the source panic, so
      only generic surfaces may be requested. `ioSurfaceNew` stands for the
      native allocator. */
  method CreateSurface(context: Context, access: SurfaceAccess, surfaceType: SurfaceType,
                       ioSurfaceNew: IOSurfaceProperties -> IOSurfaceRef)
    returns (r: Result<Surface, Error>)
    requires surfaceType.Generic?
    requires InI32(surfaceType.size.width * BYTES_PER_PIXEL)
    ensures r.Ok? && fresh(r.value)
    ensures r.value.contextId == context.id
    ensures r.value.size == surfaceType.size && r.value.access == access
    ensures r.value.ioSurface == ioSurfaceNew(CreateIOSurfaceProperties(surfaceType.size, access))
    ensures !r.value.destroyed && r.value.ioSurfaceCalls == []
  {
    var size := surfaceType.size;
    var ioSurface := ioSurfaceNew(CreateIOSurfaceProperties(size, access));
    var surface := new Surface(context.id, ioSurface, size, access);
    r := Ok(surface);
  }

  /** `Device::destroy_surface`: marks the surface destroyed, whatever it was
      before, and touches nothing else. */
  method DestroySurface(context: Context, surface: Surface) returns (r: Result<(), Error>)
    modifies surface`destroyed
    ensures r == Ok(()) && surface.destroyed
  {
    surface.destroyed := true;
    r := Ok(());
  }

  /** What dropping a value ends in. */
  datatype DropOutcome = Released | Panics

  /** `Drop for Surface`: dropping a surface that was not destroyed panics,
      unless the thread is already unwinding from another panic. */
  function DropSurface(surface: Surface, panicking: bool): (o: DropOutcome)
    reads surface
    ensures o == Panics <==> !surface.destroyed && !panicking
  {
    if !surface.destroyed && !panicking then Panics else Released
  }

  /** `Surface::id`: the address of the native buffer. */
  function Id(surface: Surface): (id: SurfaceID)
    ensures id == surface.ioSurface
  {
    surface.ioSurface
  }

  /** `Device::surface_info`: size, id and owning context, and no GL
      framebuffer object. */
  function SurfaceInfoOf(surface: Surface): (info: SurfaceInfo)
    ensures info.size == surface.size && info.id == Id(surface)
    ensures info.contextId == surface.contextId && info.framebufferObject == 0
  {
    SurfaceInfo(surface.size, Id(surface), surface.contextId, 0)
  }

  /** `Surface::present`: nothing to publish on this backend. */
  function Present(surface: Surface): (r: Result<(), Error>)
    ensures r.Ok?
  {
    Ok(())
  }

  /** `Device::present_surface`: succeeds and changes nothing. */
  method PresentSurface(context: Context, surface: Surface) returns (r: Result<(), Error>)
    ensures r == Ok(())
  {
    r := Present(surface);
  }

  /** `Device::resize_surface`: succeeds and changes nothing; the surface
      keeps the size it was created with. */
  method ResizeSurface(context: Context, surface: Surface, size: Size2D) returns (r: Result<(), Error>)
    ensures r == Ok(())
  {
    r := Ok(());
  }

  /** `Device::create_surface_texture`: unsupported; the surface is handed
      back untouched. */
  function CreateSurfaceTexture(context: Context, surface: Surface): (r: Result<SurfaceTexture, (Error, Surface)>)
    ensures r.Err? && r.error.0 == UnsupportedOnThisPlatform && r.error.1 == surface
  {
    Err((UnsupportedOnThisPlatform, surface))
  }

  /** `Device::destroy_surface_texture`: unsupported; the texture is handed
      back untouched. */
  function DestroySurfaceTexture(context: Context, surfaceTexture: SurfaceTexture): (r: Result<Surface, (Error, SurfaceTexture)>)
    ensures r.Err? && r.error.0 == UnsupportedOnThisPlatform && r.error.1 == surfaceTexture
  {
    Err((UnsupportedOnThisPlatform, surfaceTexture))
  }

  /** `Surface::lock_data`. The access check comes before any native call;
      then the native lock (`lockResult` is what `IOSurfaceLock` returns) is
      attempted. The guard holds the surface mutably borrowed, so no guard of
      this surface is alive when it is called. */
  method LockData(surface: Surface, cpuAccessAllowed: SurfaceAccess -> bool, lockResult: KernReturn)
    returns (r: Result<SurfaceDataGuard, Error>)
    requires Paired(surface.ioSurfaceCalls) && Outstanding(surface.ioSurfaceCalls) == 0
    modifies surface`ioSurfaceCalls
    ensures Paired(surface.ioSurfaceCalls)
    ensures !cpuAccessAllowed(surface.access) ==>
              r == Err(SurfaceDataInaccessible) && surface.ioSurfaceCalls == old(surface.ioSurfaceCalls)
    ensures cpuAccessAllowed(surface.access) && lockResult != KERN_SUCCESS ==>
              r == Err(SurfaceLockFailed) && surface.ioSurfaceCalls == old(surface.ioSurfaceCalls) + [Lock(false)]
    ensures cpuAccessAllowed(surface.access) && lockResult == KERN_SUCCESS ==>
              r.Ok? && fresh(r.value) && r.value.surface == surface && !r.value.released &&
              surface.ioSurfaceCalls == old(surface.ioSurfaceCalls) + [Lock(true)]
    ensures r.Err? ==> Outstanding(surface.ioSurfaceCalls) == 0
    ensures r.Ok? ==> Outstanding(surface.ioSurfaceCalls) == 1
  {
    if !cpuAccessAllowed(surface.access) {
      return Err(SurfaceDataInaccessible);
    }
    var call := Lock(lockResult == KERN_SUCCESS);
    OutstandingAppend(surface.ioSurfaceCalls, call);
    PairedAppend(surface.ioSurfaceCalls, call);
    surface.ioSurfaceCalls := surface.ioSurfaceCalls + [call];
    if lockResult != KERN_SUCCESS {
      return Err(SurfaceLockFailed);
    }
    var guard := new SurfaceDataGuard(surface);
    r := Ok(guard);
  }

  /** `Device::lock_surface_data`: delegates to `LockData`. */
  method LockSurfaceData(surface: Surface, cpuAccessAllowed: SurfaceAccess -> bool, lockResult: KernReturn)
    returns (r: Result<SurfaceDataGuard, Error>)
    requires Paired(surface.ioSurfaceCalls) && Outstanding(surface.ioSurfaceCalls) == 0
    modifies surface`ioSurfaceCalls
    ensures Paired(surface.ioSurfaceCalls)
    ensures !cpuAccessAllowed(surface.access) ==>
              r == Err(SurfaceDataInaccessible) && surface.ioSurfaceCalls == old(surface.ioSurfaceCalls)
    ensures cpuAccessAllowed(surface.access) && lockResult != KERN_SUCCESS ==>
              r == Err(SurfaceLockFailed) && surface.ioSurfaceCalls == old(surface.ioSurfaceCalls) + [Lock(false)]
    ensures cpuAccessAllowed(surface.access) && lockResult == KERN_SUCCESS ==>
              r.Ok? && fresh(r.value) && r.value.surface == surface && !r.value.released &&
              surface.ioSurfaceCalls == old(surface.ioSurfaceCalls) + [Lock(true)]
    ensures r.Ok? ==> Outstanding(surface.ioSurfaceCalls) == 1
  {
    r := LockData(surface, cpuAccessAllowed, lockResult);
  }

  /** `Drop for SurfaceDataGuard`: issues exactly one native unlock, which
      returns the surface to holding no lock. */
  method DropGuard(guard: SurfaceDataGuard)
    requires !guard.released
    requires Paired(guard.surface.ioSurfaceCalls) && Outstanding(guard.surface.ioSurfaceCalls) == 1
    modifies guard`released, guard.surface`ioSurfaceCalls
    ensures guard.released
    ensures guard.surface.ioSurfaceCalls == old(guard.surface.ioSurfaceCalls) + [Unlock]
    ensures Paired(guard.surface.ioSurfaceCalls) && Outstanding(guard.surface.ioSurfaceCalls) == 0
  {
    var surface := guard.surface;
    OutstandingAppend(surface.ioSurfaceCalls, Unlock);
    PairedAppend(surface.ioSurfaceCalls, Unlock);
    surface.ioSurfaceCalls := surface.ioSurfaceCalls + [Unlock];
    guard.released := true;
  }
}
