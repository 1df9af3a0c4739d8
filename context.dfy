/** Context lifecycle of the iOS backend (context.rs): creation with a
    downward version probe and a shared id counter, descriptors, the
    current-context calls, and the binding state machine of a context's
    framebuffer slot. */
module IosContext {
  import opened Types
  import opened Entities
  import opened IosSurface

  /** `kEAGLRenderingAPIOpenGLES1` .. `kEAGLRenderingAPIOpenGLES3`. */
  const ES1: nat := 1
  const ES2: nat := 2
  const ES3: nat := 3

  /** The version the probe of `Context::create_context` settles on, where
      `initWithApi(v)` says whether the native `initWithAPI:` call returns a
      context for API `v`: the highest accepted version from `version` down
      to 1, or none. */
  function ProbeVersion(version: nat, initWithApi: nat -> bool): (r: Option<nat>)
    ensures r.Some? ==> 0 < r.value <= version && initWithApi(r.value)
    ensures r.Some? ==> forall v :: r.value < v <= version ==> !initWithApi(v)
    ensures r.None? <==> forall v :: 0 < v <= version ==> !initWithApi(v)
    decreases version
  {
    if version == 0 then Option.None
    else if initWithApi(version) then Some(version)
    else ProbeVersion(version - 1, initWithApi)
  }

  /** `Context::create_context`: probes `version`, `version - 1`, ... until
      the native call accepts one; on success the context takes the counter's
      value as its id and the counter moves on by one. */
  method EaglCreateContext(version: nat, descriptor: ContextDescriptor, counter: ContextIdCounter,
                           initWithApi: nat -> bool)
    returns (r: Result<Context, Error>)
    modifies counter
    ensures ProbeVersion(version, initWithApi).None? ==>
              r == Err(Failed) && counter.next == old(counter.next)
    ensures ProbeVersion(version, initWithApi).Some? ==>
              r.Ok? && fresh(r.value) && r.value.id == old(counter.next) &&
              r.value.glVersion == descriptor.glVersion && r.value.framebuffer == Framebuffer.None &&
              counter.next == old(counter.next) + 1
  {
    var v: nat := version;
    var valid := false;
    while !valid && v > 0
      invariant v <= version
      invariant !valid ==> ProbeVersion(version, initWithApi) == ProbeVersion(v, initWithApi)
      invariant valid ==> ProbeVersion(version, initWithApi) == Some(v + 1)
      decreases v
    {
      valid := initWithApi(v);
      v := v - 1;
    }
    if !valid {
      return Err(Failed);
    }
    var ctx := new Context(counter.next, descriptor.glVersion);
    counter.next := counter.next + 1;
    r := Ok(ctx);
  }

  /** The effect of `Device::create_context` on the id counter: the id it
      hands out (or the error) and the counter's next value. */
  datatype CreateOutcome = CreateOutcome(result: Result<ContextID, Error>, next: ContextID)

  /** `Device::create_context` seen through the counter: only major versions
      ES1..ES3 are tried; a success takes the id `next` and bumps the counter. */
  function CreateContextOutcome(descriptor: ContextDescriptor, next: ContextID, initWithApi: nat -> bool)
    : (o: CreateOutcome)
    ensures !(ES1 <= descriptor.glVersion.major <= ES3) ==> o == CreateOutcome(Err(Failed), next)
    ensures o.result.Ok? <==>
              ES1 <= descriptor.glVersion.major <= ES3 &&
              exists v :: 0 < v <= descriptor.glVersion.major && initWithApi(v)
    ensures o.result.Ok? ==> o.result.value == next && o.next == next + 1
    ensures o.result.Err? ==> o.result.error == Failed && o.next == next
  {
    var major := descriptor.glVersion.major;
    if ES1 <= major <= ES3 && ProbeVersion(major, initWithApi).Some? then
      CreateOutcome(Ok(next), next + 1)
    else
      CreateOutcome(Err(Failed), next)
  }

  /** `Device::create_context`. `counter` is the process-wide id counter;
      `shareWith` is ignored by this backend. */
  method CreateContext(counter: ContextIdCounter, descriptor: ContextDescriptor, shareWith: Option<Context>,
                       initWithApi: nat -> bool)
    returns (r: Result<Context, Error>)
    modifies counter
    ensures var o := CreateContextOutcome(descriptor, old(counter.next), initWithApi);
            counter.next == o.next && r.Ok? == o.result.Ok? &&
            (r.Ok? ==> fresh(r.value) && r.value.id == o.result.value &&
                       r.value.glVersion == descriptor.glVersion && r.value.framebuffer == Framebuffer.None) &&
            (r.Err? ==> r.error == o.result.error)
  {
    var version: nat := descriptor.glVersion.major;
    if ES1 <= version <= ES3 {
      r := EaglCreateContext(version, descriptor, counter, initWithApi);
    } else {
      r := Err(Failed);
    }
  }

  /** `Device::context_descriptor_attributes`. */
  function ContextDescriptorAttributes(descriptor: ContextDescriptor): ContextAttributes
  {
    descriptor.attribs
  }

  /** `Device::create_context_descriptor`: never fails; the descriptor
      carries the requested version and gives the attributes back unchanged. */
  function CreateContextDescriptor(attributes: ContextAttributes): (r: Result<ContextDescriptor, Error>)
    ensures r.Ok? && r.value.glVersion == attributes.version
    ensures ContextDescriptorAttributes(r.value) == attributes
  {
    Ok(ContextDescriptor(attributes.version, attributes))
  }

  /** `Device::create_context_from_native_context`: the native context is
      ignored and a context is requested with zeroed attributes, whose major
      version 0 lies outside ES1..ES3, so the call always fails. */
  method CreateContextFromNativeContext(counter: ContextIdCounter, nativeContext: NativeContext,
                                        initWithApi: nat -> bool)
    returns (r: Result<Context, Error>)
    modifies counter
    ensures r == Err(Failed) && counter.next == old(counter.next)
  {
    var attribs := ZeroedAttributes();
    var descriptor := ContextDescriptor(attribs.version, attribs);
    r := CreateContext(counter, descriptor, Option.None, initWithApi);
  }

  /** `Device::destroy_context`: drops only the reference it was given, so it
      succeeds and leaves the context, and any surface bound to it, as they were. */
  method DestroyContext(context: Context) returns (r: Result<(), Error>)
    ensures r == Ok(())
  {
    r := Ok(());
  }

  /** `Device::context_descriptor`: the context's GL version with zeroed
      attributes. */
  function ContextDescriptorOf(context: Context): (d: ContextDescriptor)
    ensures d.glVersion == context.glVersion && d.attribs == ZeroedAttributes()
  {
    ContextDescriptor(context.glVersion, ZeroedAttributes())
  }

  /** `Context::make_current`: `setCurrentResult` is whether the native
      `setCurrentContext:` returned YES. */
  function EaglMakeCurrent(context: Context, setCurrentResult: bool): (r: Result<(), Error>)
    ensures r.Ok? <==> setCurrentResult
    ensures r.Err? ==> r.error == Failed
  {
    if setCurrentResult then Ok(()) else Err(Failed)
  }

  /** `Context::make_no_context_current`, with the native result as above. */
  function EaglMakeNoContextCurrent(setCurrentResult: bool): (r: Result<(), Error>)
    ensures r.Ok? <==> setCurrentResult
    ensures r.Err? ==> r.error == Failed
  {
    if setCurrentResult then Ok(()) else Err(Failed)
  }

  /** `Device::make_context_current`: the result of `EaglMakeCurrent` is
      discarded, so the call succeeds whatever the native answer. */
  function MakeContextCurrent(context: Context, setCurrentResult: bool): (r: Result<(), Error>)
    ensures r == Ok(())
  {
    var discarded := EaglMakeCurrent(context, setCurrentResult);
    Ok(())
  }

  /** `Device::make_no_context_current`: likewise always succeeds. */
  function MakeNoContextCurrent(setCurrentResult: bool): (r: Result<(), Error>)
    ensures r == Ok(())
  {
    var discarded := EaglMakeNoContextCurrent(setCurrentResult);
    Ok(())
  }

  /** The slot after a bind attempt and what the call returns. */
  datatype BindOutcome = BindOutcome(framebuffer: Framebuffer<Surface, ()>, result: Result<(), (Error, Surface)>)

  /** The bind transition: an occupied slot is checked first (external, then
      surface), then the surface's context id. Every failure hands the
      surface back and leaves the slot alone. */
  function Bind(framebuffer: Framebuffer<Surface, ()>, contextId: ContextID, newSurface: Surface): (o: BindOutcome)
    ensures o.result.Ok? <==> framebuffer.None? && newSurface.contextId == contextId
    ensures o.result.Ok? ==> o.framebuffer == Framebuffer.Surface(newSurface)
    ensures o.result.Err? ==> o.result.error.1 == newSurface && o.framebuffer == framebuffer
    ensures framebuffer.External? ==> o.result.Err? && o.result.error.0 == ExternalRenderTarget
    ensures framebuffer.Surface? ==> o.result.Err? && o.result.error.0 == SurfaceAlreadyBound
    ensures framebuffer.None? && newSurface.contextId != contextId ==>
              o.result.Err? && o.result.error.0 == IncompatibleSurface
  {
    match framebuffer
    case External(_) => BindOutcome(framebuffer, Err((ExternalRenderTarget, newSurface)))
    case Surface(_) => BindOutcome(framebuffer, Err((SurfaceAlreadyBound, newSurface)))
    case None =>
      if newSurface.contextId != contextId then BindOutcome(framebuffer, Err((IncompatibleSurface, newSurface)))
      else BindOutcome(Framebuffer.Surface(newSurface), Ok(()))
  }

  /** `Device::bind_surface_to_context`. */
  method BindSurfaceToContext(context: Context, newSurface: Surface) returns (r: Result<(), (Error, Surface)>)
    modifies context`framebuffer
    ensures var o := Bind(old(context.framebuffer), context.id, newSurface);
            context.framebuffer == o.framebuffer && r == o.result
  {
    match context.framebuffer {
      case External(_) => return Err((ExternalRenderTarget, newSurface));
      case Surface(_) => return Err((SurfaceAlreadyBound, newSurface));
      case None =>
    }
    if newSurface.contextId != context.id {
      return Err((IncompatibleSurface, newSurface));
    }
    context.framebuffer := Framebuffer.Surface(newSurface);
    r := Ok(());
  }

  /** The slot after an unbind attempt and what the call returns. */
  datatype UnbindOutcome = UnbindOutcome(framebuffer: Framebuffer<Surface, ()>, result: Result<Option<Surface>, Error>)

  /** The unbind transition: an external target is refused and kept;
      otherwise the slot is emptied and its surface, if any, handed back. */
  function Unbind(framebuffer: Framebuffer<Surface, ()>): (o: UnbindOutcome)
    ensures o.result.Err? <==> framebuffer.External?
    ensures o.result.Err? ==> o.result.error == ExternalRenderTarget && o.framebuffer == framebuffer
    ensures o.result.Ok? ==> o.framebuffer == Framebuffer.None
    ensures o.result == Ok(Option.None) <==> framebuffer.None?
    ensures framebuffer.Surface? ==> o.result == Ok(Some(framebuffer.surface))
  {
    match framebuffer
    case External(_) => UnbindOutcome(framebuffer, Err(ExternalRenderTarget))
    case None => UnbindOutcome(Framebuffer.None, Ok(Option.None))
    case Surface(surface) => UnbindOutcome(Framebuffer.None, Ok(Some(surface)))
  }

  /** `Device::unbind_surface_from_context`. */
  method UnbindSurfaceFromContext(context: Context) returns (r: Result<Option<Surface>, Error>)
    modifies context`framebuffer
    ensures var o := Unbind(old(context.framebuffer));
            context.framebuffer == o.framebuffer && r == o.result
  {
    if context.framebuffer.External? {
      return Err(ExternalRenderTarget);
    }
    var previous := context.framebuffer;
    context.framebuffer := Framebuffer.None;
    match previous {
      case None => r := Ok(Option.None);
      case Surface(surface) => r := Ok(Some(surface));
    }
  }

  /** `Device::context_id`. */
  function ContextId(context: Context): ContextID
  {
    context.id
  }

  /** `Device::context_surface_info`: mirrors the slot. */
  function ContextSurfaceInfo(context: Context): (r: Result<Option<SurfaceInfo>, Error>)
    reads context
    ensures r.Err? <==> context.framebuffer.External?
    ensures r.Err? ==> r.error == ExternalRenderTarget
    ensures r == Ok(Option.None) <==> context.framebuffer.None?
    ensures context.framebuffer.Surface? ==> r == Ok(Some(SurfaceInfoOf(context.framebuffer.surface)))
  {
    match context.framebuffer
    case None => Ok(Option.None)
    case External(_) => Err(ExternalRenderTarget)
    case Surface(surface) => Ok(Some(SurfaceInfoOf(surface)))
  }

  /** Dropping a context drops the surface still bound to it, so it panics
      exactly when that surface was never destroyed (and the thread is not
      already panicking). */
  function DropContext(context: Context, panicking: bool): (o: DropOutcome)
    reads context, if context.framebuffer.Surface? then {context.framebuffer.surface} else {}
    ensures o == Panics <==>
              context.framebuffer.Surface? && !context.framebuffer.surface.destroyed && !panicking
  {
    match context.framebuffer
    case Surface(surface) => DropSurface(surface, panicking)
    case _ => Released
  }
}
