/** Properties that span several calls: the id counter across a series of
    context creations, the binding slot across a series of binds and unbinds,
    and the pairing of native locks and unlocks on a surface. */
module Lifecycle {
  import opened Types
  import opened Entities
  import opened IosSurface
  import opened IosContext

  /* ---------------- context ids ---------------- */

  /** One call of `Device::create_context`: the descriptor and how the native
      layer answers `initWithAPI:` at that moment. */
  datatype CreateRequest = CreateRequest(descriptor: ContextDescriptor, initWithApi: nat -> bool)

  /** Runs the requests in order from counter value `next`; yields the ids of
      the contexts that were created and the counter's final value. */
  function CreateAll(next: ContextID, requests: seq<CreateRequest>): (ContextIDs: (seq<ContextID>, ContextID))
    decreases |requests|
  {
    if requests == [] then ([], next)
    else
      var o := CreateContextOutcome(requests[0].descriptor, next, requests[0].initWithApi);
      var rest := CreateAll(o.next, requests[1..]);
      if o.result.Ok? then ([o.result.value] + rest.0, rest.1) else rest
  }

  /** Ids handed out by successive successful creations strictly increase,
      lie between the initial and final counter values, and the counter moves
      on by exactly one per created context. Hence contexts created in one
      process never share an id. */
  lemma {:induction false} CreatedIdsIncrease(next: ContextID, requests: seq<CreateRequest>)
    ensures var (ids, last) := CreateAll(next, requests);
            last == next + |ids| &&
            (forall i :: 0 <= i < |ids| ==> next <= ids[i] < last) &&
            (forall i, j :: 0 <= i < j < |ids| ==> ids[i] < ids[j])
    decreases |requests|
  {
    if requests != [] {
      var o := CreateContextOutcome(requests[0].descriptor, next, requests[0].initWithApi);
      CreatedIdsIncrease(o.next, requests[1..]);
    }
  }

  /** Two contexts from one run of creations carry different ids. */
  lemma CreatedIdsDistinct(next: ContextID, requests: seq<CreateRequest>, i: nat, j: nat)
    requires i < |CreateAll(next, requests).0| && j < |CreateAll(next, requests).0| && i != j
    ensures CreateAll(next, requests).0[i] != CreateAll(next, requests).0[j]
  {
    CreatedIdsIncrease(next, requests);
  }

  /** A request whose major version is outside ES1..ES3 creates nothing and
      leaves the counter alone, whatever the native layer would answer. */
  lemma RejectedVersionLeavesCounter(next: ContextID, descriptor: ContextDescriptor, initWithApi: nat -> bool)
    requires descriptor.glVersion.major < ES1 || ES3 < descriptor.glVersion.major
    ensures CreateAll(next, [CreateRequest(descriptor, initWithApi)]) == ([], next)
  {
  }

  /** Attributes read back from a context's descriptor carry version 0.0, so
      a context requested with them is never created. */
  lemma DescriptorAttributesCannotRecreate(context: Context, next: ContextID, initWithApi: nat -> bool)
    ensures var attributes := ContextDescriptorAttributes(ContextDescriptorOf(context));
            attributes.version == GLVersion(0, 0) &&
            CreateContextOutcome(CreateContextDescriptor(attributes).value, next, initWithApi)
              == CreateOutcome(Err(Failed), next)
  {
  }

  /* ---------------- binding ---------------- */

  /** Bind then unbind on an empty slot returns the very surface and empties
      the slot again. */
  lemma BindThenUnbind(contextId: ContextID, surface: Surface)
    requires surface.contextId == contextId
    ensures var bound := Bind(Framebuffer.None, contextId, surface);
            bound.result.Ok? &&
            Unbind(bound.framebuffer) == UnbindOutcome(Framebuffer.None, Ok(Some(surface)))
  {
  }

  /** Unbinding a surface and binding it again restores the slot. */
  lemma UnbindThenBind(contextId: ContextID, surface: Surface)
    requires surface.contextId == contextId
    ensures var unbound := Unbind(Framebuffer.Surface(surface));
            unbound.result == Ok(Some(surface)) &&
            Bind(unbound.framebuffer, contextId, surface) == BindOutcome(Framebuffer.Surface(surface), Ok(()))
  {
  }

  /** A second bind is refused with `SurfaceAlreadyBound`; the first surface
      stays bound and the second is handed back. */
  lemma DoubleBindKeepsFirst(contextId: ContextID, first: Surface, second: Surface)
    requires first.contextId == contextId
    ensures var once := Bind(Framebuffer.None, contextId, first);
            var twice := Bind(once.framebuffer, contextId, second);
            twice.framebuffer == Framebuffer.Surface(first) &&
            twice.result == Err((SurfaceAlreadyBound, second))
  {
  }

  /** A surface made for another context is never bound: the slot keeps what
      it had and the surface comes back. The error is `IncompatibleSurface`
      only for an empty slot; an occupied slot is reported first. */
  lemma ForeignSurfaceNeverBinds(framebuffer: Framebuffer<Surface, ()>, contextId: ContextID, surface: Surface)
    requires surface.contextId != contextId
    ensures var o := Bind(framebuffer, contextId, surface);
            o.framebuffer == framebuffer && o.result.Err? && o.result.error.1 == surface &&
            (o.result.error.0 == IncompatibleSurface <==> framebuffer.None?)
  {
  }

  /** After a successful bind the context reports the bound surface's info,
      whose context id is the context's own. */
  lemma SurfaceInfoAfterBind(context: Context, surface: Surface)
    requires context.framebuffer == Bind(Framebuffer.None, context.id, surface).framebuffer
    requires surface.contextId == context.id
    ensures ContextSurfaceInfo(context) == Ok(Some(SurfaceInfoOf(surface)))
    ensures ContextSurfaceInfo(context).value.value.contextId == context.id
  {
  }

  /** A call on the binding slot. */
  datatype BindingCall = BindCall(surface: Surface) | UnbindCall

  /** The surface a call hands in: the one passed to a bind. */
  function GivenBy(call: BindingCall): seq<Surface>
  {
    if call.BindCall? then [call.surface] else []
  }

  /** The surfaces handed in by a series of calls. */
  function Given(calls: seq<BindingCall>): seq<Surface>
    decreases |calls|
  {
    if calls == [] then [] else GivenBy(calls[0]) + Given(calls[1..])
  }

  /** The surface held by a slot, as a multiset. */
  function Held(framebuffer: Framebuffer<Surface, ()>): multiset<Surface>
  {
    if framebuffer.Surface? then multiset{framebuffer.surface} else multiset{}
  }

  /** The slot after some calls and the surfaces handed back to the caller
      (by failed binds and by unbinds). */
  datatype RunOutcome = RunOutcome(framebuffer: Framebuffer<Surface, ()>, returned: seq<Surface>)

  /** One call on the slot. */
  function Step(framebuffer: Framebuffer<Surface, ()>, contextId: ContextID, call: BindingCall): RunOutcome
  {
    match call
    case BindCall(surface) =>
      var o := Bind(framebuffer, contextId, surface);
      RunOutcome(o.framebuffer, if o.result.Err? then [o.result.error.1] else [])
    case UnbindCall =>
      var o := Unbind(framebuffer);
      RunOutcome(o.framebuffer, if o.result.Ok? && o.result.value.Some? then [o.result.value.value] else [])
  }

  /** A series of calls on the slot, in order. */
  function Run(framebuffer: Framebuffer<Surface, ()>, contextId: ContextID, calls: seq<BindingCall>): RunOutcome
    decreases |calls|
  {
    if calls == [] then RunOutcome(framebuffer, [])
    else
      var first := Step(framebuffer, contextId, calls[0]);
      var rest := Run(first.framebuffer, contextId, calls[1..]);
      RunOutcome(rest.framebuffer, first.returned + rest.returned)
  }

  /** One call neither loses nor invents a surface. */
  lemma StepConserves(framebuffer: Framebuffer<Surface, ()>, contextId: ContextID, call: BindingCall)
    ensures var r := Step(framebuffer, contextId, call);
            multiset(GivenBy(call)) + Held(framebuffer) == multiset(r.returned) + Held(r.framebuffer)
  {
  }

  /** Two balanced steps chain into a balanced pair of steps. */
  lemma ChainBalance<X>(in1: multiset<X>, in2: multiset<X>, held0: multiset<X>, out1: multiset<X>, out2: multiset<X>,
                        held1: multiset<X>, held2: multiset<X>)
    requires in1 + held0 == out1 + held1 && in2 + held1 == out2 + held2
    ensures in1 + in2 + held0 == out1 + out2 + held2
  {
    calc {
      in1 + in2 + held0;
      in2 + (in1 + held0);
      in2 + (out1 + held1);
      out1 + (in2 + held1);
      out1 + (out2 + held2);
    }
  }

  /** No surface is ever dropped by binding: every surface given to a bind,
      together with the one bound at the start, is either handed back to the
      caller or bound at the end, and nothing else comes back. */
  lemma {:induction false} NoSurfaceDropped(framebuffer: Framebuffer<Surface, ()>, contextId: ContextID,
                                            calls: seq<BindingCall>)
    ensures var r := Run(framebuffer, contextId, calls);
            multiset(Given(calls)) + Held(framebuffer) == multiset(r.returned) + Held(r.framebuffer)
    decreases |calls|
  {
    if calls != [] {
      var first := Step(framebuffer, contextId, calls[0]);
      var rest := Run(first.framebuffer, contextId, calls[1..]);
      StepConserves(framebuffer, contextId, calls[0]);
      NoSurfaceDropped(first.framebuffer, contextId, calls[1..]);
      var given, given' := multiset(GivenBy(calls[0])), multiset(Given(calls[1..]));
      var back, back' := multiset(first.returned), multiset(rest.returned);
      assert multiset(Given(calls)) == given + given';
      assert multiset(first.returned + rest.returned) == back + back';
      ChainBalance(given, given', Held(framebuffer), back, back', Held(first.framebuffer), Held(rest.framebuffer));
    }
  }

  /** Whatever the calls, a surface bound to the slot was made for this
      context, and an external target is neither installed nor removed. */
  lemma {:induction false} SlotInvariant(framebuffer: Framebuffer<Surface, ()>, contextId: ContextID,
                                         calls: seq<BindingCall>)
    requires framebuffer.Surface? ==> framebuffer.surface.contextId == contextId
    ensures var r := Run(framebuffer, contextId, calls);
            (r.framebuffer.Surface? ==> r.framebuffer.surface.contextId == contextId) &&
            (r.framebuffer.External? <==> framebuffer.External?) &&
            (framebuffer.External? ==> r.framebuffer == framebuffer)
    decreases |calls|
  {
    if calls != [] {
      SlotInvariant(Step(framebuffer, contextId, calls[0]).framebuffer, contextId, calls[1..]);
    }
  }

  /* ---------------- surface lifecycle ---------------- */

  /** A destroyed surface is released without a panic, and so is a context
      whose bound surface was destroyed. */
  lemma DestroyedSurfaceDropsCleanly(context: Context, surface: Surface, panicking: bool)
    requires surface.destroyed && context.framebuffer == Framebuffer.Surface(surface)
    ensures DropSurface(surface, panicking) == Released
    ensures DropContext(context, panicking) == Released
  {
  }

  /** Between the native locks held at positions `a` and `b` of a history,
      a rise can only come from a successful lock call in between. */
  lemma {:induction false} RiseNeedsLock(calls: seq<LockCall>, a: nat, b: nat)
    requires a <= b <= |calls|
    requires Outstanding(calls[..a]) < Outstanding(calls[..b])
    ensures exists j :: a <= j < b && calls[j] == Lock(true)
    decreases b - a
  {
    assert calls[..b] == calls[..b - 1] + [calls[b - 1]];
    OutstandingAppend(calls[..b - 1], calls[b - 1]);
    if calls[b - 1] != Lock(true) {
      RiseNeedsLock(calls, a, b - 1);
    }
  }

  /** In a paired history no two unlocks follow each other without a
      successful lock between them: every guard release unlocks a lock of
      its own. */
  lemma NoDoubleUnlock(calls: seq<LockCall>, i: nat, k: nat)
    requires Paired(calls)
    requires i < k < |calls| && calls[i] == Unlock && calls[k] == Unlock
    ensures exists j :: i < j < k && calls[j] == Lock(true)
  {
    assert calls[..i + 1] == calls[..i] + [Unlock];
    OutstandingAppend(calls[..i], Unlock);
    assert calls[..k + 1] == calls[..k] + [Unlock];
    OutstandingAppend(calls[..k], Unlock);
    assert 0 <= Outstanding(calls[..i]) <= 1 && 0 <= Outstanding(calls[..i + 1]);
    assert Outstanding(calls[..k]) <= 1 && 0 <= Outstanding(calls[..k + 1]);
    RiseNeedsLock(calls, i + 1, k);
  }

  /** In a paired history the unlocks never outnumber the successful locks,
      and at most one lock is held at the end. */
  lemma {:induction false} PairedCounts(calls: seq<LockCall>)
    requires Paired(calls)
    ensures Count(calls, Unlock) <= Count(calls, Lock(true)) <= Count(calls, Unlock) + 1
  {
    OutstandingIsDifference(calls);
    assert calls[..|calls|] == calls;
  }

  /** How often `c` occurs in `calls`. */
  function Count(calls: seq<LockCall>, c: LockCall): nat
  {
    if calls == [] then 0
    else Count(calls[..|calls| - 1], c) + (if calls[|calls| - 1] == c then 1 else 0)
  }

  lemma {:induction false} OutstandingIsDifference(calls: seq<LockCall>)
    ensures Outstanding(calls) == Count(calls, Lock(true)) - Count(calls, Unlock)
    decreases |calls|
  {
    if calls != [] {
      OutstandingIsDifference(calls[..|calls| - 1]);
    }
  }
}
