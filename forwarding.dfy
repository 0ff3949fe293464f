/** The trampolines that rewrite nothing: every one of them calls the
    provider's function in the same-named slot of the table resolved for its
    version, with the arguments it received, and hands back what that
    function returns. Written once, for any such slot of any version. */
module Forwarding {
  import opened OptixTypes
  import opened Runtime

  /** A plain trampoline for `slot` exists in version `v` with return kind `k`. */
  predicate Plain(v: Abi, slot: Slot, k: ReturnKind)
  {
    slot in Slots(v) && !Marshals(slot) && Returns(slot) == k
  }

  /** A trampoline of a function returning `OptixResult`. */
  method ForwardStatus(rt: Process, v: Abi, slot: Slot, args: seq<Arg>) returns (r: OptixResult)
    requires Plain(v, slot, Status)
    modifies rt`trace
    ensures rt.trace == old(rt.trace) + [Called(Invoke(v, slot, args))]
    ensures r == rt.status(old(rt.trace), Invoke(v, slot, args))
  {
    r := rt.CallStatus(Invoke(v, slot, args));
  }

  /** A trampoline of `optixGetErrorName` or `optixGetErrorString`. */
  method ForwardText(rt: Process, v: Abi, slot: Slot, args: seq<Arg>) returns (p: Ptr)
    requires Plain(v, slot, Text)
    modifies rt`trace
    ensures rt.trace == old(rt.trace) + [Called(Invoke(v, slot, args))]
    ensures p == rt.text(old(rt.trace), Invoke(v, slot, args))
  {
    p := rt.CallText(Invoke(v, slot, args));
  }

  /** A trampoline of a reserved slot: it still calls the provider's own
      reserved function instead of doing nothing. */
  method ForwardVoid(rt: Process, v: Abi, slot: Slot)
    requires Plain(v, slot, Nothing)
    modifies rt`trace
    ensures rt.trace == old(rt.trace) + [Called(Invoke(v, slot, []))]
  {
    rt.CallVoid(Invoke(v, slot, []));
  }
}
