/** `optixDeviceContextSetCacheLocation_v` and
    `optixDeviceContextGetCacheLocation_v`, identical in every version: the
    caller speaks DOS paths, the real library Unix paths, and the relay
    converts between them through Wine's path codec, which hands back
    heap buffers that the relay must free. */
module CacheLocation {
  import opened OptixTypes
  import opened WineHost
  import opened Runtime

  /** The heap events around some provider calls: a buffer allocated before
      them and freed after them, or nothing when the codec returned NULL. */
  function Bracket(buffer: Option<nat>, calls: seq<Event>): seq<Event>
  {
    match buffer
    case None => calls
    case Some(b) => [Allocated(b)] + calls + [Freed(b)]
  }

  function SetCall(v: Abi, context: Ptr, unixLocation: Option<Path>): Call
  {
    Invoke(v, OptixDeviceContextSetCacheLocation, [Word(context), PathArg(unixLocation)])
  }

  function GetCall(v: Abi, context: Ptr, locationSize: nat): Call
  {
    Invoke(v, OptixDeviceContextGetCacheLocation, [Word(context), Word(locationSize)])
  }

  /** What one `SetCacheLocation(context, location)` does; `location` is
      `None` for a NULL pointer. */
  ghost predicate SetBehaviour(rt: Process, h: Host, v: Abi, context: Ptr, location: Option<Path>,
                               before: seq<Event>, after: seq<Event>, r: OptixResult)
  {
    match location
    case None =>
      // rejected without asking the provider
      r == ErrorDiskCacheInvalidPath && after == before
    case Some(p) =>
      var unix := h.unixFileName(p);
      var buffer := if unix.Some? then Some(Fresh(before)) else None;
      var c := SetCall(v, context, unix);
      var atCall := if unix.Some? then before + [Allocated(Fresh(before))] else before;
      // the converted path goes to the provider, its buffer is freed once
      // after the call, and the provider's result is returned unchanged
      after == before + Bracket(buffer, [Called(c)]) &&
      Live(after) == Live(before) &&
      r == rt.status(atCall, c)
  }

  method SetCacheLocation(rt: Process, h: Host, v: Abi, context: Ptr, location: Option<Path>)
    returns (r: OptixResult)
    modifies rt`trace
    ensures SetBehaviour(rt, h, v, context, location, old(rt.trace), rt.trace, r)
  {
    if location.None? {
      return ErrorDiskCacheInvalidPath;
    }
    var unix := h.unixFileName(location.value);
    var buffer: Option<nat> := None;
    if unix.Some? {
      var b := rt.Alloc();
      buffer := Some(b);
    }
    r := rt.CallStatus(SetCall(v, context, unix));
    rt.Free(buffer);
    if unix.Some? {
      LiveBracketed(old(rt.trace), buffer.value, [Called(SetCall(v, context, unix))]);
    }
  }

  /** What one `GetCacheLocation(context, location, locationSize)` does to
      the trace and to the caller's buffer, whose length is `locationSize`. */
  ghost predicate GetBehaviour(rt: Process, h: Host, v: Abi, context: Ptr,
                               before: seq<Event>, bufferBefore: seq<char>,
                               after: seq<Event>, bufferAfter: seq<char>, r: OptixResult)
  {
    var c := GetCall(v, context, |bufferBefore|);
    var providerResult := rt.status(before, c);
    var unixText := rt.Filled(before, c, bufferBefore);
    var afterCall := before + [Called(c)];
    |bufferAfter| == |bufferBefore| &&
    if providerResult != Success then
      // a provider failure is returned as is, with no conversion
      r == providerResult && after == afterCall && bufferAfter == unixText
    else
      var dos := h.dosFileName(CString(unixText));
      var buffer := if dos.Some? then Some(Fresh(afterCall)) else None;
      after == afterCall + Bracket(buffer, []) &&
      Live(after) == Live(before) &&
      if dos.Some? && |bufferBefore| == 0 then
        // a zero size only asks how much room the conversion needs: that
        // succeeds and writes nothing
        r == Success && bufferAfter == unixText
      else if dos.Some? && Fits(h.multiByte(dos.value), |bufferBefore|) then
        r == Success && bufferAfter == WriteTerminated(unixText, h.multiByte(dos.value))
      else
        r == ErrorInvalidValue && bufferAfter == unixText
  }

  method GetCacheLocation(rt: Process, h: Host, v: Abi, context: Ptr, location: array<char>)
    returns (r: OptixResult)
    modifies rt`trace, location
    ensures GetBehaviour(rt, h, v, context, old(rt.trace), old(location[..]), rt.trace, location[..], r)
  {
    var c := GetCall(v, context, location.Length);
    r := rt.CallFilling(c, location);
    if r != Success {
      return;
    }
    ghost var afterCall := rt.trace;
    ghost var unixText := location[..];
    var dos := h.dosFileName(CString(location[..]));
    var buffer: Option<nat> := None;
    if dos.Some? {
      var b := rt.Alloc();
      buffer := Some(b);
    }
    if dos.Some? && location.Length == 0 {
      // the size query of `WideCharToMultiByte` leaves the buffer alone
    } else if dos.Some? && Fits(h.multiByte(dos.value), location.Length) {
      var text := h.multiByte(dos.value) + [NUL];
      forall i | 0 <= i < |text| {
        location[i] := text[i];
      }
      assert location[..] == WriteTerminated(unixText, h.multiByte(dos.value));
    } else {
      r := ErrorInvalidValue;
    }
    rt.Free(buffer);
    LiveCalls(old(rt.trace), [Called(c)]);
    assert Live(afterCall) == Live(old(rt.trace));
    if dos.Some? {
      LiveBracketed(afterCall, buffer.value, []);
      assert rt.trace == afterCall + [Allocated(buffer.value)] + [] + [Freed(buffer.value)];
      assert Live(rt.trace) == Live(afterCall);
    } else {
      assert rt.trace == afterCall;
    }
  }

  /** The only result the relay substitutes for the provider's is
      `OPTIX_ERROR_INVALID_VALUE`, and only for a provider success. */
  lemma GetKeepsProviderResult(rt: Process, h: Host, v: Abi, context: Ptr,
                               before: seq<Event>, bufferBefore: seq<char>,
                               after: seq<Event>, bufferAfter: seq<char>, r: OptixResult)
    requires GetBehaviour(rt, h, v, context, before, bufferBefore, after, bufferAfter, r)
    ensures var pr := rt.status(before, GetCall(v, context, |bufferBefore|));
            r == pr || (pr == Success && r == ErrorInvalidValue)
  {
  }

  /** After a successful get, the provider's path had a DOS form and, unless
      the caller passed no room at all, the caller's buffer reads back, as a
      C string, as that DOS form. */
  lemma GetReadsBackDosPath(rt: Process, h: Host, v: Abi, context: Ptr,
                            before: seq<Event>, bufferBefore: seq<char>,
                            after: seq<Event>, bufferAfter: seq<char>)
    requires GetBehaviour(rt, h, v, context, before, bufferBefore, after, bufferAfter, Success)
    ensures var unixText := rt.Filled(before, GetCall(v, context, |bufferBefore|), bufferBefore);
            var dos := h.dosFileName(CString(unixText));
            dos.Some? && (|bufferBefore| > 0 ==> CString(bufferAfter) == CString(h.multiByte(dos.value)))
  {
    var unixText := rt.Filled(before, GetCall(v, context, |bufferBefore|), bufferBefore);
    var dos := h.dosFileName(CString(unixText));
    if |bufferBefore| > 0 {
      CStringOfTerminated(bufferAfter, h.multiByte(dos.value));
    }
  }
}
