/** What lies outside the relay and is changed by it: the real OptiX library,
    seen only through the calls it receives, and the Wine process heap, seen
    only through allocations and frees. Both are recorded in one ordered
    trace, so that "freed after the provider call" can be stated. */
module Runtime {
  import opened OptixTypes

  datatype Event =
    | Called(call: Call)
    | Allocated(buffer: nat)
    | Freed(buffer: nat)

  /** The heap buffers a trace leaves allocated and not yet freed. */
  function Live(t: seq<Event>): set<nat>
    decreases |t|
  {
    if t == [] then {}
    else
      var before := Live(t[..|t| - 1]);
      match t[|t| - 1]
      case Called(_) => before
      case Allocated(b) => before + {b}
      case Freed(b) => before - {b}
  }

  /** A buffer name that no allocation in the trace has used yet: one more
      than the largest name allocated so far. */
  function Fresh(t: seq<Event>): nat
    decreases |t|
  {
    if t == [] then 0
    else
      var before := Fresh(t[..|t| - 1]);
      match t[|t| - 1]
      case Allocated(b) => if before <= b then b + 1 else before
      case _ => before
  }

  /** Every live buffer has a name below `Fresh`, so the next allocation
      cannot hand out a buffer that is still in use. */
  lemma {:induction false} LiveBelowFresh(t: seq<Event>, b: nat)
    requires b in Live(t)
    ensures b < Fresh(t)
    decreases |t|
  {
    var p := t[..|t| - 1];
    match t[|t| - 1]
    case Called(_) => LiveBelowFresh(p, b);
    case Allocated(a) => if b != a { LiveBelowFresh(p, b); }
    case Freed(a) => LiveBelowFresh(p, b);
  }

  /** Events that are not heap events leave the live set alone. */
  lemma {:induction false} LiveCalls(t: seq<Event>, calls: seq<Event>)
    requires forall i :: 0 <= i < |calls| ==> calls[i].Called?
    ensures Live(t + calls) == Live(t)
    decreases |calls|
  {
    if calls == [] {
      assert t + calls == t;
    } else {
      var last := |calls| - 1;
      var u := t + calls;
      assert u[..|u| - 1] == t + calls[..last];
      assert u[|u| - 1] == calls[last];
      LiveCalls(t, calls[..last]);
      assert Live(u) == Live(u[..|u| - 1]);
    }
  }

  /** A buffer allocated, used only by provider calls, then freed, leaves
      the heap as it found it: no leak and no buffer freed twice. */
  lemma {:induction false} LiveBracketed(t: seq<Event>, b: nat, calls: seq<Event>)
    requires b !in Live(t)
    requires forall i :: 0 <= i < |calls| ==> calls[i].Called?
    ensures Live(t + [Allocated(b)] + calls + [Freed(b)]) == Live(t)
  {
    var s := t + [Allocated(b)];
    assert s[..|s| - 1] == t;
    LiveCalls(s, calls);
    var u := s + calls + [Freed(b)];
    assert u[..|u| - 1] == s + calls;
  }

  /** The process the relay runs in. The provider's answers are oracles that
      may depend on everything that happened before the call. */
  class Process {
    var trace: seq<Event>

    /** the result code the provider returns for a call */
    const status: (seq<Event>, Call) -> OptixResult
    /** the `const char *` the provider returns for an error-text query */
    const text: (seq<Event>, Call) -> Ptr
    /** the character the provider stores at an index of a caller buffer,
        given what the buffer held before the call */
    const fill: (seq<Event>, Call, seq<char>, nat) -> char

    constructor (status: (seq<Event>, Call) -> OptixResult,
                 text: (seq<Event>, Call) -> Ptr,
                 fill: (seq<Event>, Call, seq<char>, nat) -> char)
      ensures trace == [] && Live(trace) == {}
      ensures this.status == status && this.text == text && this.fill == fill
    {
      trace := [];
      this.status := status;
      this.text := text;
      this.fill := fill;
    }

    /** A call to a provider function that returns an `OptixResult`. */
    method CallStatus(c: Call) returns (r: OptixResult)
      modifies this`trace
      ensures trace == old(trace) + [Called(c)]
      ensures r == status(old(trace), c)
    {
      r := status(trace, c);
      trace := trace + [Called(c)];
    }

    /** A call to a provider function that returns a `const char *`. */
    method CallText(c: Call) returns (p: Ptr)
      modifies this`trace
      ensures trace == old(trace) + [Called(c)]
      ensures p == text(old(trace), c)
    {
      p := text(trace, c);
      trace := trace + [Called(c)];
    }

    /** A call to a provider function that returns nothing. */
    method CallVoid(c: Call)
      modifies this`trace
      ensures trace == old(trace) + [Called(c)]
    {
      trace := trace + [Called(c)];
    }

    /** A call that also lets the provider overwrite the caller's `buffer`. */
    method CallFilling(c: Call, buffer: array<char>) returns (r: OptixResult)
      modifies this`trace, buffer
      ensures trace == old(trace) + [Called(c)]
      ensures r == status(old(trace), c)
      ensures buffer[..] == Filled(old(trace), c, old(buffer[..]))
    {
      r := status(trace, c);
      var prior := buffer[..];
      forall i | 0 <= i < buffer.Length {
        buffer[i] := fill(trace, c, prior, i);
      }
      trace := trace + [Called(c)];
    }

    /** The contents the provider leaves in a buffer that held `prior`; it
        may keep any part of `prior`, so a provider that writes only a short
        string, or nothing at all, is one choice of `fill`. */
    function Filled(before: seq<Event>, c: Call, prior: seq<char>): (s: seq<char>)
      ensures |s| == |prior|
    {
      seq(|prior|, i requires 0 <= i < |prior| => fill(before, c, prior, i))
    }

    /** A fresh heap buffer (allocated inside the Wine path codec). */
    method Alloc() returns (b: nat)
      modifies this`trace
      ensures b == Fresh(old(trace)) && b !in Live(old(trace))
      ensures trace == old(trace) + [Allocated(b)]
      ensures Live(trace) == Live(old(trace)) + {b}
    {
      b := Fresh(trace);
      if b in Live(trace) {
        LiveBelowFresh(trace, b);
      }
      var t := trace + [Allocated(b)];
      assert t[..|t| - 1] == trace;
      assert Live(t) == Live(trace) + {b};
      trace := t;
    }

    /** `HeapFree(GetProcessHeap(), 0, p)`: NULL (`None`) is ignored; any
        other pointer must be a live buffer. */
    method Free(b: Option<nat>)
      requires b.Some? ==> b.value in Live(trace)
      modifies this`trace
      ensures trace == old(trace) + (if b.Some? then [Freed(b.value)] else [])
    {
      if b.Some? {
        trace := trace + [Freed(b.value)];
      }
    }
  }
}
