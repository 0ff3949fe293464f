/** The Wine side of the relay as oracles: whether log callbacks can be
    relayed, the callback wrapper, and the path codec. Their code is not part
    of this model; only what the relay does with their answers is. */
module WineHost {
  import opened OptixTypes

  /** A non-NULL code address. */
  type CodeAddr = p: Ptr | p != NULL witness 1

  const NUL: char := '\0'

  datatype Host = Host(
    /** `callbacks_enabled()` */
    callbacksEnabled: bool,
    /** the address of the relay's own `log_callback` */
    logCallback: CodeAddr,
    /** `wrap_callback(function, data)`: the data word that lets
        `log_callback` find the caller's function and data again */
    wrapCallback: (Ptr, Ptr) -> Ptr,
    /** `MultiByteToWideChar` then `wine_get_unix_file_name`: the Unix name of
        a DOS path in a fresh heap buffer, or NULL */
    unixFileName: Path -> Option<Path>,
    /** `wine_get_dos_file_name`: the DOS name of a Unix path in a fresh heap
        buffer, or NULL */
    dosFileName: Path -> Option<Path>,
    /** the characters `WideCharToMultiByte` produces for a wide string,
        without the terminating NUL */
    multiByte: Path -> Path)

  /** The string a `char *` buffer holds: everything before its first NUL,
      or all of it when it has none. */
  function CString(s: seq<char>): (r: Path)
    ensures |r| <= |s| && r == s[..|r|]
    ensures NUL !in r
    ensures |r| < |s| ==> s[|r|] == NUL
  {
    if s == [] || s[0] == NUL then [] else [s[0]] + CString(s[1..])
  }

  /** Writing `w` and a terminating NUL at the start of a buffer makes the
      buffer read back as `w` up to its first NUL, whatever follows. */
  lemma {:induction false} CStringOfTerminated(s: seq<char>, w: seq<char>)
    requires |w| < |s| && s[..|w| + 1] == w + [NUL]
    ensures CString(s) == CString(w)
  {
    if w != [] {
      assert s[0] == w[0];
      if w[0] != NUL {
        assert s[1..][..|w[1..]| + 1] == w[1..] + [NUL];
        CStringOfTerminated(s[1..], w[1..]);
      }
    }
  }

  /** `WideCharToMultiByte(..., -1, buffer, size, ...)` succeeds exactly when
      the converted characters and their NUL fit in `size` bytes. */
  predicate Fits(converted: Path, size: nat)
  {
    |converted| + 1 <= size
  }

  /** The buffer after a successful `WideCharToMultiByte`: the converted
      characters and a NUL at its start, the rest as it was. */
  function WriteTerminated(buffer: seq<char>, converted: Path): (r: seq<char>)
    requires Fits(converted, |buffer|)
    ensures |r| == |buffer|
    ensures r[..|converted| + 1] == converted + [NUL]
    ensures r[|converted| + 1..] == buffer[|converted| + 1..]
  {
    converted + [NUL] + buffer[|converted| + 1..]
  }
}
