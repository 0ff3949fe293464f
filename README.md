# nvoptix relay: a Dafny model of the OptiX ABI tables and their trampolines

The relay is a Wine DLL. Windows programs built against an old OptiX SDK call
`optixQueryFunctionTable_22` (SDK 7.0.0) or `optixQueryFunctionTable_60`
(SDK 7.5.0) and get back a function table. Every entry of that table is a
relay trampoline. All but one of them call the same-named function of the
table the one real (Linux) OptiX library resolved for that ABI version; the
exception is ABI 22's log-callback setter, a stub that calls nothing and
reports success. Most trampolines forward their arguments and result
unchanged. A few rewrite them:

- device-context creation copies the caller's option record and switches
  off, or re-routes, the log callback in the copy;
- the ABI 60 log-callback setter re-routes its callback through the relay,
  or, when callbacks are disabled, returns success without calling the
  library;
- the disk-cache location setter and getter convert between DOS and Unix
  paths with Wine's codec, which allocates heap buffers the relay frees.

The model covers both versions. It has these parts:

- `optix_types.dfy`: result codes, slot names, the per-version slot layout,
  option records, and the calls made into the real library.
- `wine_host.dfy`: the Wine pieces as oracles (`callbacks_enabled`,
  `wrap_callback`, the address of `log_callback`, and the path codec), plus
  C strings in `char` buffers.
- `runtime.dfy`: class `Process`. It records, in one ordered trace, every
  call the real library receives and every heap allocation and free. The
  library's answers are oracle functions of the history so far and the call.
- `table_builder.dfy`, `forwarding.dfy`, `cache_location.dfy`: the table
  query, identity forwarding and the cache-location pair. Each is written
  once and takes the ABI version as a parameter. The table query and the
  cache-location pair state their behaviour as predicates relating the
  state before and after (`QueryBehaviour`, `SetBehaviour`,
  `GetBehaviour`); the forwarding methods state theirs in their own
  postconditions.
- `abi22.dfy`, `abi60.dfy`: the per-version entry points and the
  version-specific option and callback handling.

A NULL `const char *location` is `None`. The caller's `location` buffer is an
`array<char>` whose length is `locationSize`. The caller's option record is
passed by value, so the trampoline cannot change it and only the copy
reaches the library. The caller's function table is an `array<Entry>`. An
entry is either the caller's old word (`Raw`) or a relay trampoline, named by
version and slot. The slot order is the order in which each
`optixQueryFunctionTable_NN` assigns the slots. The table's byte size is 8
bytes times the slot count, because the struct holds only 64-bit function
pointers.

## Model

| member | source | states |
|---|---|---|
| `TableBuilder.QueryFunctionTable` | src/nvoptix_60.c:358-422 | Wrong declared size: returns `OPTIX_ERROR_FUNCTION_TABLE_SIZE_MISMATCH`, no provider call, table untouched. Otherwise exactly one provider query with the version number and the caller's options unchanged, and its result is returned verbatim. On failure the table is untouched; on success every layout slot holds its same-named trampoline and words past the layout are untouched |
| `TableBuilder.QueryCallNamesItsVersion` | src/nvoptix_60.c:367 | table queries for different ABI versions never make the same provider call, whatever their options, so the library always learns which version's table to resolve |
| `TableBuilder.QueryFillsEverySlot` | src/nvoptix_60.c:373-417 | after a successful query, slot `i` of the version's layout holds the trampoline named like that slot, for every `i`, so no slot keeps the caller's old word |
| `TableBuilder.QueryIdempotent` | src/nvoptix_60.c:373-421 | two successful queries of the same version leave the same table, whatever the caller's buffer held before |
| `Abi60.QueryFunctionTable` | src/nvoptix_60.c:358-422 | the behaviour above for ABI 60; on success the version's layout has 43 slots, and `reserved1`/`reserved2` (slots 31 and 32) hold their own trampolines |
| `Abi22.QueryFunctionTable` | src/nvoptix_22.c:294-351 | the behaviour above for ABI 22; on success the version's layout has 36 slots, and slot 34 holds the `optixDenoiserSetModel_22` trampoline |
| `Forwarding.ForwardStatus` | src/nvoptix_60.c:79-83 | a plain trampoline makes exactly one call, to the provider's same-named slot of its own version, with the same arguments, and returns that call's result unchanged |
| `Forwarding.ForwardText` | src/nvoptix_60.c:44-48 | the same for the two error-text functions, returning the provider's `const char *` unchanged |
| `Forwarding.ForwardVoid` | src/nvoptix_60.c:286-296 | a reserved-slot trampoline calls the provider's own reserved function; it is not a no-op |
| `Abi60.Reserved1` | src/nvoptix_60.c:286-290 | `reserved1_60` calls the provider's `reserved1` exactly once |
| `Abi60.Reserved2` | src/nvoptix_60.c:292-296 | `reserved2_60` calls the provider's `reserved2` exactly once |
| `Abi60.DeviceContextDestroy` | src/nvoptix_60.c:79-83 | representative ABI 60 trampoline: one call to the provider's `optixDeviceContextDestroy` with the same context, result unchanged |
| `Abi60.GetErrorName` | src/nvoptix_60.c:44-48 | representative string-returning trampoline: one call to the provider's `optixGetErrorName`, its pointer returned unchanged |
| `Abi22.DenoiserSetModel` | src/nvoptix_22.c:282-286 | representative ABI 22 trampoline: one call to the provider's `optixDenoiserSetModel` with the same four arguments, result unchanged |
| `Abi22.NormalizeOptions` | src/nvoptix_22.c:60-67 | the copy passed on never carries a callback (function NULL, level 0); the callback data is kept; a record that asked for no callback is passed on unchanged |
| `Abi22.DeviceContextCreate` | src/nvoptix_22.c:56-70 | exactly one provider call, carrying the normalised copy and the caller's other arguments; the provider's result is returned unchanged, so a requested callback never fails creation |
| `Abi22.DeviceContextSetLogCallback` | src/nvoptix_22.c:84-88 | returns `OPTIX_SUCCESS` for every input; it has no frame to touch the provider |
| `Abi60.NormalizeOptions` | src/nvoptix_60.c:60-74 | level and validation mode are always kept. The copy's function is NULL or the relay's own `log_callback`, never the caller's. No callback: the record is passed unchanged. Callbacks enabled: the data becomes `wrap_callback(function, data)`. Callbacks disabled: only the function is cleared |
| `Abi60.DeviceContextCreate` | src/nvoptix_60.c:56-77 | exactly one provider call, carrying the normalised copy; the provider's result is returned unchanged, including when callbacks are disabled |
| `Abi60.LogCallbackDecision` | src/nvoptix_60.c:95-107 | returns early if and only if a callback is given while callbacks are disabled. Otherwise the level is forwarded unchanged and the function is NULL or `log_callback`. A NULL callback is forwarded as given. An enabled callback is forwarded as `log_callback` with the wrapped data |
| `Abi60.DeviceContextSetLogCallback` | src/nvoptix_60.c:91-110 | the early return is `OPTIX_SUCCESS` with no provider call; otherwise exactly one provider call with the decided arguments, result unchanged |
| `Abi60.CreateAgreesWithSetLogCallback` | src/nvoptix_60.c:62-101 | for one host, creation and the setter both pass `log_callback`, `wrap_callback` of the same function and data, and the caller's level. Where the setter returns early, creation proceeds with no callback |
| `CacheLocation.SetCacheLocation` | src/nvoptix_60.c:118-135 | A NULL path returns `OPTIX_ERROR_DISK_CACHE_INVALID_PATH` with no provider call. Otherwise the provider gets the converted path (NULL if the codec failed) and its result is returned unchanged. The codec's buffer is allocated before that call and freed exactly once after it, so the live heap is unchanged |
| `Abi60.DeviceContextSetCacheLocation` | src/nvoptix_60.c:118-135 | the behaviour above for ABI 60 |
| `Abi22.DeviceContextSetCacheLocation` | src/nvoptix_22.c:96-113 | the behaviour above for ABI 22 |
| `CacheLocation.GetCacheLocation` | src/nvoptix_60.c:149-164 | A provider failure is returned verbatim, with no conversion or allocation. On provider success, the buffer's Unix path goes to the codec and the DOS buffer is freed exactly once. If the DOS path exists and `locationSize` is 0, the call only measures the path: it succeeds and the buffer is left as the provider left it. If the DOS path and its NUL fit in `locationSize`, they are written and the call succeeds. Otherwise the result is `OPTIX_ERROR_INVALID_VALUE` |
| `Abi60.DeviceContextGetCacheLocation` | src/nvoptix_60.c:149-164 | the behaviour above for ABI 60 |
| `Abi22.DeviceContextGetCacheLocation` | src/nvoptix_22.c:127-142 | the behaviour above for ABI 22 |
| `CacheLocation.GetKeepsProviderResult` | src/nvoptix_60.c:153-159 | the getter returns the provider's result, except that a provider success may become `OPTIX_ERROR_INVALID_VALUE` and nothing else |
| `CacheLocation.GetReadsBackDosPath` | src/nvoptix_60.c:157-159 | after a successful get, the path the provider reported has a DOS form, and with a non-empty buffer the caller's buffer reads back as a C string equal to that converted DOS form |
| `WineHost.CString` | src/nvoptix_60.c:157 | the string a buffer holds is a NUL-free prefix of it, ended by the buffer's first NUL or its end |
| `WineHost.CStringOfTerminated` | src/nvoptix_60.c:159 | writing a string and a NUL at the start of a buffer makes the buffer read back as that string, whatever follows |
| `WineHost.WriteTerminated` | src/nvoptix_60.c:159 | a successful back-conversion rewrites only the converted characters and their NUL; the rest of the caller's buffer is unchanged |
| `Runtime.LiveBracketed` | src/nvoptix_60.c:128-132 | a buffer allocated, used only by provider calls, then freed leaves the set of live heap buffers as it was |
| `Runtime.LiveBelowFresh` | src/nvoptix_60.c:128 | every live buffer has a name below the next fresh one, so an allocation never returns a buffer still in use |
| `Runtime.Process.Alloc` | src/nvoptix_60.c:128 | the codec's allocation returns a buffer not live before, and adds exactly it to the live set |
| `Runtime.Process.Free` | src/nvoptix_60.c:132 | `HeapFree` of NULL does nothing; any other pointer must be live, so freeing one buffer twice cannot be verified |
| `Runtime.Process.CallFilling` | src/nvoptix_60.c:153 | the provider's getter records one call and returns its oracle result. The buffer keeps its length and holds what the provider leaves, a function of the history, the call and the buffer's prior contents, so the provider may leave any part untouched |

## Left out

- The real OptiX library, `dlopen` of it, and GPU work. The library is oracle functions of the call history. The table it resolves into the relay's static `optixFunctionTable_NN` is not represented. A call through slot `s` of version `v` is the event `Invoke(v, s, args)`.
- Values the library writes through out-pointers (the new context handle, module handles and so on). These are opaque to the relay.
- The bodies of `wrap_callback`, `log_callback` and `callbacks_enabled`. They are oracles. The lifetime of the callback binding and the reverse trampoline that calls back into the program are not modelled.
- `Abi60.CreateAgreesWithSetLogCallback`: `wrap_callback` is a function of its two arguments, so two calls with equal arguments give equal words. A `wrap_callback` that hands out a new binding on every call would give creation and the setter different data words.
- The character encodings in the path codec (`MultiByteToWideChar`, `wine_get_unix_file_name`, `wine_get_dos_file_name`, `WideCharToMultiByte`). They are oracle functions on strings. The fixed `MAX_PATH` wide buffer of the setter is not modelled, nor the undefined contents it has when the conversion fails.
- `CacheLocation.GetCacheLocation`: when the back-conversion fails for lack of room, the model leaves the caller's buffer as the provider wrote it. Win32 may have partly overwritten it.
- `Abi60.DeviceContextGetCacheLocation`: a buffer partly overwritten by a failed back-conversion is not modelled, as for `CacheLocation.GetCacheLocation`.
- `Abi22.DeviceContextGetCacheLocation`: a buffer partly overwritten by a failed back-conversion is not modelled, as for `CacheLocation.GetCacheLocation`.
- `TRACE`, `WARN` and `FIXME` diagnostics. They do not affect any result.
- `__cdecl`, the function-pointer casts of `ASSIGN_FUNCPTR`, and concrete struct sizes beyond 8 bytes per slot.
- Concurrent first-time filling of the static tables. The code has no synchronisation, so there is nothing sequential to prove about it.
- The roughly thirty plain trampolines per version. Identity forwarding is stated once in `Forwarding`, with one representative per version.
- ABI 36. Only its header is shown. `src/nvoptix_36.c` is not part of this model.
- Calling a trampoline before a successful table query. That would jump through an unfilled static table. The model does not track whether the library has resolved a version.
