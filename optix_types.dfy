/** Values shared by every ABI version of the relay: pointers, result codes,
    the names of the function-table slots and their per-version layout, the
    device-context option records, and the calls the relay makes into the
    real OptiX library. */
module OptixTypes {

  datatype Option<+T> = None | Some(value: T)

  /** A raw pointer value; 0 is NULL. The relay never interprets pointers
      other than testing them against NULL. */
  type Ptr = nat
  const NULL: Ptr := 0

  /** A NUL-free or NUL-terminated character string. */
  type Path = seq<char>

  /** The ABI versions this model covers. */
  datatype Abi = V22 | V60

  /** The version number that names the ABI in `optixQueryFunctionTable`. */
  function AbiVersion(v: Abi): nat
  {
    match v
    case V22 => 22
    case V60 => 60
  }

  /** OptiX result codes. The four the relay produces by itself are named;
      every other code the provider may return is `OtherError`. */
  datatype OptixResult =
    | Success
    | ErrorInvalidValue
    | ErrorDiskCacheInvalidPath
    | ErrorFunctionTableSizeMismatch
    | OtherError(code: int)

  /** The named entries of the OptiX function tables of all covered versions. */
  datatype Slot =
    | OptixGetErrorName
    | OptixGetErrorString
    | OptixDeviceContextCreate
    | OptixDeviceContextDestroy
    | OptixDeviceContextGetProperty
    | OptixDeviceContextSetLogCallback
    | OptixDeviceContextSetCacheEnabled
    | OptixDeviceContextSetCacheLocation
    | OptixDeviceContextSetCacheDatabaseSizes
    | OptixDeviceContextGetCacheEnabled
    | OptixDeviceContextGetCacheLocation
    | OptixDeviceContextGetCacheDatabaseSizes
    | OptixModuleCreateFromPTX
    | OptixModuleCreateFromPTXWithTasks
    | OptixModuleGetCompilationState
    | OptixModuleDestroy
    | OptixBuiltinISModuleGet
    | OptixTaskExecute
    | OptixProgramGroupCreate
    | OptixProgramGroupDestroy
    | OptixProgramGroupGetStackSize
    | OptixPipelineCreate
    | OptixPipelineDestroy
    | OptixPipelineSetStackSize
    | OptixAccelComputeMemoryUsage
    | OptixAccelBuild
    | OptixAccelGetRelocationInfo
    | OptixAccelCheckRelocationCompatibility
    | OptixAccelRelocate
    | OptixAccelCompact
    | OptixConvertPointerToTraversableHandle
    | Reserved1
    | Reserved2
    | OptixSbtRecordPackHeader
    | OptixLaunch
    | OptixDenoiserCreate
    | OptixDenoiserDestroy
    | OptixDenoiserComputeMemoryResources
    | OptixDenoiserSetup
    | OptixDenoiserInvoke
    | OptixDenoiserSetModel
    | OptixDenoiserComputeIntensity
    | OptixDenoiserComputeAverageColor
    | OptixDenoiserCreateWithUserModel

  /** What a slot's function returns: an `OptixResult`, a `const char *`
      (the two error-text queries) or nothing (the reserved slots). */
  datatype ReturnKind = Status | Text | Nothing

  function Returns(s: Slot): ReturnKind
  {
    match s
    case OptixGetErrorName => Text
    case OptixGetErrorString => Text
    case Reserved1 => Nothing
    case Reserved2 => Nothing
    case _ => Status
  }

  /** The slots whose trampolines rewrite their arguments or results instead
      of forwarding them unchanged. */
  predicate Marshals(s: Slot)
  {
    s.OptixDeviceContextCreate? || s.OptixDeviceContextSetLogCallback? ||
    s.OptixDeviceContextSetCacheLocation? || s.OptixDeviceContextGetCacheLocation?
  }

  /** The slot order of the ABI 22 table (OptiX SDK 7.0.0). */
  const Slots22: seq<Slot> := [
    OptixGetErrorName, OptixGetErrorString,
    OptixDeviceContextCreate, OptixDeviceContextDestroy, OptixDeviceContextGetProperty,
    OptixDeviceContextSetLogCallback, OptixDeviceContextSetCacheEnabled,
    OptixDeviceContextSetCacheLocation, OptixDeviceContextSetCacheDatabaseSizes,
    OptixDeviceContextGetCacheEnabled, OptixDeviceContextGetCacheLocation,
    OptixDeviceContextGetCacheDatabaseSizes,
    OptixModuleCreateFromPTX, OptixModuleDestroy,
    OptixProgramGroupCreate, OptixProgramGroupDestroy, OptixProgramGroupGetStackSize,
    OptixPipelineCreate, OptixPipelineDestroy, OptixPipelineSetStackSize,
    OptixAccelComputeMemoryUsage, OptixAccelBuild, OptixAccelGetRelocationInfo,
    OptixAccelCheckRelocationCompatibility, OptixAccelRelocate, OptixAccelCompact,
    OptixConvertPointerToTraversableHandle,
    OptixSbtRecordPackHeader, OptixLaunch,
    OptixDenoiserCreate, OptixDenoiserDestroy, OptixDenoiserComputeMemoryResources,
    OptixDenoiserSetup, OptixDenoiserInvoke, OptixDenoiserSetModel,
    OptixDenoiserComputeIntensity
  ]

  /** The slot order of the ABI 60 table (OptiX SDK 7.5.0). */
  const Slots60: seq<Slot> := [
    OptixGetErrorName, OptixGetErrorString,
    OptixDeviceContextCreate, OptixDeviceContextDestroy, OptixDeviceContextGetProperty,
    OptixDeviceContextSetLogCallback, OptixDeviceContextSetCacheEnabled,
    OptixDeviceContextSetCacheLocation, OptixDeviceContextSetCacheDatabaseSizes,
    OptixDeviceContextGetCacheEnabled, OptixDeviceContextGetCacheLocation,
    OptixDeviceContextGetCacheDatabaseSizes,
    OptixModuleCreateFromPTX, OptixModuleCreateFromPTXWithTasks,
    OptixModuleGetCompilationState, OptixModuleDestroy, OptixBuiltinISModuleGet,
    OptixTaskExecute,
    OptixProgramGroupCreate, OptixProgramGroupDestroy, OptixProgramGroupGetStackSize,
    OptixPipelineCreate, OptixPipelineDestroy, OptixPipelineSetStackSize,
    OptixAccelComputeMemoryUsage, OptixAccelBuild, OptixAccelGetRelocationInfo,
    OptixAccelCheckRelocationCompatibility, OptixAccelRelocate, OptixAccelCompact,
    OptixConvertPointerToTraversableHandle,
    Reserved1, Reserved2,
    OptixSbtRecordPackHeader, OptixLaunch,
    OptixDenoiserCreate, OptixDenoiserDestroy, OptixDenoiserComputeMemoryResources,
    OptixDenoiserSetup, OptixDenoiserInvoke, OptixDenoiserComputeIntensity,
    OptixDenoiserComputeAverageColor, OptixDenoiserCreateWithUserModel
  ]

  function Slots(v: Abi): seq<Slot>
  {
    match v
    case V22 => Slots22
    case V60 => Slots60
  }

  /** Bytes per function pointer on the 64-bit targets the relay is built for. */
  const PointerBytes: nat := 8

  /** `sizeof(OptixFunctionTable_v)`: a struct of nothing but function pointers. */
  function TableBytes(v: Abi): nat
  {
    |Slots(v)| * PointerBytes
  }

  /** One machine word of a caller's function table: whatever the caller had
      there (`Raw`), or the address of the relay's trampoline for `slot` of
      ABI `version`. */
  datatype Entry = Raw(bits: int) | Trampoline(version: Abi, slot: Slot)

  /** The table the relay hands out for ABI `v`: slot by slot, the
      same-named trampoline of that version. */
  function Layout(v: Abi): seq<Entry>
  {
    seq(|Slots(v)|, i requires 0 <= i < |Slots(v)| => Trampoline(v, Slots(v)[i]))
  }

  /** `OptixDeviceContextOptions` of ABI 22. */
  datatype Options22 = Options22(logCallbackFunction: Ptr, logCallbackData: Ptr, logCallbackLevel: int)

  /** `OptixDeviceContextOptions` of ABI 60 (same fields as the ABI 36 record). */
  datatype Options60 = Options60(logCallbackFunction: Ptr, logCallbackData: Ptr, logCallbackLevel: int, validationMode: int)

  /** An argument the relay passes to the provider. Scalars and opaque
      pointers are words; option records and converted paths are passed by
      content, and a path the codec could not produce is NULL (`None`). */
  datatype Arg =
    | Word(w: int)
    | Options22Arg(options22: Options22)
    | Options60Arg(options60: Options60)
    | PathArg(path: Option<Path>)

  /** A call into the real OptiX library: its own table query, or a call
      through the `slot` of the table it resolved for ABI `version`. */
  datatype Call =
    | TableQuery(abi: nat, numOptions: nat, optionKeys: Ptr, optionValues: Ptr, sizeOfTable: nat)
    | Invoke(version: Abi, slot: Slot, args: seq<Arg>)
}
