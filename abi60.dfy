/** The relay for OptiX ABI 60 (SDK 7.5.0): its exported table query, the
    trampolines that do more than forward, and the reserved-slot ones. */
module Abi60 {
  import opened OptixTypes
  import opened WineHost
  import opened Runtime
  import TableBuilder
  import CacheLocation
  import Forwarding

  /** `optixQueryFunctionTable_60` */
  method QueryFunctionTable(rt: Process, numOptions: nat, optionKeys: Ptr, optionValues: Ptr,
                            table: array<Entry>, sizeOfTable: nat) returns (r: OptixResult)
    requires sizeOfTable == TableBytes(V60) ==> |Slots60| <= table.Length
    modifies rt`trace, table
    ensures TableBuilder.QueryBehaviour(rt, V60, numOptions, optionKeys, optionValues, sizeOfTable,
                                        old(rt.trace), old(table[..]), rt.trace, table[..], r)
    ensures r == Success ==> |Slots60| == 43 &&
                             table[31] == Trampoline(V60, Slot.Reserved1) &&
                             table[32] == Trampoline(V60, Slot.Reserved2)
  {
    r := TableBuilder.QueryFunctionTable(rt, V60, numOptions, optionKeys, optionValues, table, sizeOfTable);
    if r == Success {
      TableBuilder.QueryFillsEverySlot(rt, V60, numOptions, optionKeys, optionValues, sizeOfTable,
                                       old(rt.trace), old(table[..]), rt.trace, table[..], 31);
      TableBuilder.QueryFillsEverySlot(rt, V60, numOptions, optionKeys, optionValues, sizeOfTable,
                                       old(rt.trace), old(table[..]), rt.trace, table[..], 32);
    }
  }

  /** The copy of the caller's options that `optixDeviceContextCreate_60`
      passes on. A requested callback is replaced by the relay's own
      `log_callback`, with data that lets it find the caller's function and
      data again; when callbacks are disabled only the function is cleared.
      The level and the validation mode are always kept. */
  function NormalizeOptions(h: Host, options: Options60): (copy: Options60)
    ensures copy.logCallbackLevel == options.logCallbackLevel
    ensures copy.validationMode == options.validationMode
    ensures copy.logCallbackFunction == NULL || copy.logCallbackFunction == h.logCallback
    ensures options.logCallbackFunction == NULL ==> copy == options
    ensures options.logCallbackFunction != NULL && h.callbacksEnabled ==>
              copy.logCallbackFunction == h.logCallback &&
              copy.logCallbackData == h.wrapCallback(options.logCallbackFunction, options.logCallbackData)
    ensures options.logCallbackFunction != NULL && !h.callbacksEnabled ==>
              copy.logCallbackFunction == NULL && copy.logCallbackData == options.logCallbackData
  {
    if options.logCallbackFunction == NULL then
      options
    else if h.callbacksEnabled then
      options.(logCallbackData := h.wrapCallback(options.logCallbackFunction, options.logCallbackData),
               logCallbackFunction := h.logCallback)
    else
      options.(logCallbackFunction := NULL)
  }

  function CreateCall(h: Host, fromContext: Ptr, options: Options60, context: Ptr): Call
  {
    Invoke(V60, OptixDeviceContextCreate, [Word(fromContext), Options60Arg(NormalizeOptions(h, options)), Word(context)])
  }

  /** `optixDeviceContextCreate_60`: only the normalised copy reaches the
      provider; disabled callbacks never fail the call. */
  method DeviceContextCreate(rt: Process, h: Host, fromContext: Ptr, options: Options60, context: Ptr)
    returns (r: OptixResult)
    modifies rt`trace
    ensures rt.trace == old(rt.trace) + [Called(CreateCall(h, fromContext, options, context))]
    ensures r == rt.status(old(rt.trace), CreateCall(h, fromContext, options, context))
  {
    r := rt.CallStatus(CreateCall(h, fromContext, options, context));
  }

  /** What `optixDeviceContextSetLogCallback_60` does with its arguments:
      return success at once, or forward these three values. */
  datatype LogCallbackAction =
    | Suppress
    | Forward(callbackFunction: Ptr, callbackData: Ptr, callbackLevel: nat)

  function LogCallbackDecision(h: Host, callbackFunction: Ptr, callbackData: Ptr, callbackLevel: nat)
    : (d: LogCallbackAction)
    ensures d.Suppress? <==> callbackFunction != NULL && !h.callbacksEnabled
    ensures d.Forward? ==> d.callbackLevel == callbackLevel
    ensures d.Forward? ==> d.callbackFunction == NULL || d.callbackFunction == h.logCallback
    ensures callbackFunction == NULL ==> d == Forward(NULL, callbackData, callbackLevel)
    ensures callbackFunction != NULL && h.callbacksEnabled ==>
              d == Forward(h.logCallback, h.wrapCallback(callbackFunction, callbackData), callbackLevel)
  {
    if callbackFunction == NULL then
      Forward(callbackFunction, callbackData, callbackLevel)
    else if h.callbacksEnabled then
      Forward(h.logCallback, h.wrapCallback(callbackFunction, callbackData), callbackLevel)
    else
      Suppress
  }

  function SetLogCallbackCall(context: Ptr, callbackFunction: Ptr, callbackData: Ptr, callbackLevel: nat): Call
  {
    Invoke(V60, OptixDeviceContextSetLogCallback,
           [Word(context), Word(callbackFunction), Word(callbackData), Word(callbackLevel)])
  }

  /** `optixDeviceContextSetLogCallback_60` */
  method DeviceContextSetLogCallback(rt: Process, h: Host, context: Ptr, callbackFunction: Ptr,
                                     callbackData: Ptr, callbackLevel: nat) returns (r: OptixResult)
    modifies rt`trace
    ensures match LogCallbackDecision(h, callbackFunction, callbackData, callbackLevel)
            case Suppress =>
              r == Success && rt.trace == old(rt.trace)
            case Forward(f, d, l) =>
              rt.trace == old(rt.trace) + [Called(SetLogCallbackCall(context, f, d, l))] &&
              r == rt.status(old(rt.trace), SetLogCallbackCall(context, f, d, l))
  {
    match LogCallbackDecision(h, callbackFunction, callbackData, callbackLevel)
    case Suppress =>
      r := Success;
    case Forward(f, d, l) =>
      r := rt.CallStatus(SetLogCallbackCall(context, f, d, l));
  }

  /** Installing a callback at creation and through the setter hands the
      provider the same function and data; where the setter returns early,
      creation goes on with no callback at all. */
  lemma CreateAgreesWithSetLogCallback(h: Host, options: Options60, level: nat)
    requires options.logCallbackLevel == level
    ensures var copy := NormalizeOptions(h, options);
            match LogCallbackDecision(h, options.logCallbackFunction, options.logCallbackData, level)
            case Suppress => copy.logCallbackFunction == NULL
            case Forward(f, d, l) =>
              copy.logCallbackFunction == f && copy.logCallbackData == d && copy.logCallbackLevel == l
  {
  }

  /** `optixDeviceContextSetCacheLocation_60` */
  method DeviceContextSetCacheLocation(rt: Process, h: Host, context: Ptr, location: Option<Path>)
    returns (r: OptixResult)
    modifies rt`trace
    ensures CacheLocation.SetBehaviour(rt, h, V60, context, location, old(rt.trace), rt.trace, r)
  {
    r := CacheLocation.SetCacheLocation(rt, h, V60, context, location);
  }

  /** `optixDeviceContextGetCacheLocation_60` */
  method DeviceContextGetCacheLocation(rt: Process, h: Host, context: Ptr, location: array<char>)
    returns (r: OptixResult)
    modifies rt`trace, location
    ensures CacheLocation.GetBehaviour(rt, h, V60, context, old(rt.trace), old(location[..]),
                                       rt.trace, location[..], r)
  {
    r := CacheLocation.GetCacheLocation(rt, h, V60, context, location);
  }

  /** `reserved1_60`: calls the provider's own `reserved1`. */
  method Reserved1(rt: Process)
    modifies rt`trace
    ensures rt.trace == old(rt.trace) + [Called(Invoke(V60, Slot.Reserved1, []))]
  {
    Forwarding.ForwardVoid(rt, V60, Slot.Reserved1);
  }

  /** `reserved2_60`: calls the provider's own `reserved2`. */
  method Reserved2(rt: Process)
    modifies rt`trace
    ensures rt.trace == old(rt.trace) + [Called(Invoke(V60, Slot.Reserved2, []))]
  {
    Forwarding.ForwardVoid(rt, V60, Slot.Reserved2);
  }

  /** `optixDeviceContextDestroy_60`, one of the plain trampolines. */
  method DeviceContextDestroy(rt: Process, context: Ptr) returns (r: OptixResult)
    modifies rt`trace
    ensures var c := Invoke(V60, OptixDeviceContextDestroy, [Word(context)]);
            rt.trace == old(rt.trace) + [Called(c)] && r == rt.status(old(rt.trace), c)
  {
    r := Forwarding.ForwardStatus(rt, V60, OptixDeviceContextDestroy, [Word(context)]);
  }

  /** `optixGetErrorName_60`, a plain trampoline returning a string. */
  method GetErrorName(rt: Process, result: int) returns (name: Ptr)
    modifies rt`trace
    ensures var c := Invoke(V60, OptixGetErrorName, [Word(result)]);
            rt.trace == old(rt.trace) + [Called(c)] && name == rt.text(old(rt.trace), c)
  {
    name := Forwarding.ForwardText(rt, V60, OptixGetErrorName, [Word(result)]);
  }
}
