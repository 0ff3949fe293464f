/** The relay for OptiX ABI 22 (SDK 7.0.0): its exported table query and the
    trampolines that do more than forward. */
module Abi22 {
  import opened OptixTypes
  import opened WineHost
  import opened Runtime
  import TableBuilder
  import CacheLocation
  import Forwarding

  /** `optixQueryFunctionTable_22` */
  method QueryFunctionTable(rt: Process, numOptions: nat, optionKeys: Ptr, optionValues: Ptr,
                            table: array<Entry>, sizeOfTable: nat) returns (r: OptixResult)
    requires sizeOfTable == TableBytes(V22) ==> |Slots22| <= table.Length
    modifies rt`trace, table
    ensures TableBuilder.QueryBehaviour(rt, V22, numOptions, optionKeys, optionValues, sizeOfTable,
                                        old(rt.trace), old(table[..]), rt.trace, table[..], r)
    ensures r == Success ==> |Slots22| == 36 && table[34] == Trampoline(V22, OptixDenoiserSetModel)
  {
    r := TableBuilder.QueryFunctionTable(rt, V22, numOptions, optionKeys, optionValues, table, sizeOfTable);
    if r == Success {
      TableBuilder.QueryFillsEverySlot(rt, V22, numOptions, optionKeys, optionValues, sizeOfTable,
                                       old(rt.trace), old(table[..]), rt.trace, table[..], 34);
    }
  }

  /** The copy of the caller's options that `optixDeviceContextCreate_22`
      passes on: ABI 22 cannot relay log callbacks, so a requested callback
      or severity level is switched off; everything else is kept. */
  function NormalizeOptions(options: Options22): (copy: Options22)
    ensures copy.logCallbackFunction == NULL && copy.logCallbackLevel == 0
    ensures copy.logCallbackData == options.logCallbackData
    ensures options.logCallbackFunction == NULL && options.logCallbackLevel == 0 ==> copy == options
  {
    if options.logCallbackFunction != NULL || options.logCallbackLevel != 0 then
      options.(logCallbackFunction := NULL, logCallbackLevel := 0)
    else
      options
  }

  function CreateCall(fromContext: Ptr, options: Options22, context: Ptr): Call
  {
    Invoke(V22, OptixDeviceContextCreate, [Word(fromContext), Options22Arg(NormalizeOptions(options)), Word(context)])
  }

  /** `optixDeviceContextCreate_22`: the caller's record is a value, so only
      the normalised copy reaches the provider, and the call proceeds. */
  method DeviceContextCreate(rt: Process, fromContext: Ptr, options: Options22, context: Ptr)
    returns (r: OptixResult)
    modifies rt`trace
    ensures rt.trace == old(rt.trace) + [Called(CreateCall(fromContext, options, context))]
    ensures r == rt.status(old(rt.trace), CreateCall(fromContext, options, context))
  {
    r := rt.CallStatus(CreateCall(fromContext, options, context));
  }

  /** `optixDeviceContextSetLogCallback_22`, a stub: it reports success and,
      having no `modifies` clause, cannot call the provider. */
  method DeviceContextSetLogCallback(rt: Process, context: Ptr, callbackFunction: Ptr, callbackData: Ptr,
                                     callbackLevel: nat) returns (r: OptixResult)
    ensures r == Success
  {
    r := Success;
  }

  /** `optixDeviceContextSetCacheLocation_22` */
  method DeviceContextSetCacheLocation(rt: Process, h: Host, context: Ptr, location: Option<Path>)
    returns (r: OptixResult)
    modifies rt`trace
    ensures CacheLocation.SetBehaviour(rt, h, V22, context, location, old(rt.trace), rt.trace, r)
  {
    r := CacheLocation.SetCacheLocation(rt, h, V22, context, location);
  }

  /** `optixDeviceContextGetCacheLocation_22` */
  method DeviceContextGetCacheLocation(rt: Process, h: Host, context: Ptr, location: array<char>)
    returns (r: OptixResult)
    modifies rt`trace, location
    ensures CacheLocation.GetBehaviour(rt, h, V22, context, old(rt.trace), old(location[..]),
                                       rt.trace, location[..], r)
  {
    r := CacheLocation.GetCacheLocation(rt, h, V22, context, location);
  }

  /** `optixDenoiserSetModel_22`, one of the plain trampolines. */
  method DenoiserSetModel(rt: Process, handle: Ptr, kind: int, data: Ptr, sizeInBytes: nat)
    returns (r: OptixResult)
    modifies rt`trace
    ensures var c := Invoke(V22, OptixDenoiserSetModel, [Word(handle), Word(kind), Word(data), Word(sizeInBytes)]);
            rt.trace == old(rt.trace) + [Called(c)] && r == rt.status(old(rt.trace), c)
  {
    r := Forwarding.ForwardStatus(rt, V22, OptixDenoiserSetModel,
                                  [Word(handle), Word(kind), Word(data), Word(sizeInBytes)]);
  }
}
