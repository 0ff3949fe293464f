/** `optixQueryFunctionTable_v`, written once for every ABI version: check
    the caller's declared table size, let the real library resolve its own
    table for that version, then overwrite the caller's table with the
    relay's trampolines. */
module TableBuilder {
  import opened OptixTypes
  import opened Runtime

  /** The provider call a table query makes for ABI `v`: the version number
      and the caller's options, unchanged. */
  function QueryCall(v: Abi, numOptions: nat, optionKeys: Ptr, optionValues: Ptr, sizeOfTable: nat): Call
  {
    TableQuery(AbiVersion(v), numOptions, optionKeys, optionValues, sizeOfTable)
  }

  /** The provider can tell the versions apart: a table query for one ABI
      never carries another ABI's version number, whatever the options. */
  lemma QueryCallNamesItsVersion(v: Abi, w: Abi, numOptions: nat, optionKeys: Ptr, optionValues: Ptr,
                                 sizeOfTable: nat, numOptions': nat, optionKeys': Ptr, optionValues': Ptr,
                                 sizeOfTable': nat)
    requires v != w
    ensures QueryCall(v, numOptions, optionKeys, optionValues, sizeOfTable)
            != QueryCall(w, numOptions', optionKeys', optionValues', sizeOfTable')
  {
  }

  /** What one table query does, as a relation between the provider trace
      and the caller's table before and after it, and its result `r`. */
  ghost predicate QueryBehaviour(rt: Process, v: Abi, numOptions: nat, optionKeys: Ptr, optionValues: Ptr,
                                 sizeOfTable: nat, traceBefore: seq<Event>, tableBefore: seq<Entry>,
                                 traceAfter: seq<Event>, tableAfter: seq<Entry>, r: OptixResult)
  {
    var n := |Slots(v)|;
    var c := QueryCall(v, numOptions, optionKeys, optionValues, sizeOfTable);
    |tableAfter| == |tableBefore| &&
    if sizeOfTable != TableBytes(v) then
      // rejected before the provider is asked or the table is touched
      r == ErrorFunctionTableSizeMismatch && traceAfter == traceBefore && tableAfter == tableBefore
    else
      // exactly one provider call, whose result is returned verbatim
      traceAfter == traceBefore + [Called(c)] && r == rt.status(traceBefore, c) &&
      if r == Success then
        n <= |tableBefore| && tableAfter[..n] == Layout(v) && tableAfter[n..] == tableBefore[n..]
      else
        tableAfter == tableBefore
  }

  /** The relay's table query. `table` is the caller's buffer; when the
      caller declares the right size it must really hold that many slots. */
  method QueryFunctionTable(rt: Process, v: Abi, numOptions: nat, optionKeys: Ptr, optionValues: Ptr,
                            table: array<Entry>, sizeOfTable: nat) returns (r: OptixResult)
    requires sizeOfTable == TableBytes(v) ==> |Slots(v)| <= table.Length
    modifies rt`trace, table
    ensures QueryBehaviour(rt, v, numOptions, optionKeys, optionValues, sizeOfTable,
                           old(rt.trace), old(table[..]), rt.trace, table[..], r)
  {
    if sizeOfTable != TableBytes(v) {
      return ErrorFunctionTableSizeMismatch;
    }
    r := rt.CallStatus(QueryCall(v, numOptions, optionKeys, optionValues, sizeOfTable));
    if r != Success {
      return;
    }
    var slots := Slots(v);
    forall i | 0 <= i < |slots| {
      table[i] := Trampoline(v, slots[i]);
    }
    assert table[..|slots|] == Layout(v);
    r := Success;
  }

  /** A successful query leaves, in every slot of the version's layout, the
      trampoline named like that slot: never the caller's old contents. */
  lemma QueryFillsEverySlot(rt: Process, v: Abi, numOptions: nat, optionKeys: Ptr, optionValues: Ptr,
                            sizeOfTable: nat, traceBefore: seq<Event>, tableBefore: seq<Entry>,
                            traceAfter: seq<Event>, tableAfter: seq<Entry>, i: nat)
    requires QueryBehaviour(rt, v, numOptions, optionKeys, optionValues, sizeOfTable,
                            traceBefore, tableBefore, traceAfter, tableAfter, Success)
    requires i < |Slots(v)|
    ensures sizeOfTable == TableBytes(v)
    ensures i < |tableAfter| && tableAfter[i] == Trampoline(v, Slots(v)[i])
  {
  }

  /** Querying the same version twice with success writes the same table
      both times, whatever the caller's buffer held before. */
  lemma QueryIdempotent(rt: Process, v: Abi, numOptions: nat, optionKeys: Ptr, optionValues: Ptr,
                        sizeOfTable: nat, t0: seq<Event>, tab0: seq<Entry>,
                        t1: seq<Event>, tab1: seq<Entry>, t2: seq<Event>, tab2: seq<Entry>)
    requires QueryBehaviour(rt, v, numOptions, optionKeys, optionValues, sizeOfTable, t0, tab0, t1, tab1, Success)
    requires QueryBehaviour(rt, v, numOptions, optionKeys, optionValues, sizeOfTable, t1, tab1, t2, tab2, Success)
    ensures tab2 == tab1
  {
  }
}
