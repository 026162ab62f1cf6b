/** Named presets: fixed import lists a module is expected to match.
    The only preset is "ewasm", the host functions of the ewasm execution
    environment, all imported from module "ethereum". */
module Presets {
  import opened Wrappers
  import opened Imports

  /** The host module every ewasm import comes from. */
  const EthereumModule: string := "ethereum"

  /** The number of host functions in the ewasm preset. */
  const EwasmSize: nat := 31

  /** The ewasm host functions, in declaration order. */
  function EwasmImports(): seq<ImportType> {
    [
      Function("ethereum", "useGas", FunctionType([I64], None)),
      Function("ethereum", "getGasLeft", FunctionType([], Some(I64))),
      Function("ethereum", "getAddress", FunctionType([I32], None)),
      Function("ethereum", "getExternalBalance", FunctionType([I32, I32], None)),
      Function("ethereum", "getBlockHash", FunctionType([I64, I32], Some(I32))),
      Function("ethereum", "call", FunctionType([I64, I32, I32, I32, I32], Some(I32))),
      Function("ethereum", "callCode", FunctionType([I64, I32, I32, I32, I32], Some(I32))),
      Function("ethereum", "callDelegate", FunctionType([I64, I32, I32, I32], Some(I32))),
      Function("ethereum", "callStatic", FunctionType([I64, I32, I32, I32], Some(I32))),
      Function("ethereum", "create", FunctionType([I64, I32, I32, I32], Some(I32))),
      Function("ethereum", "callDataCopy", FunctionType([I32, I32, I32], None)),
      Function("ethereum", "getCallDataSize", FunctionType([], Some(I32))),
      Function("ethereum", "getCodeSize", FunctionType([], Some(I32))),
      Function("ethereum", "externalCodeCopy", FunctionType([I32, I32, I32, I32], None)),
      Function("ethereum", "getCaller", FunctionType([I32], None)),
      Function("ethereum", "getCallValue", FunctionType([I32], None)),
      Function("ethereum", "getBlockDifficulty", FunctionType([I32], None)),
      Function("ethereum", "getBlockCoinbase", FunctionType([I32], None)),
      Function("ethereum", "getBlockNumber", FunctionType([], Some(I64))),
      Function("ethereum", "getBlockGasLimit", FunctionType([], Some(I64))),
      Function("ethereum", "getBlockTimestamp", FunctionType([], Some(I64))),
      Function("ethereum", "getTxGasPrice", FunctionType([I32], None)),
      Function("ethereum", "getTxOrigin", FunctionType([I32], None)),
      Function("ethereum", "storageStore", FunctionType([I32, I32], None)),
      Function("ethereum", "storageLoad", FunctionType([I32, I32], None)),
      Function("ethereum", "log", FunctionType([I32, I32, I32, I32, I32, I32, I32], None)),
      Function("ethereum", "getReturnDataSize", FunctionType([], Some(I32))),
      Function("ethereum", "returnDataCopy", FunctionType([I32, I32, I32], None)),
      Function("ethereum", "finish", FunctionType([I32, I32], None)),
      Function("ethereum", "revert", FunctionType([I32, I32], None)),
      Function("ethereum", "selfDestruct", FunctionType([I32], None))
    ]
  }

  /** True when every entry is a function imported from "ethereum". */
  ghost predicate AllEthereumFunctions(s: seq<ImportType>) {
    forall i :: 0 <= i < |s| ==> s[i].Kind() == FunctionKind && s[i].Module() == EthereumModule
  }

  /** The field names of the ewasm table, in declaration order. */
  const EwasmFieldNames: seq<string> := [
      "useGas", "getGasLeft", "getAddress", "getExternalBalance",
      "getBlockHash", "call", "callCode", "callDelegate",
      "callStatic", "create", "callDataCopy", "getCallDataSize",
      "getCodeSize", "externalCodeCopy", "getCaller", "getCallValue",
      "getBlockDifficulty", "getBlockCoinbase", "getBlockNumber", "getBlockGasLimit",
      "getBlockTimestamp", "getTxGasPrice", "getTxOrigin", "storageStore",
      "storageLoad", "log", "getReturnDataSize", "returnDataCopy",
      "finish", "revert", "selfDestruct"]

  /** The table's field-name column is exactly the declared list of names. */
  lemma EwasmFieldOrder()
    ensures FieldNames(EwasmImports()) == EwasmFieldNames
  {
  }

  /** No name occurs twice in the declared list. */
  lemma EwasmFieldNamesDistinct()
    ensures forall i, j :: 0 <= i < j < |EwasmFieldNames| ==> EwasmFieldNames[i] != EwasmFieldNames[j]
  {
  }

  /** The ewasm table holds 31 function imports from "ethereum", no two of
      them with the same field name. */
  lemma EwasmTableShape()
    ensures |EwasmImports()| == EwasmSize
    ensures AllEthereumFunctions(EwasmImports())
    ensures DistinctFields(EwasmImports())
  {
    EwasmFieldOrder();
    EwasmFieldNamesDistinct();
    DistinctFieldNames(EwasmImports(), EwasmFieldNames);
  }

  /** Builds the import list of a named preset; only "ewasm" is known and
      every other name is an error. */
  function WithPreset(preset: string): (r: Result<ImportList, ()>)
    ensures r.Success? <==> preset == "ewasm"
    ensures r.Success? ==> |r.value.Entries()| == EwasmSize
    ensures r.Success? ==> AllEthereumFunctions(r.value.Entries())
    ensures r.Success? ==> DistinctFields(r.value.Entries())
  {
    if preset == "ewasm" then
      EwasmTableShape();
      Success(ImportList(EwasmImports()))
    else
      Failure(())
  }

  /** In the ewasm preset every entry is found by its own field name, and
      only that entry is. */
  lemma EwasmLookupFindsEach(i: int)
    requires 0 <= i < EwasmSize
    ensures WithPreset("ewasm").value.LookupByField(EwasmImports()[i].Field()) == Some(EwasmImports()[i])
  {
  }

  /** Gas use takes one i64 and returns nothing. */
  lemma EwasmUseGas()
    ensures WithPreset("ewasm").value.LookupByField("useGas")
      == Some(Function(EthereumModule, "useGas", FunctionType([I64], None)))
  {
  }

  /** Gas left takes nothing and returns an i64. */
  lemma EwasmGetGasLeft()
    ensures WithPreset("ewasm").value.LookupByField("getGasLeft")
      == Some(Function(EthereumModule, "getGasLeft", FunctionType([], Some(I64))))
  {
  }

  /** A name the ewasm interface does not declare finds nothing. */
  lemma EwasmUnknownField()
    ensures WithPreset("ewasm").value.LookupByField("doesNotExist") == None
  {
    EwasmFieldOrder();
    assert "doesNotExist" !in EwasmFieldNames;
    LookupAbsentName(EwasmImports(), EwasmFieldNames, "doesNotExist");
  }
}
