# Import interface of libchisel

This project models, in Dafny, the import interface of libchisel
(`libchisel/src/imports.rs`), the WebAssembly linting library of wasm-chisel.
It also proves properties of the model. There are three parts.

- `ImportType` describes one import declaration. It is a closed sum of four
  kinds: `Function`, `Global`, `Memory` and `Table`. Each kind carries a
  host-module name and a field name, and only `Function` carries a signature.
  `Module()` and `Field()` are defined for every kind. `Signature()` fails on
  the three non-function kinds.
- `ImportList` is an ordered, immutable list of imports. You build it with
  `WithEntries`, read it with `Entries()`, and query it with
  `LookupByField(name)`. The lookup scans in order and returns the first entry
  whose field name is `name`. It ignores the module name.
- `WithPreset(name)` builds the list for a named preset. The only preset is
  `"ewasm"`: 31 function imports from host module `"ethereum"`, covering the
  ewasm host functions. Any other name fails.

Files:

- `wrappers.dfy`: `Option` and `Result`, which stand in for Rust's types.
- `imports.dfy`: module `Imports` with `ImportType`, `ImportList`, the search
  `FindField` and the lemmas about lookup.
- `presets.dfy`: module `Presets` with the ewasm table, `WithPreset` and the
  lemmas about the table.

The ewasm table declares 31 functions.

Both errors in the code are `Err(())`, so they carry no payload. The model
uses `Failure(())` for both.

## Model

| member | source | states |
|---|---|---|
| Imports.AccessorsOfMake | libchisel/src/imports.rs:16-42 | For every kind, an import built from a module name, a field name and a signature returns those names from `Module()` and `Field()`. `Signature()` returns the signature for a function and an error for a global, memory or table. |
| Imports.MakeOfAccessors | libchisel/src/imports.rs:9-42 | Every import can be rebuilt from its kind, `Module()`, `Field()` and (for a function) its signature, so the accessors lose nothing. |
| Imports.ImportType.Module | libchisel/src/imports.rs:17-25 | No contract of its own. `AccessorsOfMake` and `MakeOfAccessors` state that it returns the module name for every kind. |
| Imports.ImportType.Field | libchisel/src/imports.rs:27-35 | No contract of its own. `AccessorsOfMake` and `MakeOfAccessors` state that it returns the field name for every kind. |
| Imports.ImportType.Signature | libchisel/src/imports.rs:37-42 | Succeeds exactly when the import is a function. On success, the function with this module, field and returned signature is the import itself. |
| Imports.FindField | libchisel/src/imports.rs:54-74 | A found position holds an entry with the requested field name, and no earlier entry has that name. Nothing is found exactly when no entry has that name. |
| Imports.ImportList.LookupByField | libchisel/src/imports.rs:54-74 | A returned entry is the first entry of the list with that field name. The result is None exactly when no entry has that field name. |
| Imports.ImportList.Entries | libchisel/src/imports.rs:46-48 | No contract of its own. `WithEntries` and `WithEntriesOfEntries` state that it gives back the entries the list was built from, in order. |
| Imports.WithEntries | libchisel/src/imports.rs:46-52 | Building a list from entries and viewing it gives back the same entries, in the same order. |
| Imports.WithEntriesOfEntries | libchisel/src/imports.rs:46-52 | Viewing a list and building from that view gives back the same list. |
| Imports.LookupAbsentName | libchisel/src/imports.rs:57-73 | A name that occurs nowhere in the list's field-name column finds nothing. |
| Imports.LookupInEmpty | libchisel/src/imports.rs:54-74 | The empty list finds nothing for any name. |
| Imports.LookupFirstWins | libchisel/src/imports.rs:57-72 | When no earlier entry has the name, an entry is found by its field name wherever it sits and whatever follows it. |
| Imports.LookupSharedFieldName | libchisel/src/imports.rs:57-72 | Take two entries of different kinds and modules with the same field name. Whichever order they are given in, the first one is returned. |
| Imports.FindFieldIgnoresModules | libchisel/src/imports.rs:57-72 | Two lists with the same field name at every position give the same lookup position for every name. Modules, kinds and signatures play no part. |
| Imports.LookupDistinct | libchisel/src/imports.rs:54-74 | When field names are pairwise distinct, looking up an entry's field name returns that entry. |
| Presets.EwasmImports | libchisel/src/imports.rs:83-300 | No contract of its own: it is the ewasm table. `EwasmFieldOrder`, `EwasmTableShape`, `EwasmUseGas` and `EwasmGetGasLeft` state its contents. |
| Presets.EwasmFieldOrder | libchisel/src/imports.rs:83-300 | The ewasm table's field names, in order, are the declared list of 31 names. |
| Presets.EwasmFieldNamesDistinct | libchisel/src/imports.rs:83-300 | No ewasm field name is declared twice. |
| Presets.EwasmTableShape | libchisel/src/imports.rs:83-300 | The ewasm table has 31 entries. Every entry is a function imported from "ethereum", and field names are pairwise distinct. |
| Presets.WithPreset | libchisel/src/imports.rs:77-303 | Succeeds exactly for "ewasm" and fails for every other name. On success the list has 31 entries, every entry is a function from "ethereum", and no field name repeats. |
| Presets.EwasmLookupFindsEach | libchisel/src/imports.rs:83-300 | In the ewasm preset, each entry's field name finds that entry and no other. |
| Presets.EwasmUseGas | libchisel/src/imports.rs:84-88 | In the ewasm preset, "useGas" finds the function imported from "ethereum" under that name, with one i64 parameter and no result. |
| Presets.EwasmGetGasLeft | libchisel/src/imports.rs:89-93 | In the ewasm preset, "getGasLeft" finds the function imported from "ethereum" under that name, with no parameters and an i64 result. |
| Presets.EwasmUnknownField | libchisel/src/imports.rs:83-300 | In the ewasm preset, "doesNotExist" finds nothing. |

## Left out

- `FunctionType` and `ValueType` come from the external parity_wasm crate. They are replaced by a local record (parameter list plus optional result) and a local enum. The enum has the four WebAssembly value types, and only I32 and I64 appear in the preset.
- Rust lifetimes and borrowing are not modelled: the `&'a str` fields and the references returned by `entries` and `lookup_by_field`. The model uses owned strings and returns values.
- The `ModulePreset` trait is declared in the crate root, which is not part of this model. `with_preset` is modelled as the plain function `WithPreset`.
- Decoding binary modules, the lint and fix passes, and the command-line interface are outside this file and outside this model.
