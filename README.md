# Tact wallet packers and contract assembler in Dafny

This project models two pieces of the Tact compiler repository and proves their behaviour.

- **The wallet's client packers** (`src/examples/wallet.tact.api.ts`).
  - `packSendParameters`, `packTransfer` and `packTransferMessage` each build a TON cell, one field at a time, through the `ton` library's `Builder`.
  - `Wallet_init` builds the ordered init stack that it hands to deployment.
  - Each packer is an imperative method over a `Builder` class, whose `bits` and `refs` fields the store methods append to.
  - Each packer is proved equal to a layout function. The layout gives the exact cell when every field fits, and the library's out-of-range error otherwise.
  - Each layout has a decoder that reads every field back from its bit offset, and a round-trip lemma for that decoder.
- **The module assembler `ContractGen`** (`src/codegen/contract.ts`).
  - `writeProgram` looks up the target contract among the resolved types by kind and by name, and fails when there is no such contract.
  - It then runs a fixed sequence of passes over one growing list of module entries. Most of these passes are stubs.
  - The contract-functions pass appends one translated function for each function of every declared contract, in order.
  - A ghost trace of the passes that have run lets the contracts state the order of the passes. It also shows that the lookup happens before any pass.

The modules are:

| file | module | content |
|---|---|---|
| `wrappers.dfy` | `Wrappers` | `Option`, `Result`, `Outcome` |
| `bits.dfy` | `Bits` | powers of two; big-endian unsigned and two's-complement fixed-width encodings with their inverses |
| `cells.dfy` | `Cells` | the cell value and its bounds (1023 bits, 4 references, from section 3.1.1 of the TVM whitepaper); `addr_std` addresses; `VarUInteger 16` coins; the `Builder` class |
| `wallet_api.dfy` | `WalletApi` | the three packers, their layouts, decoders and round trips; `Wallet_init` |
| `contract_gen.dfy` | `ContractCodegen` | the type lookup, the entries the passes produce, the `FuncModule` and `ContractGen` classes |

Every `store*` call of the `ton` library can throw, for a value outside its width or for a cell that would overflow. Each such call is modelled as a builder method that returns an `Outcome`: it either appends and passes, or leaves the builder unchanged and fails. A packer turns the first failure into `Err(...)`. A missing contract makes `writeProgram` throw; the model returns `Err(ContractNotFound(name))` instead.

## Model

| member | source | states |
|---|---|---|
| `WalletApi.PackSendParameters` | src/examples/wallet.tact.api.ts:14-27 | Returns exactly `SendParametersLayout(src)`. It succeeds iff the address fits and `value` and `mode` both fit in 257-bit two's complement; otherwise it returns the out-of-range error. |
| `WalletApi.SendParametersCell` | src/examples/wallet.tact.api.ts:14-27 | The cell stays within the cell bounds. It has 1 + 267 + 257 + 257 + 1 = 783 bits. It has exactly one reference iff a body is present, and never more than one. |
| `WalletApi.SendParametersOffsets` | src/examples/wallet.tact.api.ts:16-25 | `bounce` is bit 0 and the address is bits 1..268. `value` decodes as signed from bits 268..525 and `mode` from bits 525..782. Bit 782 is the presence bit. |
| `WalletApi.SendParametersRoundTrip` | src/examples/wallet.tact.api.ts:14-27 | Decoding the packed cell at the fixed offsets gives back every field, including the optional body. |
| `WalletApi.StoreTransferFields` | src/examples/wallet.tact.api.ts:40-43 | The four field stores succeed iff 0 ≤ seqno < 2^32, 0 ≤ mode < 2^8, the address fits and the amount is a valid coins value. On success the builder holds exactly those encodings in declared order, with no references. |
| `WalletApi.PackTransfer` | src/examples/wallet.tact.api.ts:38-51 | Returns exactly `TransferLayout(src)`: it succeeds iff all four fields fit, and otherwise returns the out-of-range error. |
| `WalletApi.TransferCell` | src/examples/wallet.tact.api.ts:38-51 | The cell stays within the cell bounds. It has 307 + (coins width) + 1 ≤ 432 bits. It has exactly one reference iff a body is present. |
| `WalletApi.TransferOffsets` | src/examples/wallet.tact.api.ts:40-49 | `seqno` reads back as unsigned from bits 0..32 and `mode` from bits 32..40. The address is bits 40..307. Reading coins at bit 307 yields the amount and its width. The bit after the coins is the presence bit. |
| `WalletApi.TransferRoundTrip` | src/examples/wallet.tact.api.ts:29-51 | Decoding the packed transfer gives back every field, in declared order. |
| `Cells.CoinsFitRange` | src/examples/wallet.tact.api.ts:43 | `storeCoins` accepts an amount iff 0 ≤ amount < 2^120, which is at most 15 bytes behind the 4-bit length. |
| `Cells.CoinsRoundTrip` | src/examples/wallet.tact.api.ts:43 | Reading a coins encoding, whatever bits follow it, gives back the amount and exactly the number of bits written. |
| `Cells.AddressRoundTrip` | src/examples/wallet.tact.api.ts:42 | The 267-bit `addr_std` encoding of an address reads back as the same workchain and hash. |
| `Bits.UintValueOfBits` | src/examples/wallet.tact.api.ts:40-41 | A `w`-bit big-endian unsigned encoding of a value below 2^w decodes back to that value. |
| `Bits.IntValueOfBits` | src/examples/wallet.tact.api.ts:18-19 | A two's-complement encoding of a value that fits its width decodes back to that value. |
| `WalletApi.OpcodeFits` | src/examples/wallet.tact.api.ts:61 | The opcode 1843760589 fits in a 32-bit signed integer, because it is below 2^31. |
| `WalletApi.PackTransferMessage` | src/examples/wallet.tact.api.ts:59-65 | Returns exactly `TransferMessageLayout(src)`. It fails iff `packTransfer` of the inner transfer fails; the opcode and the signature reference never fail. |
| `WalletApi.TransferMessageCell` | src/examples/wallet.tact.api.ts:59-65 | The cell stays within the cell bounds. It has 1 or 2 references, and the first is the signature. It has 2 references iff the transfer carries a body. |
| `WalletApi.TransferMessageInlinesTransfer` | src/examples/wallet.tact.api.ts:61-63 | The first 32 bits decode to the opcode. The remaining bits are exactly the transfer cell's bits. The references are the signature followed by the transfer cell's references, so the transfer is copied inline and not stored as a child. |
| `WalletApi.TransferMessageRoundTrip` | src/examples/wallet.tact.api.ts:59-65 | Decoding checks the opcode, then gives back the signature and the whole transfer. |
| `WalletApi.WalletInit` | src/examples/wallet.tact.api.ts:67-73 | The init function is `init_Wallet`. The stack reads back as exactly two integer items, `key` and then `walletId`, with their values unchanged. |
| `ContractCodegen.ContractGen.constructor` | src/codegen/contract.ts:11-15 | The generator keeps `ctx`, `contractName` and `abiName` as given, and no pass has run yet. |
| `ContractCodegen.ContractGen.FromTact` | src/codegen/contract.ts:17-23 | Returns a fresh generator holding the three arguments unchanged. |
| `ContractCodegen.ContractsMembers` | src/codegen/contract.ts:87 | The filter keeps a type iff it is in the input and has kind contract. |
| `ContractCodegen.ContractsAppend` | src/codegen/contract.ts:87 | The filter keeps the original order: filtering a concatenation concatenates the filtered parts. |
| `ContractCodegen.FindByNameFirst` | src/codegen/contract.ts:88 | `find` succeeds iff some element has the name. When it succeeds it returns an element with no earlier element of that name. |
| `ContractCodegen.FindContractIff` | src/codegen/contract.ts:86-91 | The lookup succeeds iff some type has both kind contract and the target name. What it finds is such a type. A struct or message with that name does not satisfy it. |
| `ContractCodegen.FuncModule.constructor` | src/codegen/contract.ts:84 | A new module has kind `"module"` and no entries. |
| `ContractCodegen.ContractGen.AddStdlib` | src/codegen/contract.ts:28-30 | Leaves the entries unchanged and records its pass. |
| `ContractCodegen.ContractGen.AddSerializers` | src/codegen/contract.ts:32-36 | Walks the sorted types, leaves the entries unchanged and records its pass. |
| `ContractCodegen.ContractGen.AddAccessors` | src/codegen/contract.ts:38-40 | Leaves the entries unchanged and records its pass. |
| `ContractCodegen.ContractGen.AddInitSerializer` | src/codegen/contract.ts:42-44 | Leaves the entries unchanged and records its pass. |
| `ContractCodegen.ContractGen.AddStorageFunctions` | src/codegen/contract.ts:46-48 | Leaves the entries unchanged and records its pass. |
| `ContractCodegen.ContractGen.AddStaticFunctions` | src/codegen/contract.ts:50-52 | Leaves the entries unchanged and records its pass. |
| `ContractCodegen.ContractGen.AddExtensions` | src/codegen/contract.ts:54-56 | Leaves the entries unchanged and records its pass. |
| `ContractCodegen.ContractGen.AddMain` | src/codegen/contract.ts:72-74 | Leaves the entries unchanged and records its pass. |
| `ContractCodegen.ContractGen.AddContractFunctions` | src/codegen/contract.ts:62-70 | The entries become the old entries followed by one translated function for each of the contract's functions, in iteration order. |
| `ContractCodegen.ContractGen.AddComment` | src/codegen/contract.ts:79-81 | Appends exactly one comment at the end, and every earlier entry is unchanged. |
| `ContractCodegen.ContractGen.AddEveryContractFunctions` | src/codegen/contract.ts:100 | The `forEach` appends, contract after contract, the entries of every contract, not only the target's. It records one contract-functions pass per contract. |
| `ContractCodegen.ContractsEntriesLength` | src/codegen/contract.ts:62-70 | The number of entries is the total number of functions over all contracts. |
| `ContractCodegen.ContractsEntriesAppend` | src/codegen/contract.ts:100 | The entries of a concatenation of contract lists are the entries of the first list followed by those of the second. |
| `ContractCodegen.ContractEntriesAt` | src/codegen/contract.ts:100 | The functions of the k-th contract occupy one contiguous run of the entries. The run starts right after the functions of the contracts before it. |
| `ContractCodegen.ContractGen.WriteProgram` | src/codegen/contract.ts:83-104 | Fails with `ContractNotFound` iff no type has both kind contract and the target name; on failure no pass has run. On success it returns a fresh module of kind `"module"`. Its entries are the concatenated functions of all contracts in type order. The passes ran in the order stdlib, serializers, accessors, init serializer, storage, static, extensions, one contract-functions pass per contract, then main. |

## Left out

- `deploy` and the base64 code blob of `Wallet_init` are foreign calls and opaque data. `WalletInit` returns the init function name and the stack it would hand to `deploy`.
- `Slice.toCell` is a library call. The signature is modelled as the cell it yields.
- The `BN`/`BigInt` decimal round trips (`new BN(x.toString(10), 10)`) are modelled as the identity on integers.
- `storeAddress` is modelled for `addr_std` without anycast only. `addr_none`, `addr_var` and anycast are left out because every address the packers receive is non-null.
- Builder store calls are modelled as updates in place on one `Builder` object, not as builders that are returned and reassigned.
- Every library exception is modelled as an error value. A failed store leaves the builder as it was. The packers never see the bit- and reference-overflow errors, because their layouts stay within the bounds.
- The library's cell hashing and serialisation to bags of cells are left out; only the append semantics of the builder is modelled.
- `getAllTypes`, `getSortedTypes` and `FunctionGen.writeFunction` are foreign resolvers and translators. Their results are fields of `CodegenContext`: the types in declaration order, the sorted types, and a translation function that is not otherwise constrained.
- A contract's functions are a `Map` in the source. The model uses a sequence in that map's iteration order.
- A function is modelled by its name only, and a comment by its text. The target-language syntax tree is not part of this model.
- The decoders (`DecodeSendParameters`, `DecodeTransfer`, `DecodeTransferMessage`, `ReadInitArgs`, `ReadCoins`, `ReadAddress`) have no counterpart in these files. They are reference inverses, written so that the layouts can be proved decodable.
- The stub passes (`addStdlib`, `addAccessors`, `addInitSerializer`, `addStorageFunctions`, `addStaticFunctions`, `addExtensions`, `addMain`) are `// TODO` in the source and add nothing. Serializer generation, storage, dispatch, opcode derivation and type sorting have no code there, so none of them is modelled.
- The repository's design describes continuation chaining into child cells when a container overflows. The packers here have fixed layouts that never overflow and contain no chaining, so the model follows the code and leaves it out.
