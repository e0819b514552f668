/**
 * The module assembler of the code generator: `ContractGen` looks up the target
 * contract among all declared types, then runs its passes in a fixed order over
 * one growing list of module entries.
 *
 * The type resolver (`getAllTypes`), the type sorter (`getSortedTypes`) and the
 * function translator (`FunctionGen.writeFunction`) are not part of this model;
 * their results are fields of the `CodegenContext` given to the generator.
 */
module ContractCodegen {
  import opened Wrappers

  datatype TypeKind = ContractKind | StructKind | MessageKind

  /** A function declared in the source language; its body is not modelled. */
  datatype TactFunction = TactFunction(name: string)

  /** A target-language function, as produced by the function translator. */
  datatype FuncFunction = FuncFunction(name: string)

  /** A resolved type; `functions` lists its functions in iteration order. */
  datatype TypeDescription = TypeDescription(
    kind: TypeKind, name: string, functions: seq<TactFunction>)

  datatype CodegenContext = CodegenContext(
    allTypes: seq<TypeDescription>,              // getAllTypes, in declaration order
    sortedTypes: seq<TypeDescription>,           // getSortedTypes
    writeFunction: TactFunction -> FuncFunction) // FunctionGen.writeFunction

  datatype ModuleEntry = Comment(text: string) | Function(fn: FuncFunction)

  datatype CodegenError = ContractNotFound(contractName: string)

  /** The passes of `writeProgram`, recorded in the order they run. */
  datatype Pass =
    | Stdlib | Serializers | Accessors | InitSerializer | StorageFunctions
    | StaticFunctions | Extensions | ContractFunctions(contract: string) | Main

  // ---------------------------------------------------------------------------
  // Looking up the target contract

  /** The types of kind contract, in their original order. */
  function Contracts(ts: seq<TypeDescription>): (cs: seq<TypeDescription>)
    ensures |cs| <= |ts|
  {
    if ts == [] then []
    else (if ts[0].kind == ContractKind then [ts[0]] else []) + Contracts(ts[1..])
  }

  /** Exactly the types of kind contract are kept. */
  lemma {:induction false} ContractsMembers(ts: seq<TypeDescription>)
    ensures forall c :: c in Contracts(ts) ==> c in ts && c.kind == ContractKind
    ensures forall t :: t in ts && t.kind == ContractKind ==> t in Contracts(ts)
  {
    if ts != [] {
      ContractsMembers(ts[1..]);
    }
  }

  /** Filtering keeps order: it distributes over concatenation. */
  lemma {:induction false} ContractsAppend(a: seq<TypeDescription>, b: seq<TypeDescription>)
    ensures Contracts(a + b) == Contracts(a) + Contracts(b)
  {
    if a != [] {
      assert (a + b)[1..] == a[1..] + b;
      ContractsAppend(a[1..], b);
    } else {
      assert a + b == b;
    }
  }

  /** The first type in `ts` named `name`. */
  function FindByName(ts: seq<TypeDescription>, name: string): (r: Option<TypeDescription>)
    ensures r.Some? ==> r.value in ts && r.value.name == name
  {
    if ts == [] then None
    else if ts[0].name == name then Some(ts[0])
    else FindByName(ts[1..], name)
  }

  /** The search succeeds exactly when some type has the name, and finds the first such. */
  lemma {:induction false} FindByNameFirst(ts: seq<TypeDescription>, name: string)
    ensures FindByName(ts, name).Some? <==> exists i :: 0 <= i < |ts| && ts[i].name == name
    ensures FindByName(ts, name).Some? ==>
              exists i :: 0 <= i < |ts| && ts[i] == FindByName(ts, name).value
                          && forall j :: 0 <= j < i ==> ts[j].name != name
  {
    if ts != [] && ts[0].name != name {
      FindByNameFirst(ts[1..], name);
      var r := FindByName(ts[1..], name);
      if r.Some? {
        var i :| 0 <= i < |ts[1..]| && ts[1..][i] == r.value
                 && forall j :: 0 <= j < i ==> ts[1..][j].name != name;
        assert ts[i + 1] == r.value;
      }
      if exists i :: 0 <= i < |ts| && ts[i].name == name {
        var i :| 0 <= i < |ts| && ts[i].name == name;
        assert ts[1..][i - 1].name == name;
      }
    }
  }

  /** The target contract: the first contract named `name`. */
  function FindContract(ts: seq<TypeDescription>, name: string): (r: Option<TypeDescription>)
  {
    FindByName(Contracts(ts), name)
  }

  /** Only a contract can be the target: a struct or message of that name is not. */
  lemma FindContractIff(ts: seq<TypeDescription>, name: string)
    ensures FindContract(ts, name).Some?
            <==> exists t :: t in ts && t.kind == ContractKind && t.name == name
    ensures FindContract(ts, name).Some? ==>
              FindContract(ts, name).value.kind == ContractKind
              && FindContract(ts, name).value.name == name
              && FindContract(ts, name).value in ts
  {
    var cs := Contracts(ts);
    ContractsMembers(ts);
    FindByNameFirst(cs, name);
    if exists t :: t in ts && t.kind == ContractKind && t.name == name {
      var t :| t in ts && t.kind == ContractKind && t.name == name;
      var i :| 0 <= i < |cs| && cs[i] == t;
    }
  }

  // ---------------------------------------------------------------------------
  // The entries the contract-functions pass appends

  /** One translated function per source function, in order. */
  function FunctionEntries(fs: seq<TactFunction>, write: TactFunction -> FuncFunction): (es: seq<ModuleEntry>)
    ensures |es| == |fs|
  {
    seq(|fs|, k requires 0 <= k < |fs| => Function(write(fs[k])))
  }

  /** The entries of every contract in `cs`, contract after contract. */
  function ContractsEntries(cs: seq<TypeDescription>, write: TactFunction -> FuncFunction): seq<ModuleEntry>
  {
    if cs == [] then []
    else ContractsEntries(cs[..|cs| - 1], write) + FunctionEntries(cs[|cs| - 1].functions, write)
  }

  /** How many functions the contracts in `cs` declare in all. */
  function TotalFunctions(cs: seq<TypeDescription>): nat
  {
    if cs == [] then 0 else TotalFunctions(cs[..|cs| - 1]) + |cs[|cs| - 1].functions|
  }

  lemma {:induction false} ContractsEntriesLength(cs: seq<TypeDescription>, write: TactFunction -> FuncFunction)
    ensures |ContractsEntries(cs, write)| == TotalFunctions(cs)
  {
    if cs != [] {
      ContractsEntriesLength(cs[..|cs| - 1], write);
    }
  }

  lemma {:induction false} ContractsEntriesAppend(a: seq<TypeDescription>, b: seq<TypeDescription>,
                                                 write: TactFunction -> FuncFunction)
    ensures ContractsEntries(a + b, write) == ContractsEntries(a, write) + ContractsEntries(b, write)
    decreases |b|
  {
    if b == [] {
      assert a + b == a;
    } else {
      var ab, b' := a + b, b[..|b| - 1];
      assert ab[..|ab| - 1] == a + b' && ab[|ab| - 1] == b[|b| - 1];
      ContractsEntriesAppend(a, b', write);
    }
  }

  lemma {:induction false} TotalFunctionsAppend(a: seq<TypeDescription>, b: seq<TypeDescription>)
    ensures TotalFunctions(a + b) == TotalFunctions(a) + TotalFunctions(b)
    decreases |b|
  {
    if b == [] {
      assert a + b == a;
    } else {
      var ab, b' := a + b, b[..|b| - 1];
      assert ab[..|ab| - 1] == a + b' && ab[|ab| - 1] == b[|b| - 1];
      TotalFunctionsAppend(a, b');
    }
  }

  /**
   * The functions of the `k`-th contract, every contract and not only the
   * target, occupy one contiguous run of the entries, right after those of the
   * contracts before it.
   */
  lemma ContractEntriesAt(cs: seq<TypeDescription>, k: nat, write: TactFunction -> FuncFunction)
    requires k < |cs|
    ensures var es := ContractsEntries(cs, write);
      var start := TotalFunctions(cs[..k]);
      && start + |cs[k].functions| <= |es|
      && es[start..start + |cs[k].functions|] == FunctionEntries(cs[k].functions, write)
  {
    var before, after := cs[..k], cs[k + 1..];
    assert cs == before + [cs[k]] + after;
    ContractsEntriesAppend(before, [cs[k]], write);
    ContractsEntriesAppend(before + [cs[k]], after, write);
    assert [cs[k]][..0] == [];
    ContractsEntriesLength(before, write);
  }

  /** The passes of a successful `writeProgram`, in order. */
  function ContractPasses(cs: seq<TypeDescription>): (ps: seq<Pass>)
    ensures |ps| == |cs|
    ensures forall k :: 0 <= k < |cs| ==> ps[k] == ContractFunctions(cs[k].name)
  {
    seq(|cs|, k requires 0 <= k < |cs| => ContractFunctions(cs[k].name))
  }

  /** Extending the processed prefix by one contract extends entries and passes by its share. */
  lemma ContractsPrefixStep(cs: seq<TypeDescription>, i: nat, write: TactFunction -> FuncFunction)
    requires i < |cs|
    ensures ContractsEntries(cs[..i + 1], write)
            == ContractsEntries(cs[..i], write) + FunctionEntries(cs[i].functions, write)
    ensures ContractPasses(cs[..i + 1]) == ContractPasses(cs[..i]) + [ContractFunctions(cs[i].name)]
  {
    assert cs[..i + 1][..i] == cs[..i];
  }

  function ProgramPasses(cs: seq<TypeDescription>): seq<Pass>
  {
    [Stdlib, Serializers, Accessors, InitSerializer, StorageFunctions, StaticFunctions, Extensions]
      + ContractPasses(cs) + [Main]
  }

  /** Appending the passes one at a time builds `ProgramPasses`. */
  lemma ProgramPassesStepwise(p: seq<Pass>, cs: seq<TypeDescription>)
    ensures p + [Stdlib] + [Serializers] + [Accessors] + [InitSerializer] + [StorageFunctions]
              + [StaticFunctions] + [Extensions] + ContractPasses(cs) + [Main]
            == p + ProgramPasses(cs)
  {
  }

  // ---------------------------------------------------------------------------

  /** The generated module: its entries are appended to in place by the passes. */
  class FuncModule {
    const kind: string
    var entries: seq<ModuleEntry>

    constructor ()
      ensures kind == "module" && entries == []
    {
      kind := "module";
      entries := [];
    }
  }

  class ContractGen {
    const ctx: CodegenContext
    const contractName: string
    const abiName: string
    /** The passes run so far, oldest first. */
    ghost var passes: seq<Pass>

    constructor (ctx: CodegenContext, contractName: string, abiName: string)
      ensures this.ctx == ctx && this.contractName == contractName && this.abiName == abiName
      ensures passes == []
    {
      this.ctx := ctx;
      this.contractName := contractName;
      this.abiName := abiName;
      passes := [];
    }

    static method FromTact(ctx: CodegenContext, contractName: string, abiName: string)
      returns (g: ContractGen)
      ensures fresh(g)
      ensures g.ctx == ctx && g.contractName == contractName && g.abiName == abiName
      ensures g.passes == []
    {
      g := new ContractGen(ctx, contractName, abiName);
    }

    method AddStdlib(m: FuncModule)
      modifies this
      ensures m.entries == old(m.entries)
      ensures passes == old(passes) + [Stdlib]
    {
      passes := passes + [Stdlib];
    }

    /** Walks the sorted types; it emits nothing for them yet. */
    method AddSerializers(m: FuncModule)
      modifies this
      ensures m.entries == old(m.entries)
      ensures passes == old(passes) + [Serializers]
    {
      var sortedTypes := ctx.sortedTypes;
      for i := 0 to |sortedTypes| {
      }
      passes := passes + [Serializers];
    }

    method AddAccessors(m: FuncModule)
      modifies this
      ensures m.entries == old(m.entries)
      ensures passes == old(passes) + [Accessors]
    {
      passes := passes + [Accessors];
    }

    method AddInitSerializer(m: FuncModule)
      modifies this
      ensures m.entries == old(m.entries)
      ensures passes == old(passes) + [InitSerializer]
    {
      passes := passes + [InitSerializer];
    }

    method AddStorageFunctions(m: FuncModule)
      modifies this
      ensures m.entries == old(m.entries)
      ensures passes == old(passes) + [StorageFunctions]
    {
      passes := passes + [StorageFunctions];
    }

    method AddStaticFunctions(m: FuncModule)
      modifies this
      ensures m.entries == old(m.entries)
      ensures passes == old(passes) + [StaticFunctions]
    {
      passes := passes + [StaticFunctions];
    }

    method AddExtensions(m: FuncModule)
      modifies this
      ensures m.entries == old(m.entries)
      ensures passes == old(passes) + [Extensions]
    {
      passes := passes + [Extensions];
    }

    /** Appends one translated function per function of `c`, in order. */
    method AddContractFunctions(m: FuncModule, c: TypeDescription)
      modifies this, m
      ensures m.entries == old(m.entries) + FunctionEntries(c.functions, ctx.writeFunction)
      ensures passes == old(passes) + [ContractFunctions(c.name)]
    {
      var fs := c.functions;
      for i := 0 to |fs|
        invariant m.entries == old(m.entries) + FunctionEntries(fs[..i], ctx.writeFunction)
        invariant passes == old(passes)
      {
        var funcFun := ctx.writeFunction(fs[i]);
        m.entries := m.entries + [Function(funcFun)];
        assert FunctionEntries(fs[..i + 1], ctx.writeFunction)
            == FunctionEntries(fs[..i], ctx.writeFunction) + [Function(funcFun)];
      }
      assert fs[..|fs|] == fs;
      passes := passes + [ContractFunctions(c.name)];
    }

    /** `contracts.forEach(c => addContractFunctions(m, c))`. */
    method AddEveryContractFunctions(m: FuncModule, contracts: seq<TypeDescription>)
      modifies this, m
      ensures m.entries == old(m.entries) + ContractsEntries(contracts, ctx.writeFunction)
      ensures passes == old(passes) + ContractPasses(contracts)
    {
      for i := 0 to |contracts|
        invariant m.entries == old(m.entries) + ContractsEntries(contracts[..i], ctx.writeFunction)
        invariant passes == old(passes) + ContractPasses(contracts[..i])
      {
        AddContractFunctions(m, contracts[i]);
        ContractsPrefixStep(contracts, i, ctx.writeFunction);
      }
      assert contracts[..|contracts|] == contracts;
    }

    method AddMain(m: FuncModule)
      modifies this
      ensures m.entries == old(m.entries)
      ensures passes == old(passes) + [Main]
    {
      passes := passes + [Main];
    }

    /** Appends exactly one comment entry, leaving the earlier entries alone. */
    method AddComment(m: FuncModule, c: string)
      modifies m
      ensures |m.entries| == |old(m.entries)| + 1
      ensures m.entries[..|old(m.entries)|] == old(m.entries)
      ensures m.entries[|old(m.entries)|] == Comment(c)
    {
      m.entries := m.entries + [Comment(c)];
    }

    /**
     * Fails, before any pass runs, when no contract bears the target name;
     * otherwise runs every pass in order, the contract-functions pass once per
     * declared contract, and returns the fresh module.
     */
    method WriteProgram() returns (r: Result<FuncModule, CodegenError>)
      modifies this
      ensures r.Err? <==> FindContract(ctx.allTypes, contractName).None?
      ensures r.Err? ==> r.error == ContractNotFound(contractName) && passes == old(passes)
      ensures r.Ok? ==> && fresh(r.value)
                        && r.value.kind == "module"
                        && r.value.entries == ContractsEntries(Contracts(ctx.allTypes), ctx.writeFunction)
                        && passes == old(passes) + ProgramPasses(Contracts(ctx.allTypes))
    {
      var m := new FuncModule();

      var allTypes := ctx.allTypes;
      var contracts := Contracts(allTypes);
      var contract := FindByName(contracts, contractName);
      if contract.None? {
        return Err(ContractNotFound(contractName));
      }

      AddStdlib(m);
      AddSerializers(m);
      AddAccessors(m);
      AddInitSerializer(m);
      AddStorageFunctions(m);
      AddStaticFunctions(m);
      AddExtensions(m);
      AddEveryContractFunctions(m, contracts);
      AddMain(m);
      ProgramPassesStepwise(old(passes), contracts);
      r := Ok(m);
    }
  }
}
