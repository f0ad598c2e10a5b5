/**
 The exported transform of src/index.js:16-144, as the sequence of in-place
 stages it runs over one parsed file. The tree is kept as one slot per
 top-level statement of the parsed file: a path that a stage replaces with
 zero or more declarations keeps its place, so the collections gathered in
 stage 1 still point at the right statements in later stages, as the toolkit's
 paths do. `Tree()` is the program the slots spell out.
 */
module Codemod {
  import opened Ast
  import opened Classify
  import opened CallSites
  import opened UseSets
  import opened Pipeline

  /**
   The statements that slot `s` holds once the named imports are expanded,
   while the statement itself has become `t` (`t` is `s` or `s` with its calls
   rewritten).
   */
  function Expanded(s: Stmt, t: Stmt): Program
    requires s.Import? && (VariantOf(s) == NamedMain || VariantOf(s) == NamedFP) ==>
      forall k :: 0 <= k < |s.specifiers| ==> s.specifiers[k].Named?
  {
    match VariantOf(s)
    case NamedMain => ExpandNamed(s.specifiers, MainPrefix)
    case NamedFP => ExpandNamed(s.specifiers, FPPrefix)
    case _ => [t]
  }

  /** The calls of a whole slot list are the calls of the statements the slots stand for. */
  lemma {:induction false} FoundAllFlatten(ss: seq<Program>, ts: Program, binding: Option<string>)
    requires |ss| == |ts|
    requires forall i :: 0 <= i < |ss| ==> FoundAll(ss[i], binding) == FoundStmt(ts[i], binding)
    ensures FoundAll(Flatten(ss), binding) == FoundAll(ts, binding)
  {
    if ss != [] {
      var n := |ss| - 1;
      FoundAllFlatten(ss[..n], ts[..n], binding);
      FoundAllAppend(Flatten(ss[..n]), ss[n], binding);
    }
  }

  /** Rewriting the calls of an expanded slot rewrites the statement it stands for. */
  lemma ExpandedRewrite(s: Stmt, t: Stmt, binding: Option<string>)
    requires s.Import? && (VariantOf(s) == NamedMain || VariantOf(s) == NamedFP) ==>
      forall k :: 0 <= k < |s.specifiers| ==> s.specifiers[k].Named?
    requires s.Import? ==> t == s
    ensures FoundAll(Expanded(s, t), binding) == FoundStmt(t, binding)
    ensures RewriteAll(Expanded(s, t), binding) == Expanded(s, RewriteStmt(t, binding))
  {
    if VariantOf(s) == NamedMain || VariantOf(s) == NamedFP {
      ImportsHaveNoCalls(Expanded(s, t), binding);
    } else {
      assert FoundAll([t], binding) == FoundAll([], binding) + FoundStmt(t, binding);
    }
  }

  /**
   The slot-list form of `ExpandedRewrite`: over slots that hold the
   expansions of `p` with its statements now `t`, the query finds the calls of
   `t`, and the rewrite leaves the expansions of `t` rewritten.
   */
  lemma ExpandedSlots(ss: seq<Program>, p: Program, t: Program, binding: Option<string>)
    requires |ss| == |p| == |t| && NamedImportsAreNamed(p)
    requires forall i :: 0 <= i < |p| ==> p[i].Import? ==> t[i] == p[i]
    requires forall i :: 0 <= i < |p| ==> ss[i] == Expanded(p[i], t[i])
    ensures FoundAll(Flatten(ss), binding) == FoundAll(t, binding)
    ensures forall i :: 0 <= i < |p| ==> RewriteAll(ss[i], binding) == Expanded(p[i], RewriteStmt(t[i], binding))
  {
    forall i | 0 <= i < |p|
      ensures FoundAll(ss[i], binding) == FoundStmt(t[i], binding)
      ensures RewriteAll(ss[i], binding) == Expanded(p[i], RewriteStmt(t[i], binding))
    {
      ExpandedRewrite(p[i], t[i], binding);
    }
    FoundAllFlatten(ss, t, binding);
  }

  /** The expansion a named collection's loop writes is the slot's `Expanded` form. */
  lemma ExpansionOfNamed(p: Program, i: nat, v: Variant, prefix: string)
    requires NamedImportsAreNamed(p) && i < |p| && VariantOf(p[i]) == v
    requires (v == NamedMain && prefix == MainPrefix) || (v == NamedFP && prefix == FPPrefix)
    ensures forall k :: 0 <= k < |p[i].specifiers| ==> p[i].specifiers[k].Named?
    ensures ExpandNamed(p[i].specifiers, prefix) == Expanded(p[i], p[i])
  {
  }

  /** A position is in a collection exactly when its statement is of the collection's variant. */
  lemma CollectionMember(p: Program, v: Variant, i: nat)
    requires i < |p|
    ensures i in Collection(p, v) <==> VariantOf(p[i]) == v
  {
    if VariantOf(p[i]) == v {
      CollectionComplete(p, v, i);
    }
  }

  /** One run of the exported transform over one parsed file. */
  class Invocation {
    const source: Program                 // the parsed file, root = j(file.source)
    const defaultImports: seq<nat>        // stage 1: the four collections
    const defaultFPImports: seq<nat>
    const namedImports: seq<nat>
    const namedFPImports: seq<nat>
    const defaultSpecifiers: UseSet
    const defaultFPSpecifiers: UseSet
    var slots: seq<Program>
    var defaultImportName: Option<string>
    var defaultFPImportName: Option<string>

    /** Stage 1 is done once: the collections are those of the parsed file. */
    ghost predicate Classified() {
      && WellFormed(source)
      && NamedImportsAreNamed(source)
      && defaultImports == Collection(source, DefaultMain)
      && defaultFPImports == Collection(source, DefaultFP)
      && namedImports == Collection(source, NamedMain)
      && namedFPImports == Collection(source, NamedFP)
    }

    /** The two use sets are distinct sets. */
    ghost predicate Valid()
      reads defaultSpecifiers, defaultFPSpecifiers
    {
      && defaultSpecifiers != defaultFPSpecifiers
      && defaultSpecifiers.Valid()
      && defaultFPSpecifiers.Valid()
    }

    /** The program the slots spell out. */
    function Tree(): Program
      reads this
    {
      Flatten(slots)
    }

    /** Parse, classify, and start with no binding and empty use sets. */
    constructor (program: Program)
      requires WellFormed(program)
      ensures Classified() && Valid() && fresh(defaultSpecifiers) && fresh(defaultFPSpecifiers)
      ensures |slots| == |source|
      ensures source == program
      ensures slots == seq(|program|, i requires 0 <= i < |program| => [program[i]])
      ensures defaultImportName == None && defaultFPImportName == None
      ensures defaultSpecifiers.elems == [] && defaultFPSpecifiers.elems == []
    {
      WellFormedNamedImports(program);
      source := program;
      defaultImports := Collection(program, DefaultMain);
      defaultFPImports := Collection(program, DefaultFP);
      namedImports := Collection(program, NamedMain);
      namedFPImports := Collection(program, NamedFP);
      defaultSpecifiers := new UseSet();
      defaultFPSpecifiers := new UseSet();
      slots := seq(|program|, i requires 0 <= i < |program| => [program[i]]);
      defaultImportName := None;
      defaultFPImportName := None;
    }

    /** Stage 2: each default import of a collection in turn overwrites the binding. */
    method RecordBindings()
      requires defaultImports == Collection(source, DefaultMain)
      requires defaultFPImports == Collection(source, DefaultFP)
      requires defaultImportName == None && defaultFPImportName == None
      modifies this`defaultImportName, this`defaultFPImportName
      ensures defaultImportName == LastBinding(source, DefaultMain)
      ensures defaultFPImportName == LastBinding(source, DefaultFP)
    {
      for k := 0 to |defaultImports|
        invariant defaultFPImportName == None
        invariant defaultImportName ==
          if k == 0 then None else Some(LocalOf(source[defaultImports[k - 1]]))
      {
        defaultImportName := Some(LocalOf(source[defaultImports[k]]));
      }
      LastBindingOfCollection(source, DefaultMain);
      for k := 0 to |defaultFPImports|
        invariant defaultImportName == LastBinding(source, DefaultMain)
        invariant defaultFPImportName ==
          if k == 0 then None else Some(LocalOf(source[defaultFPImports[k - 1]]))
      {
        defaultFPImportName := Some(LocalOf(source[defaultFPImports[k]]));
      }
      LastBindingOfCollection(source, DefaultFP);
    }

    /**
     Stage 3: every import of a named collection is replaced by its
     expansion under the collection's prefix.
     */
    method ExpandNamedImports(collection: seq<nat>, prefix: string, ghost v: Variant)
      requires NamedImportsAreNamed(source) && |slots| == |source|
      requires collection == Collection(source, v)
      requires (v == NamedMain && prefix == MainPrefix) || (v == NamedFP && prefix == FPPrefix)
      modifies this`slots
      ensures |slots| == |source|
      ensures forall i :: 0 <= i < |source| ==>
        slots[i] == if i in collection then Expanded(source[i], source[i]) else old(slots[i])
    {
      ghost var expanded := seq(|source|, i requires 0 <= i < |source| => Expanded(source[i], source[i]));
      for k := 0 to |collection|
        invariant |slots| == |source|
        invariant forall i :: 0 <= i < |source| ==>
          slots[i] == if i in collection[..k] then expanded[i] else old(slots[i])
      {
        var i := collection[k];
        ExpansionOfNamed(source, i, v, prefix);
        // the path still holds the original declaration
        slots := slots[i := ExpandNamed(source[i].specifiers, prefix)];
        assert collection[..k + 1] == collection[..k] + [i];
      }
      assert collection[..|collection|] == collection;
    }

    /** Stage 4, `forEach`: every name the tree query finds is added to the use set. */
    method CollectUses(binding: Option<string>, uses: UseSet)
      requires Valid()
      requires uses == defaultSpecifiers || uses == defaultFPSpecifiers
      requires uses.elems == []
      modifies uses
      ensures Valid()
      ensures uses.elems == Dedup(FoundAll(Tree(), binding))
    {
      var found := FoundAll(Tree(), binding);
      for k := 0 to |found|
        invariant Valid()
        invariant uses.elems == Dedup(found[..k])
      {
        ghost var d := Dedup(found[..k]);
        assert found[..k + 1][..k] == found[..k];
        assert Dedup(found[..k + 1]) == if found[k] in d then d else d + [found[k]];
        uses.Add(found[k]);
      }
      assert found[..|found|] == found;
    }

    /** Stage 4, `replaceWith`: every matching call is replaced by a bare call. */
    method ReplaceCalls(binding: Option<string>)
      modifies this`slots
      ensures |slots| == |old(slots)|
      ensures forall i :: 0 <= i < |slots| ==> slots[i] == RewriteAll(old(slots)[i], binding)
    {
      var current := slots;
      slots := seq(|current|, i requires 0 <= i < |current| => RewriteAll(current[i], binding));
    }

    /** Stage 4 for one binding: collect the names it is called with, then rewrite the calls. */
    method RewriteCallSites(binding: Option<string>, uses: UseSet)
      requires Valid()
      requires uses == defaultSpecifiers || uses == defaultFPSpecifiers
      requires uses.elems == []
      modifies this`slots, uses
      ensures Valid()
      ensures uses.elems == Dedup(FoundAll(old(Tree()), binding))
      ensures |slots| == |old(slots)|
      ensures forall i :: 0 <= i < |slots| ==> slots[i] == RewriteAll(old(slots)[i], binding)
    {
      CollectUses(binding, uses);
      ReplaceCalls(binding);
    }

    /** Stage 5: every import of a default collection is replaced by one import per use. */
    method SynthesizeDefaultImports(collection: seq<nat>, uses: seq<string>, prefix: string)
      requires |slots| == |source|
      requires forall k :: 0 <= k < |collection| ==> collection[k] < |source|
      modifies this`slots
      ensures |slots| == |source|
      ensures forall i :: 0 <= i < |source| ==>
        slots[i] == if i in collection then Synthesize(uses, prefix) else old(slots[i])
    {
      var block := Synthesize(uses, prefix);
      for k := 0 to |collection|
        invariant |slots| == |source|
        invariant forall i :: 0 <= i < |source| ==>
          slots[i] == if i in collection[..k] then block else old(slots[i])
      {
        var i := collection[k];
        slots := slots[i := block];
        assert collection[..k + 1] == collection[..k] + [i];
      }
      assert collection[..|collection|] == collection;
    }

    /** Stage 3 for both named collections: each slot holds its statement's expansion. */
    method ExpandStage()
      requires NamedImportsAreNamed(source)
      requires namedImports == Collection(source, NamedMain)
      requires namedFPImports == Collection(source, NamedFP)
      requires slots == seq(|source|, i requires 0 <= i < |source| => [source[i]])
      modifies this`slots
      ensures |slots| == |source|
      ensures forall i :: 0 <= i < |source| ==> slots[i] == Expanded(source[i], source[i])
    {
      ghost var s0 := slots;
      ExpandNamedImports(namedImports, MainPrefix, NamedMain);
      ExpandNamedImports(namedFPImports, FPPrefix, NamedFP);
      forall i | 0 <= i < |source| ensures slots[i] == Expanded(source[i], source[i]) {
        CollectionMember(source, NamedMain, i);
        CollectionMember(source, NamedFP, i);
        assert s0[i] == [source[i]];
      }
    }

    /**
     Stage 4 for both bindings, main first: the use sets end as the context
     says, and each slot holds its statement after both passes.
     */
    method RewriteStage()
      requires NamedImportsAreNamed(source) && Valid()
      requires |slots| == |source|
      requires forall i :: 0 <= i < |source| ==> slots[i] == Expanded(source[i], source[i])
      requires defaultSpecifiers.elems == [] && defaultFPSpecifiers.elems == []
      modifies this`slots, defaultSpecifiers, defaultFPSpecifiers
      ensures Valid()
      ensures |slots| == |source|
      ensures defaultSpecifiers.elems == Dedup(FoundAll(source, defaultImportName))
      ensures defaultFPSpecifiers.elems == Dedup(FoundAll(RewriteAll(source, defaultImportName), defaultFPImportName))
      ensures forall i :: 0 <= i < |source| ==>
        slots[i] == Expanded(source[i], RewriteStmt(RewriteStmt(source[i], defaultImportName), defaultFPImportName))
    {
      ghost var p := source;
      // the main pass: the query sees the calls of the parsed file
      ghost var s0 := slots;
      ExpandedSlots(s0, p, p, defaultImportName);
      assert FoundAll(Tree(), defaultImportName) == FoundAll(p, defaultImportName);
      RewriteCallSites(defaultImportName, defaultSpecifiers);
      ghost var mainUses := defaultSpecifiers.elems;
      assert mainUses == Dedup(FoundAll(p, defaultImportName));
      // the fp pass: the query sees the calls the main pass left
      ghost var p1 := RewriteAll(p, defaultImportName);
      ghost var s1 := slots;
      forall i | 0 <= i < |p| ensures s1[i] == Expanded(p[i], p1[i]) {
        assert s1[i] == RewriteAll(s0[i], defaultImportName);
      }
      ExpandedSlots(s1, p, p1, defaultFPImportName);
      assert FoundAll(Tree(), defaultFPImportName) == FoundAll(p1, defaultFPImportName);
      RewriteCallSites(defaultFPImportName, defaultFPSpecifiers);
      assert defaultSpecifiers.elems == mainUses;
      forall i | 0 <= i < |p|
        ensures slots[i] == Expanded(p[i], RewriteStmt(RewriteStmt(p[i], defaultImportName), defaultFPImportName))
      {
        assert slots[i] == RewriteAll(s1[i], defaultFPImportName);
        assert p1[i] == RewriteStmt(p[i], defaultImportName);
      }
    }

    /**
     Stage 5 for both default collections: with `ctx` the bindings and use
     sets the earlier stages left, every slot now holds its statement's block.
     */
    method SynthesizeStage(ghost ctx: Context)
      requires NamedImportsAreNamed(source)
      requires defaultImports == Collection(source, DefaultMain)
      requires defaultFPImports == Collection(source, DefaultFP)
      requires |slots| == |source|
      requires ctx == Context(defaultImportName, defaultFPImportName, defaultSpecifiers.elems, defaultFPSpecifiers.elems)
      requires forall i :: 0 <= i < |source| ==>
        slots[i] == Expanded(source[i], RewriteStmt(RewriteStmt(source[i], ctx.mainBinding), ctx.fpBinding))
      modifies this`slots
      ensures |slots| == |source|
      ensures forall i :: 0 <= i < |source| ==> slots[i] == Block(source[i], ctx)
    {
      ghost var s3 := slots;
      SynthesizeDefaultImports(defaultImports, defaultSpecifiers.elems, MainPrefix);
      SynthesizeDefaultImports(defaultFPImports, defaultFPSpecifiers.elems, FPPrefix);
      forall i | 0 <= i < |source| ensures slots[i] == Block(source[i], ctx) {
        CollectionMember(source, DefaultMain, i);
        CollectionMember(source, DefaultFP, i);
      }
    }

    /** All stages in the order of the source; the tree ends as `Transform` says. */
    method Run()
      requires Classified() && Valid()
      requires slots == seq(|source|, i requires 0 <= i < |source| => [source[i]])
      requires defaultImportName == None && defaultFPImportName == None
      requires defaultSpecifiers.elems == [] && defaultFPSpecifiers.elems == []
      modifies this, defaultSpecifiers, defaultFPSpecifiers
      ensures Tree() == Transform(source)
    {
      RecordBindings();
      ExpandStage();
      RewriteStage();
      ghost var ctx := ContextOf(source);
      SynthesizeStage(ctx);
      assert slots == Blocks(source);
    }
  }

  /**
   The exported transform on one parsed file (printing the result back to
   text is the toolkit's). Its result is the program `Transform` describes.
   */
  method TransformFile(program: Program) returns (result: Program)
    requires WellFormed(program)
    ensures result == Transform(program)
  {
    var run := new Invocation(program);
    run.Run();
    result := run.Tree();
  }
}
