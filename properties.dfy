/**
 What the codemod of src/index.js promises about a whole program: which
 statements change and into what, what the use sets hold, and when the
 program comes back untouched.
 */
module Properties {
  import opened Ast
  import opened Classify
  import opened CallSites
  import opened UseSets
  import opened Pipeline

  /**
   A program with no import whose source is exactly "lodash" or "lodash/fp"
   (for instance one whose lodash imports are all submodule paths already)
   comes back unchanged.
   */
  lemma TransformWithoutRootImports(p: Program)
    requires WellFormed(p)
    requires forall i :: 0 <= i < |p| && p[i].Import? ==> p[i].source != MainModule && p[i].source != FPModule
    ensures Transform(p) == p
  {
    var ctx := ContextOf(p);
    assert ctx.mainBinding == None && ctx.fpBinding == None;
    var bs := Blocks(p);
    forall i | 0 <= i < |p| ensures bs[i] == [p[i]] {
      assert VariantOf(p[i]) == Passthrough;
      RewriteAllWithoutBinding([p[i]]);
      assert RewriteAll([p[i]], None)[0] == RewriteStmt(p[i], None);
    }
    assert bs == seq(|p|, i requires 0 <= i < |p| => [p[i]]);
    FlattenSingletons(p);
  }

  /**
   The fp pass runs after the main pass. With distinct bindings it finds
   exactly the fp calls of the input; when both bindings are the same name
   the main pass has already rewritten every call and the fp use set is empty.
   */
  lemma FPUsesAfterMainPass(p: Program)
    ensures var ctx := ContextOf(p);
      && (ctx.mainBinding != ctx.fpBinding ==> ctx.fpUses == Dedup(FoundAll(p, ctx.fpBinding)))
      && (ctx.mainBinding == ctx.fpBinding ==> ctx.fpUses == [])
  {
    var ctx := ContextOf(p);
    if ctx.mainBinding != ctx.fpBinding {
      RewriteAllKeepsOtherMatches(p, ctx.mainBinding, ctx.fpBinding);
    } else {
      RewriteAllLeavesNoMatches(p, ctx.mainBinding);
    }
  }

  /** The use set a default variant's replacement reads. */
  function UsesFor(ctx: Context, v: Variant): seq<string> {
    if v == DefaultMain then ctx.mainUses else ctx.fpUses
  }

  /** The calls whose names make up that use set. */
  function CallsFor(p: Program, v: Variant): seq<string> {
    var ctx := ContextOf(p);
    if v == DefaultMain then FoundAll(p, ctx.mainBinding)
    else FoundAll(RewriteAll(p, ctx.mainBinding), ctx.fpBinding)
  }

  /**
   A default import is replaced by one declaration `import m from
   '<prefix>m'` for each distinct method m called through the binding, and
   by none for anything else: as many declarations as distinct methods, not
   as calls, no two for the same submodule, and none at all when no method
   is called.
   */
  lemma DefaultImportReplacement(p: Program, i: nat)
    requires WellFormed(p) && i < |p|
    requires IsDefaultVariant(VariantOf(p[i]))
    ensures var v := VariantOf(p[i]);
      var prefix := if v == DefaultMain then MainPrefix else FPPrefix;
      var calls := CallsFor(p, v);
      var block := Blocks(p)[i];
      && |block| == |set m | m in calls|
      && (forall m :: DefaultImport(m, prefix + m) in block <==> m in calls)
      && (forall k, l :: 0 <= k < l < |block| ==> block[k].source != block[l].source)
      && (calls == [] ==> block == [])
  {
    WellFormedNamedImports(p);
    var v := VariantOf(p[i]);
    var prefix := if v == DefaultMain then MainPrefix else FPPrefix;
    var uses := UsesFor(ContextOf(p), v);
    assert Blocks(p)[i] == Synthesize(uses, prefix);
    SynthesizeOnePerMethod(uses, prefix);
    DedupSize(CallsFor(p, v));
  }

  /**
   A named import `{ imported_1 as local_1, ... }` is replaced by its
   expansion, and each `import local_k from '<prefix>imported_k'` is in the
   output: every alias survives as a local name.
   */
  lemma NamedImportReplacement(p: Program, i: nat)
    requires WellFormed(p) && i < |p|
    requires VariantOf(p[i]) == NamedMain || VariantOf(p[i]) == NamedFP
    ensures forall k :: 0 <= k < |p[i].specifiers| ==> p[i].specifiers[k].Named?
    ensures var prefix := if VariantOf(p[i]) == NamedMain then MainPrefix else FPPrefix;
      && Blocks(p)[i] == ExpandNamed(p[i].specifiers, prefix)
      && forall k :: 0 <= k < |p[i].specifiers| ==>
           DefaultImport(p[i].specifiers[k].local, prefix + p[i].specifiers[k].imported) in Transform(p)
  {
    WellFormedNamedImports(p);
    var prefix := if VariantOf(p[i]) == NamedMain then MainPrefix else FPPrefix;
    var bs := Blocks(p);
    forall k | 0 <= k < |p[i].specifiers|
      ensures DefaultImport(p[i].specifiers[k].local, prefix + p[i].specifiers[k].imported) in Transform(p)
    {
      var s := DefaultImport(p[i].specifiers[k].local, prefix + p[i].specifiers[k].imported);
      assert bs[i][k] == s;
      FlattenMember(bs, s);
    }
  }

  /**
   A statement the classifier passes over keeps its place; it changes only
   where it calls through a recorded binding, and is left as it is when it
   makes no such call.
   */
  lemma PassthroughStatement(p: Program, i: nat)
    requires WellFormed(p) && i < |p|
    requires VariantOf(p[i]) == Passthrough
    ensures var ctx := ContextOf(p);
      var block := Blocks(p)[i];
      && |block| == 1
      && (p[i].Import? ==> block == [p[i]])
      && (FoundStmt(p[i], ctx.mainBinding) == [] && FoundStmt(p[i], ctx.fpBinding) == [] ==> block == [p[i]])
  {
    var ctx := ContextOf(p);
    if p[i].ExprStmt? && FoundStmt(p[i], ctx.mainBinding) == [] && FoundStmt(p[i], ctx.fpBinding) == [] {
      RewriteWithoutMatches(p[i].expr, ctx.mainBinding);
      RewriteWithoutMatches(p[i].expr, ctx.fpBinding);
    }
  }

  /**
   A statement of a block calls nothing through either binding of the
   context: imports hold no calls, and a passed-over statement has been
   through both passes.
   */
  lemma BlockHasNoBoundCalls(s: Stmt, ctx: Context, t: Stmt)
    requires s.Import? && (VariantOf(s) == NamedMain || VariantOf(s) == NamedFP) ==>
      forall k :: 0 <= k < |s.specifiers| ==> s.specifiers[k].Named?
    requires t in Block(s, ctx)
    ensures FoundStmt(t, ctx.mainBinding) == [] && FoundStmt(t, ctx.fpBinding) == []
  {
    if VariantOf(s) == Passthrough && s.ExprStmt? {
      var once := Rewrite(s.expr, ctx.mainBinding);
      assert t.expr == Rewrite(once, ctx.fpBinding);
      RewriteLeavesNoMatches(once, ctx.fpBinding);
      RewriteLeavesNoMatches(s.expr, ctx.mainBinding);
      if ctx.mainBinding != ctx.fpBinding {
        RewriteKeepsOtherMatches(once, ctx.fpBinding, ctx.mainBinding);
      }
    }
  }

  /**
   No call through either recorded binding survives the transform: every
   `B.m(...)` on a recorded binding has become a bare call.
   */
  lemma NoBoundCallsRemain(p: Program)
    requires WellFormed(p)
    ensures var ctx := ContextOf(p);
      forall s :: s in Transform(p) ==>
        FoundStmt(s, ctx.mainBinding) == [] && FoundStmt(s, ctx.fpBinding) == []
  {
    WellFormedNamedImports(p);
    var ctx := ContextOf(p);
    var bs := Blocks(p);
    forall s | s in Transform(p)
      ensures FoundStmt(s, ctx.mainBinding) == [] && FoundStmt(s, ctx.fpBinding) == []
    {
      FlattenMember(bs, s);
      var i :| 0 <= i < |bs| && s in bs[i];
      BlockHasNoBoundCalls(p[i], ctx, s);
    }
  }

  /**
   A replacement declaration is a single default import from a path under
   "lodash/", so it is never the default "lodash" import nor a named import.
   */
  lemma BlockVariant(s: Stmt, ctx: Context, t: Stmt)
    requires s.Import? && (VariantOf(s) == NamedMain || VariantOf(s) == NamedFP) ==>
      forall k :: 0 <= k < |s.specifiers| ==> s.specifiers[k].Named?
    requires t in Block(s, ctx)
    ensures VariantOf(t) == Passthrough || VariantOf(t) == DefaultFP
  {
    if VariantOf(s) != Passthrough {
      var b := Block(s, ctx);
      var k :| 0 <= k < |b| && b[k] == t;
      assert t.Import? && |t.specifiers| == 1 && t.specifiers[0].Default?;
      assert |t.source| >= |MainPrefix| by {
        match VariantOf(s)
        case DefaultMain => assert t.source == MainPrefix + ctx.mainUses[k];
        case DefaultFP => assert t.source == FPPrefix + ctx.fpUses[k];
        case NamedMain => assert t.source == MainPrefix + s.specifiers[k].imported;
        case NamedFP => assert t.source == FPPrefix + s.specifiers[k].imported;
      }
    }
  }

  /**
   The output holds no default import of "lodash" and no named import of
   "lodash" or "lodash/fp". A default import of "lodash/fp" can still appear:
   the expansion of `{ fp as f }` from "lodash", or the synthesis for a call
   `_.fp()`, imports from "lodash/fp" itself.
   */
  lemma OutputVariants(p: Program)
    requires WellFormed(p)
    ensures forall s :: s in Transform(p) ==> VariantOf(s) == Passthrough || VariantOf(s) == DefaultFP
  {
    WellFormedNamedImports(p);
    var ctx := ContextOf(p);
    var bs := Blocks(p);
    forall s | s in Transform(p) ensures VariantOf(s) == Passthrough || VariantOf(s) == DefaultFP {
      FlattenMember(bs, s);
      var i :| 0 <= i < |bs| && s in bs[i];
      BlockVariant(p[i], ctx, s);
    }
  }

  /**
   A named import of `fp` from "lodash", `{ fp as f }`, becomes a default
   import of "lodash/fp" itself, which a second run would treat as the
   default fp import: the transform is not idempotent on such input.
   */
  lemma NamedFPSubmodule(p: Program, i: nat, k: nat)
    requires WellFormed(p) && i < |p| && VariantOf(p[i]) == NamedMain
    requires k < |p[i].specifiers| && p[i].specifiers[k].Named? && p[i].specifiers[k].imported == "fp"
    ensures DefaultImport(p[i].specifiers[k].local, FPModule) in Transform(p)
    ensures VariantOf(DefaultImport(p[i].specifiers[k].local, FPModule)) == DefaultFP
  {
    NamedImportReplacement(p, i);
    assert MainPrefix + "fp" == FPModule;
  }


  /**
   Only the last default import's binding is tracked, but every default
   import of the variant is replaced. With `import a from 'lodash'` before the
   last `import b from 'lodash'`, the recorded binding is `b`, and the import
   of `a` is replaced by the very declarations that replace the import of `b`:
   the calls through `b` are rewritten and imported twice over, while calls
   through `a` keep their receiver and lose their import.
   */
  lemma EarlierDefaultImport(p: Program, i: nat, j: nat)
    requires WellFormed(p) && i < j < |p|
    requires VariantOf(p[i]) == DefaultMain && VariantOf(p[j]) == DefaultMain
    requires forall k :: j < k < |p| ==> VariantOf(p[k]) != DefaultMain
    ensures ContextOf(p).mainBinding == Some(LocalOf(p[j]))
    ensures Blocks(p)[i] == Blocks(p)[j] == Synthesize(ContextOf(p).mainUses, MainPrefix)
  {
    WellFormedNamedImports(p);
    var r := LastBinding(p, DefaultMain);
    var l :| 0 <= l < |p| && VariantOf(p[l]) == DefaultMain && LocalOf(p[l]) == r.value &&
      forall k :: l < k < |p| ==> VariantOf(p[k]) != DefaultMain;
    assert l == j;
  }
}
