/**
 What the codemod of src/index.js does to a whole program, stated as pure
 functions: the binding registry (stage 2), the named-import expansion
 (stage 3), the use sets (stage 4) and the default-import synthesis
 (stage 5), gathered in a `Context` that each statement's replacement reads.
 The imperative stages in module Codemod are proved to compute `Transform`.
 */
module Pipeline {
  import opened Ast
  import opened Classify
  import opened CallSites
  import opened UseSets

  const MainPrefix: string := "lodash/"
  const FPPrefix: string := "lodash/fp/"

  /** The local name a default import binds. */
  function LocalOf(s: Stmt): string
    requires s.Import? && |s.specifiers| > 0
  {
    s.specifiers[0].local
  }

  /**
   Stage 2: the binding recorded for a default variant is the local name of
   the last default import of that variant in source order (the last one
   seen wins), and none when there is no such import.
   */
  function LastBinding(p: Program, v: Variant): (r: Option<string>)
    requires IsDefaultVariant(v)
    ensures r == None <==> forall i :: 0 <= i < |p| ==> VariantOf(p[i]) != v
    ensures r.Some? ==>
      exists i :: 0 <= i < |p| && VariantOf(p[i]) == v && LocalOf(p[i]) == r.value &&
        forall j :: i < j < |p| ==> VariantOf(p[j]) != v
  {
    if p == [] then None
    else
      var last := p[|p| - 1];
      if VariantOf(last) == v then Some(LocalOf(last))
      else
        var r := LastBinding(p[..|p| - 1], v);
        assert forall i :: 0 <= i < |p| - 1 ==> p[i] == p[..|p| - 1][i];
        r
  }

  /**
   The binding is that of the last member of the variant's collection: the
   assignment in the loop over the collection leaves exactly this value.
   */
  lemma {:induction false} LastBindingOfCollection(p: Program, v: Variant)
    requires IsDefaultVariant(v)
    ensures var c := Collection(p, v);
      LastBinding(p, v) == if |c| == 0 then None else Some(LocalOf(p[c[|c| - 1]]))
  {
    if p != [] {
      var init := p[..|p| - 1];
      var c := Collection(p, v);
      if VariantOf(p[|p| - 1]) == v {
        assert c == Collection(init, v) + [|p| - 1];
        assert LastBinding(p, v) == Some(LocalOf(p[|p| - 1]));
      } else {
        assert c == Collection(init, v);
        assert LastBinding(p, v) == LastBinding(init, v);
        LastBindingOfCollection(init, v);
        if |c| > 0 {
          assert p[c[|c| - 1]] == init[c[|c| - 1]];
        }
      }
    }
  }

  /**
   Stage 3: the declarations a named import becomes, one default import per
   specifier, in specifier order, each binding the specifier's local alias to
   the submodule named by its imported name.
   */
  function ExpandNamed(specs: seq<Specifier>, prefix: string): (r: Program)
    requires forall k :: 0 <= k < |specs| ==> specs[k].Named?
  {
    seq(|specs|, k requires 0 <= k < |specs| => DefaultImport(specs[k].local, prefix + specs[k].imported))
  }

  /** Reads a named specifier list back off expanded declarations. */
  function NamedSpecifiersOf(decls: Program, prefix: string): (specs: seq<Specifier>)
    requires forall k :: 0 <= k < |decls| ==>
      decls[k].Import? && |decls[k].specifiers| > 0 && |prefix| <= |decls[k].source|
  {
    seq(|decls|, k requires 0 <= k < |decls| =>
      Named(decls[k].source[|prefix|..], decls[k].specifiers[0].local))
  }

  /**
   Nothing is lost by the expansion: every alias and every imported name can
   be read back, in the original order, and each declaration has exactly one
   default specifier.
   */
  lemma ExpandNamedRoundTrip(specs: seq<Specifier>, prefix: string)
    requires forall k :: 0 <= k < |specs| ==> specs[k].Named?
    ensures var decls := ExpandNamed(specs, prefix);
      && |decls| == |specs|
      && (forall k :: 0 <= k < |decls| ==>
            decls[k].Import? && |decls[k].specifiers| == 1 && decls[k].specifiers[0].Default? &&
            StartsWith(decls[k].source, prefix))
      && NamedSpecifiersOf(decls, prefix) == specs
  {
    var decls := ExpandNamed(specs, prefix);
    forall k | 0 <= k < |decls|
      ensures StartsWith(decls[k].source, prefix)
      ensures decls[k].source[|prefix|..] == specs[k].imported
    {
      assert decls[k].source == prefix + specs[k].imported;
    }
  }

  /**
   Stage 5: the declarations a default import becomes, one per use-set entry
   in use-set order, each importing the method from its own submodule.
   */
  function Synthesize(uses: seq<string>, prefix: string): (r: Program)
  {
    seq(|uses|, k requires 0 <= k < |uses| => DefaultImport(uses[k], prefix + uses[k]))
  }

  /**
   A synthesized declaration exists for a method exactly when the method is
   in the use set; since the use set has no duplicates, no two synthesized
   declarations import the same submodule.
   */
  lemma SynthesizeOnePerMethod(uses: seq<string>, prefix: string)
    requires NoDuplicates(uses)
    ensures var decls := Synthesize(uses, prefix);
      && |decls| == |uses|
      && (forall m :: DefaultImport(m, prefix + m) in decls <==> m in uses)
      && (forall k, l :: 0 <= k < l < |decls| ==> decls[k].source != decls[l].source)
  {
    var decls := Synthesize(uses, prefix);
    forall m ensures DefaultImport(m, prefix + m) in decls <==> m in uses {
      if m in uses {
        var k :| 0 <= k < |uses| && uses[k] == m;
        assert decls[k] == DefaultImport(m, prefix + m);
      }
    }
    forall k, l | 0 <= k < l < |decls| ensures decls[k].source != decls[l].source {
      assert (prefix + uses[k])[|prefix|..] == uses[k];
      assert (prefix + uses[l])[|prefix|..] == uses[l];
    }
  }

  /**
   The state stages 2 and 4 leave behind for stage 5: the two recorded
   bindings and the two use sets.
   */
  datatype Context = Context(
    mainBinding: Option<string>,
    fpBinding: Option<string>,
    mainUses: seq<string>,
    fpUses: seq<string>)

  /**
   The context of a program. The main use set holds the calls made through
   the main binding; the fp calls are looked for in the tree the main pass
   has already rewritten.
   */
  function ContextOf(p: Program): Context {
    var main := LastBinding(p, DefaultMain);
    var fp := LastBinding(p, DefaultFP);
    Context(main, fp,
      Dedup(FoundAll(p, main)),
      Dedup(FoundAll(RewriteAll(p, main), fp)))
  }

  /** What one statement of the input becomes in the output. */
  function Block(s: Stmt, ctx: Context): Program
    requires s.Import? && (VariantOf(s) == NamedMain || VariantOf(s) == NamedFP) ==>
      forall k :: 0 <= k < |s.specifiers| ==> s.specifiers[k].Named?
  {
    match VariantOf(s)
    case DefaultMain => Synthesize(ctx.mainUses, MainPrefix)
    case DefaultFP => Synthesize(ctx.fpUses, FPPrefix)
    case NamedMain => ExpandNamed(s.specifiers, MainPrefix)
    case NamedFP => ExpandNamed(s.specifiers, FPPrefix)
    case Passthrough => [RewriteStmt(RewriteStmt(s, ctx.mainBinding), ctx.fpBinding)]
  }

  function Blocks(p: Program): (bs: seq<Program>)
    requires NamedImportsAreNamed(p)
    ensures |bs| == |p|
  {
    var ctx := ContextOf(p);
    seq(|p|, i requires 0 <= i < |p| => Block(p[i], ctx))
  }

  /** The whole codemod: every statement replaced by its block, in order. */
  function Transform(p: Program): Program
    requires WellFormed(p)
  {
    WellFormedNamedImports(p);
    Flatten(Blocks(p))
  }
}
