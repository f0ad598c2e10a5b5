/**
 Stage 1 of the codemod: sorting the import declarations whose source starts
 with "lodash" into the four variants it rewrites (src/index.js:1-11, 26-39).
 */
module Classify {
  import opened Ast

  const MainModule: string := "lodash"
  const FPModule: string := "lodash/fp"

  /** The query filter: every import whose source starts with "lodash". */
  predicate IsLodashImport(source: string) {
    StartsWith(source, "lodash")
  }

  /** Exactly one specifier, and it is a default specifier. */
  predicate IsDefaultImport(specs: seq<Specifier>) {
    |specs| == 1 && specs[0].Default?
  }

  predicate IsDefaultLodashImport(specs: seq<Specifier>, importedFrom: string) {
    IsDefaultImport(specs) && importedFrom == MainModule
  }

  predicate IsDefaultLodashFPImport(specs: seq<Specifier>, importedFrom: string) {
    IsDefaultImport(specs) && importedFrom == FPModule
  }

  /** At least one specifier, and the first is a named one. */
  predicate IsNamedLodashImport(specs: seq<Specifier>, importedFrom: string) {
    |specs| > 0 && specs[0].Named? && importedFrom == MainModule
  }

  predicate IsNamedFPLodashImport(specs: seq<Specifier>, importedFrom: string) {
    |specs| > 0 && specs[0].Named? && importedFrom == FPModule
  }

  /** The four collections the transform builds, plus everything it leaves alone. */
  datatype Variant = DefaultMain | DefaultFP | NamedMain | NamedFP | Passthrough

  /**
   The collection a statement falls in. The source filters the lodash imports
   four times, once per predicate; the contract says that each variant is
   exactly one of those filters, so the four filters are disjoint and a single
   classification loses nothing. A statement passes through exactly when it
   is no import, its source is neither "lodash" nor "lodash/fp", or its
   specifiers are empty, start with a namespace, or mix a default with more.
   */
  function VariantOf(s: Stmt): (v: Variant)
    ensures v == DefaultMain <==>
      s.Import? && IsLodashImport(s.source) && IsDefaultLodashImport(s.specifiers, s.source)
    ensures v == DefaultFP <==>
      s.Import? && IsLodashImport(s.source) && IsDefaultLodashFPImport(s.specifiers, s.source)
    ensures v == NamedMain <==>
      s.Import? && IsLodashImport(s.source) && IsNamedLodashImport(s.specifiers, s.source)
    ensures v == NamedFP <==>
      s.Import? && IsLodashImport(s.source) && IsNamedFPLodashImport(s.specifiers, s.source)
    ensures v == Passthrough <==>
      || !s.Import?
      || (s.source != MainModule && s.source != FPModule)
      || |s.specifiers| == 0
      || s.specifiers[0].Namespace?
      || (s.specifiers[0].Default? && |s.specifiers| > 1)
  {
    if !s.Import? || !IsLodashImport(s.source) then Passthrough
    else if IsDefaultLodashImport(s.specifiers, s.source) then DefaultMain
    else if IsDefaultLodashFPImport(s.specifiers, s.source) then DefaultFP
    else if IsNamedLodashImport(s.specifiers, s.source) then NamedMain
    else if IsNamedFPLodashImport(s.specifiers, s.source) then NamedFP
    else Passthrough
  }

  /** The default variants bind one local name; the named variants list named specifiers. */
  predicate IsDefaultVariant(v: Variant) {
    v == DefaultMain || v == DefaultFP
  }

  /**
   The collection of variant `v`: the positions of the statements of that
   variant, in source order, each exactly once.
   */
  function Collection(p: Program, v: Variant): (c: seq<nat>)
    ensures forall k :: 0 <= k < |c| ==> c[k] < |p| && VariantOf(p[c[k]]) == v
    ensures forall k, l :: 0 <= k < l < |c| ==> c[k] < c[l]
  {
    if p == [] then []
    else
      var init := Collection(p[..|p| - 1], v);
      if VariantOf(p[|p| - 1]) == v then init + [|p| - 1] else init
  }

  /** The collection misses no statement of its variant. */
  lemma {:induction false} CollectionComplete(p: Program, v: Variant, i: nat)
    requires i < |p| && VariantOf(p[i]) == v
    ensures i in Collection(p, v)
  {
    if i < |p| - 1 {
      CollectionComplete(p[..|p| - 1], v, i);
    }
  }

  /** Every named import of `p` holds named specifiers only. */
  predicate NamedImportsAreNamed(p: Program) {
    forall i, k ::
      0 <= i < |p| && p[i].Import? && (VariantOf(p[i]) == NamedMain || VariantOf(p[i]) == NamedFP) &&
      0 <= k < |p[i].specifiers|
      ==> p[i].specifiers[k].Named?
  }

  /**
   The import grammar lets no default or namespace specifier follow a named
   one, so a well-formed program's named imports are all-named.
   */
  lemma WellFormedNamedImports(p: Program)
    requires WellFormed(p)
    ensures NamedImportsAreNamed(p)
  {
    forall i | 0 <= i < |p| && p[i].Import?
      ensures WellFormedSpecifiers(p[i].specifiers)
    {
    }
  }
}
