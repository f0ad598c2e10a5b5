/**
 The abstract syntax tree the codemod works on: import declarations and
 expression statements built from calls, member accesses and identifiers.
 Parsing and printing belong to the host toolkit and are not modelled; a
 program is the list of its top-level statements.
 */
module Ast {

  datatype Option<+T> = None | Some(value: T)

  /** One specifier of an import declaration. */
  datatype Specifier =
    | Default(local: string)                    // import local from '...'
    | Named(imported: string, local: string)    // import { imported as local } from '...'
    | Namespace(local: string)                  // import * as local from '...'

  /** Expressions; a member access is always the non-computed `object.property` form. */
  datatype Expr =
    | Ident(name: string)
    | Member(obj: Expr, property: string)
    | Call(callee: Expr, arguments: seq<Expr>)
    | Lit(text: string)                         // any leaf that holds no call

  datatype Stmt =
    | Import(specifiers: seq<Specifier>, source: string)
    | ExprStmt(expr: Expr)

  type Program = seq<Stmt>

  predicate StartsWith(s: string, prefix: string) {
    |prefix| <= |s| && s[..|prefix|] == prefix
  }

  /** A string starts with anything it was built by appending to. */
  lemma StartsWithAppend(prefix: string, t: string)
    ensures StartsWith(prefix + t, prefix)
  {
    assert (prefix + t)[..|prefix|] == prefix;
  }

  /**
   The specifier lists the import grammar admits: a default binding, a
   namespace binding, named bindings, or a default binding followed by a
   namespace binding or by named bindings.
   */
  predicate WellFormedSpecifiers(specs: seq<Specifier>) {
    (forall k :: 0 < k < |specs| ==> !specs[k].Default?) &&
    (forall k :: 0 <= k < |specs| && specs[k].Namespace? ==> k == |specs| - 1 && k <= 1) &&
    (forall k :: 0 <= k < |specs| && specs[k].Named? ==> !specs[|specs| - 1].Namespace?)
  }

  predicate WellFormed(p: Program) {
    forall i :: 0 <= i < |p| && p[i].Import? ==> WellFormedSpecifiers(p[i].specifiers)
  }

  /** `import local from 'path'`: one default specifier and a string source. */
  function DefaultImport(local: string, path: string): Stmt {
    Import([Default(local)], path)
  }

  lemma AppendAssoc<T>(s1: seq<T>, s2: seq<T>, s3: seq<T>)
    ensures (s1 + s2) + s3 == s1 + (s2 + s3)
  {
  }

  /** Splice a list of statement lists into one list, in order. */
  function Flatten(ss: seq<Program>): (p: Program)
    ensures |ss| == 0 ==> p == []
  {
    if ss == [] then [] else Flatten(ss[..|ss| - 1]) + ss[|ss| - 1]
  }

  lemma {:induction false} FlattenSingletons(p: Program)
    ensures Flatten(seq(|p|, i requires 0 <= i < |p| => [p[i]])) == p
  {
    if p != [] {
      var ss := seq(|p|, i requires 0 <= i < |p| => [p[i]]);
      var init := p[..|p| - 1];
      FlattenSingletons(init);
      assert ss[..|ss| - 1] == seq(|init|, i requires 0 <= i < |init| => [init[i]]);
      assert p == init + [p[|p| - 1]];
    }
  }

  /** A statement is in a flattened list exactly when it is in one of the lists. */
  lemma {:induction false} FlattenMember(ss: seq<Program>, s: Stmt)
    ensures s in Flatten(ss) <==> exists i :: 0 <= i < |ss| && s in ss[i]
  {
    if ss != [] {
      var n := |ss| - 1;
      var init := ss[..n];
      FlattenMember(init, s);
      assert Flatten(ss) == Flatten(init) + ss[n];
      assert forall i :: 0 <= i < n ==> init[i] == ss[i];
      if s in ss[n] {
        assert s in Flatten(ss);
      }
    }
  }

}
