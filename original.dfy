/**
 The older single-binding variant of the codemod (src/original.js). It knows
 one default binding only and no fp module: it deletes every import it takes
 for a lodash import, rewrites the calls made through the default binding,
 and emits one `import m from 'lodash/m'` per distinct method name it
 collected, the default name itself excepted.
 */
module Original {
  import opened Ast
  import opened CallSites
  import opened UseSets
  import Classify
  import Pipeline

  /**
   isLodashImport of this variant: the newer variant's query, less every
   path under "lodash/" (the paths both variants create). So "lodash/fp" and
   "lodash/map" are excluded, while any other source that merely begins with
   the six letters, such as "lodash-es" or "lodash.debounce", is included.
   */
  function IsLodashImport(source: string): (b: bool)
    ensures b <==> Classify.IsLodashImport(source) && forall t :: source != Pipeline.MainPrefix + t
  {
    if StartsWith(source, "lodash/") then
      assert source == Pipeline.MainPrefix + source[7..];
      false
    else
      assert forall t :: source != Pipeline.MainPrefix + t by {
        forall t ensures source != Pipeline.MainPrefix + t {
          StartsWithAppend(Pipeline.MainPrefix, t);
        }
      }
      StartsWith(source, "lodash")
  }

  /** A statement the first query of the transform matches and removes. */
  predicate IsRemoved(s: Stmt) {
    s.Import? && IsLodashImport(s.source)
  }

  /** The program with every matched import declaration removed, the rest in order. */
  function WithoutLodashImports(p: Program): (r: Program)
    ensures |r| <= |p|
    ensures forall s :: s in r <==> s in p && !IsRemoved(s)
  {
    if p == [] then []
    else
      var init := WithoutLodashImports(p[..|p| - 1]);
      var last := p[|p| - 1];
      assert p == p[..|p| - 1] + [last];
      if IsRemoved(last) then init else init + [last]
  }

  /** A single statement is kept exactly when it is not a matched import. */
  lemma WithoutLodashImportsSingle(s: Stmt)
    ensures WithoutLodashImports([s]) == if IsRemoved(s) then [] else [s]
  {
    assert [s][..0] == [];
  }

  /**
   Removal works statement by statement: the kept statements of two programs
   side by side are those of the first, then those of the second, each in
   order and with its repeats.
   */
  lemma {:induction false} WithoutLodashImportsAppend(a: Program, b: Program)
    ensures WithoutLodashImports(a + b) == WithoutLodashImports(a) + WithoutLodashImports(b)
    decreases |b|
  {
    if b == [] {
      assert a + b == a;
    } else {
      var init, last := b[..|b| - 1], b[|b| - 1];
      assert b == init + [last];
      AppendAssoc(a, init, [last]);
      assert ((a + init) + [last])[..|a + init|] == a + init;
      WithoutLodashImportsAppend(a, init);
      var wa, wi := WithoutLodashImports(a), WithoutLodashImports(init);
      if !IsRemoved(last) {
        AppendAssoc(wa, wi, [last]);
      }
    }
  }

  /** Removing import declarations removes no call: the same names are found, in the same order. */
  lemma {:induction false} WithoutLodashImportsKeepsCalls(p: Program, binding: Option<string>)
    ensures FoundAll(WithoutLodashImports(p), binding) == FoundAll(p, binding)
  {
    if p != [] {
      var init := p[..|p| - 1];
      var last := p[|p| - 1];
      WithoutLodashImportsKeepsCalls(init, binding);
      if IsRemoved(last) {
        assert FoundAll(p, binding) == FoundAll(init, binding) + [];
      } else {
        FoundAllSnoc(WithoutLodashImports(init), last, binding);
      }
    }
  }

  /**
   The test `filter` applies at position `i` of `s`: the name is not the
   default name and `i` is the first position holding it. A null default
   name excludes nothing, since no name is null.
   */
  predicate Keeps(s: seq<string>, defaultSpecifier: Option<string>, i: nat)
    requires i < |s|
  {
    Some(s[i]) != defaultSpecifier && IndexOf(s, s[i]) == i
  }

  /**
   The `filter` of cleanSpecifiers over the first `n` positions: the kept
   names are those of the prefix other than the default name, and they come
   in the order of their first positions, all below `n`.
   */
  function FilterUpTo(s: seq<string>, defaultSpecifier: Option<string>, n: nat): (r: seq<string>)
    requires n <= |s|
    ensures forall x :: x in r <==> x in s[..n] && Some(x) != defaultSpecifier
    ensures forall k :: 0 <= k < |r| ==> 0 <= IndexOf(s, r[k]) < n
    ensures forall k, l :: 0 <= k < l < |r| ==> IndexOf(s, r[k]) < IndexOf(s, r[l])
  {
    if n == 0 then []
    else
      var init := FilterUpTo(s, defaultSpecifier, n - 1);
      var x := s[n - 1];
      assert s[..n] == s[..n - 1] + [x];
      if Keeps(s, defaultSpecifier, n - 1) then
        init + [x]
      else
        assert Some(x) != defaultSpecifier ==> x in s[..n - 1] by {
          if Some(x) != defaultSpecifier {
            var j := IndexOf(s, x);
            assert s[..n - 1][j] == x;
          }
        }
        init
  }

  /**
   cleanSpecifiers: each collected name once, at its first occurrence and in
   the original order, and never the default name.
   */
  function CleanSpecifiers(s: seq<string>, defaultSpecifier: Option<string>): (r: seq<string>)
    ensures NoDuplicates(r)
    ensures forall x :: x in r <==> x in s && Some(x) != defaultSpecifier
    ensures forall k, l :: 0 <= k < l < |r| ==> IndexOf(s, r[k]) < IndexOf(s, r[l])
  {
    assert s[..|s|] == s;
    FilterUpTo(s, defaultSpecifier, |s|)
  }

  /**
   Without a default name, cleaning is the use set of the newer variant:
   adding the names one by one to a `Set` keeps the same names in the same
   order.
   */
  lemma {:induction false} FilterWithoutDefault(s: seq<string>, n: nat)
    requires n <= |s|
    ensures FilterUpTo(s, None, n) == Dedup(s[..n])
  {
    if n > 0 {
      FilterWithoutDefault(s, n - 1);
      var x := s[n - 1];
      assert s[..n][..n - 1] == s[..n - 1];
      assert s[..n][n - 1] == x;
      var j := IndexOf(s, x);
      if j == n - 1 {
        assert x !in s[..n - 1];
      } else {
        assert s[..n - 1][j] == x;
      }
    }
  }

  lemma CleanSpecifiersWithoutDefault(s: seq<string>)
    ensures CleanSpecifiers(s, None) == Dedup(s)
  {
    FilterWithoutDefault(s, |s|);
    assert s[..|s|] == s;
  }

  /**
   createImport: the default import of `name` from its own submodule. The
   created declaration is no lodash import by this variant's own test, so a
   second run leaves it in place.
   */
  function CreateImport(name: string): (r: Stmt)
    ensures r.Import? && !IsLodashImport(r.source)
  {
    assert (Pipeline.MainPrefix + name)[..7] == "lodash/";
    DefaultImport(name, Pipeline.MainPrefix + name)
  }

  /**
   The loop of src/original.js:31-36: one created import per name, in the
   order of the names, none of which a later run would remove.
   */
  function CreateImports(names: seq<string>): (r: Program)
    ensures |r| == |names|
    ensures forall k :: 0 <= k < |r| ==> r[k].Import? && !IsRemoved(r[k])
  {
    seq(|names|, k requires 0 <= k < |names| => CreateImport(names[k]))
  }

  /** The imports this variant creates are those the newer one synthesizes for the main module. */
  lemma CreateImportsAreSynthesized(names: seq<string>)
    ensures CreateImports(names) == Pipeline.Synthesize(names, Pipeline.MainPrefix)
  {
  }

  /** The removal query of src/original.js:12-22: every matched import declaration is removed. */
  method RemoveLodashImports(p: Program) returns (kept: Program)
    ensures kept == WithoutLodashImports(p)
  {
    kept := [];
    var i := 0;
    while i < |p|
      invariant 0 <= i <= |p|
      invariant kept == WithoutLodashImports(p[..i])
    {
      assert p[..i + 1][..i] == p[..i];
      if !IsRemoved(p[i]) {
        kept := kept + [p[i]];
      }
      i := i + 1;
    }
    assert p[..|p|] == p;
  }

  /** Rewriting one more statement appends its rewritten form. */
  lemma RewriteAllSnoc(p: Program, s: Stmt, binding: Option<string>)
    ensures RewriteAll(p + [s], binding) == RewriteAll(p, binding) + [RewriteStmt(s, binding)]
  {
  }

  /**
   The call query of src/original.js:25-27: the property name of every call
   through the default name is appended to `named`, in the order the query
   visits the calls, and every such call is rewritten.
   */
  method CollectAndRewrite(kept: Program, defaultSpecifier: Option<string>, named: seq<string>)
    returns (specifiers: seq<string>, body: Program)
    ensures specifiers == named + FoundAll(kept, defaultSpecifier)
    ensures body == RewriteAll(kept, defaultSpecifier)
  {
    specifiers := named;
    body := [];
    var k := 0;
    while k < |kept|
      invariant 0 <= k <= |kept|
      invariant specifiers == named + FoundAll(kept[..k], defaultSpecifier)
      invariant body == RewriteAll(kept[..k], defaultSpecifier)
    {
      var done, next := kept[..k], kept[k];
      assert kept[..k + 1] == done + [next];
      FoundAllSnoc(done, next, defaultSpecifier);
      RewriteAllSnoc(done, next, defaultSpecifier);
      AppendAssoc(named, FoundAll(done, defaultSpecifier), FoundStmt(next, defaultSpecifier));
      specifiers := specifiers + FoundStmt(next, defaultSpecifier);
      body := body + [RewriteStmt(next, defaultSpecifier)];
      k := k + 1;
    }
    assert kept[..|kept|] == kept;
  }

  /**
   The emission of src/original.js:29-37: one created import per cleaned
   name, and none at all when nothing was collected.
   */
  method EmitImports(specifiers: seq<string>, defaultSpecifier: Option<string>) returns (emitted: Program)
    ensures emitted == CreateImports(CleanSpecifiers(specifiers, defaultSpecifier))
  {
    emitted := [];
    if |specifiers| > 0 {
      var cleaned := CleanSpecifiers(specifiers, defaultSpecifier);
      for n := 0 to |cleaned|
        invariant emitted == CreateImports(cleaned[..n])
      {
        assert cleaned[..n + 1] == cleaned[..n] + [cleaned[n]];
        emitted := emitted + [CreateImport(cleaned[n])];
      }
      assert cleaned[..|cleaned|] == cleaned;
    }
  }

  /**
   The default export of src/original.js over one parsed file. The default
   name and the named locals that the import callback collects are given as
   inputs. The result is the program left after removal and rewriting, and
   the insertions requested for it, in request order. Whether and where each
   lands is left to the toolkit: it goes before the first remaining
   declaration, and is dropped when none remains.
   */
  method TransformFile(p: Program, defaultSpecifier: Option<string>, named: seq<string>)
    returns (body: Program, emitted: Program)
    ensures body == RewriteAll(WithoutLodashImports(p), defaultSpecifier)
    ensures emitted == CreateImports(CleanSpecifiers(named + FoundAll(p, defaultSpecifier), defaultSpecifier))
  {
    var kept := RemoveLodashImports(p);
    var specifiers;
    specifiers, body := CollectAndRewrite(kept, defaultSpecifier, named);
    WithoutLodashImportsKeepsCalls(p, defaultSpecifier);
    emitted := EmitImports(specifiers, defaultSpecifier);
  }

  /**
   No import declaration the first query matches is left in the output, and
   no call through the default name either.
   */
  lemma OutputHasNoLodashImport(p: Program, defaultSpecifier: Option<string>)
    ensures var body := RewriteAll(WithoutLodashImports(p), defaultSpecifier);
      && (forall s :: s in body ==> !IsRemoved(s))
      && FoundAll(body, defaultSpecifier) == []
  {
    var kept := WithoutLodashImports(p);
    var body := RewriteAll(kept, defaultSpecifier);
    forall s | s in body ensures !IsRemoved(s) {
      var i :| 0 <= i < |body| && body[i] == s;
      assert kept[i] in kept;
    }
    RewriteAllLeavesNoMatches(kept, defaultSpecifier);
  }

  /**
   The emitted imports: `import m from 'lodash/m'` exactly for the collected
   names other than the default name, no two from the same submodule, and
   none at all when every collected name is the default name.
   */
  lemma OneImportPerCollectedName(p: Program, defaultSpecifier: Option<string>, named: seq<string>)
    ensures var collected := named + FoundAll(p, defaultSpecifier);
      var emitted := CreateImports(CleanSpecifiers(collected, defaultSpecifier));
      && (forall m :: CreateImport(m) in emitted <==> m in collected && Some(m) != defaultSpecifier)
      && (forall k, l :: 0 <= k < l < |emitted| ==> emitted[k].source != emitted[l].source)
      && (emitted == [] <==> forall m :: m in collected ==> Some(m) == defaultSpecifier)
  {
    var collected := named + FoundAll(p, defaultSpecifier);
    var cleaned := CleanSpecifiers(collected, defaultSpecifier);
    CreateImportsAreSynthesized(cleaned);
    Pipeline.SynthesizeOnePerMethod(cleaned, Pipeline.MainPrefix);
    if cleaned != [] {
      assert cleaned[0] in cleaned;
    }
  }
}
