# lodash cherry-pick imports codemod, modelled in Dafny

This project models a jscodeshift codemod. The codemod rewrites whole-library lodash
imports into one import per method used, so that bundlers can drop the methods a
file never calls. Given a parsed file, `src/index.js`:

1. classifies the import declarations whose source starts with `lodash` into four
   variants: default or named, of `lodash` or of `lodash/fp`;
2. records the local name each default variant binds, the last import winning;
3. expands every named import `{ a as b }` into `import b from 'lodash/a'` (or
   `'lodash/fp/a'`), one per specifier, keeping aliases and order;
4. rewrites each call `B.m(args)` through a recorded binding `B` into `m(args)`,
   adding `m` to an insertion-ordered use set (a JavaScript `Set`); the fp pass
   runs on the tree the main pass has already rewritten;
5. replaces every default import with one `import m from 'lodash/m'` (or
   `'lodash/fp/m'`) per use-set entry, and drops it when the set is empty.

The syntax tree is a sequence of statements: import declarations (a source plus
`Default`, `Named` or `Namespace` specifiers) and expression statements built from
identifiers, non-computed member accesses, calls and literals.

Modules:

- `Ast`: the tree.
- `Classify`: stage 1.
- `CallSites`: the call matching and the call rewrite, shared by both variants.
- `UseSets`: insertion-ordered sets, with `Dedup` as their value and `UseSet` as the
  mutable object.
- `Pipeline`: the whole transform as pure functions: `Transform(p)` is the
  flattening of one replacement block per input statement.
- `Codemod`: the transform as the source runs it. An `Invocation` object holds the
  tree, the two binding variables and the two use sets, and each stage is a method
  that updates them in place. `Codemod.Invocation.Run` is proved to leave exactly
  `Transform(source)`.
- `Properties`: what the transform promises about whole programs.
- `Original`: the older single-binding variant in `src/original.js`, with its
  removal, collection and emission loops written as methods, each proved against a
  specification function.

The tree keeps one slot per top-level statement of the parsed file. A stage that
replaces a statement with zero or more declarations rewrites its slot, so the
collections found in stage 1 still point at the same statements later on, as
jscodeshift paths do. This matters for `import { fp as f } from 'lodash'`: it
expands to `import f from 'lodash/fp'`, which the stage-1 collections never
re-classify.

The codemod does not ensure one import per submodule, and running it twice is not
always the same as running it once:

- Every `import _ from 'lodash'` is replaced by the whole use set
  (src/index.js:106-113), while only the last one's binding is recorded
  (src/index.js:42-51). Two such imports therefore yield every method import twice
  (`Properties.EarlierDefaultImport`).
- A named `{ map }` next to a call `_.map()` likewise yields two imports of
  `lodash/map`: one from the expansion (src/index.js:58-68) and one from the
  synthesis.
- `import { fp as f } from 'lodash'` expands to `import f from 'lodash/fp'`
  (src/index.js:58-68). A second run classifies that as the default fp import
  (`Properties.NamedFPSubmodule`, `Properties.OutputVariants`).

## Model

| member | source | states |
|---|---|---|
| Classify.VariantOf | src/index.js:1-11 | each variant holds exactly when its classifier holds on a lodash-prefixed import, so the four classifiers are mutually exclusive; a statement is left alone exactly when it is no import, its source is neither exactly `lodash` nor `lodash/fp`, it has no specifiers, or it starts with a namespace specifier or with a default specifier followed by more |
| Classify.IsLodashImport | src/index.js:1 | no contract of its own: the query filter, a source starting with `lodash`; `VariantOf` states how it combines with the other classifiers |
| Classify.IsDefaultImport | src/index.js:2-3 | no contract of its own: exactly one specifier, a default one; `VariantOf` states its role |
| Classify.IsDefaultLodashImport | src/index.js:4-5 | no contract of its own: a lone default specifier from exactly `lodash`; `VariantOf` states that it is the default main variant and excludes the others |
| Classify.IsDefaultLodashFPImport | src/index.js:6-7 | no contract of its own: a lone default specifier from exactly `lodash/fp`; `VariantOf` states that it is the default fp variant and excludes the others |
| Classify.IsNamedLodashImport | src/index.js:8-9 | no contract of its own: a non-empty list starting with a named specifier, from exactly `lodash`; `VariantOf` states that it is the named main variant and excludes the others |
| Classify.IsNamedFPLodashImport | src/index.js:10-11 | no contract of its own: a non-empty list starting with a named specifier, from exactly `lodash/fp`; `VariantOf` states that it is the named fp variant and excludes the others |
| Classify.Collection | src/index.js:26-39 | a collection holds positions of statements of its variant only, strictly increasing (source order, each once) |
| Classify.CollectionComplete | src/index.js:26-39 | every statement of a variant is in that variant's collection |
| Classify.WellFormedNamedImports | src/index.js:8-11 | in a program the import grammar admits, a named import holds named specifiers only |
| Pipeline.LastBinding | src/index.js:42-51 | the recorded binding is null exactly when the file has no default import of the variant; otherwise it is the local name of a default import of that variant with none after it |
| Pipeline.LastBindingOfCollection | src/index.js:42-51 | the loop over a default collection leaves the local name of the collection's last member, or null for an empty collection |
| Pipeline.ExpandNamed | src/index.js:58-85 | no contract of its own: one `import local from '<prefix>imported'` per specifier, in order; `ExpandNamedRoundTrip` states what it keeps |
| Pipeline.ExpandNamedRoundTrip | src/index.js:58-85 | a named import of n specifiers becomes exactly n single default imports under the prefix; reading alias and imported name back off them gives the original specifiers in order |
| Pipeline.Synthesize | src/index.js:106-123 | no contract of its own: one `import m from '<prefix>m'` per use-set entry, in order; `SynthesizeOnePerMethod` and `Properties.DefaultImportReplacement` state what it yields |
| Pipeline.SynthesizeOnePerMethod | src/index.js:106-123 | one declaration per use-set entry; `import m from '<prefix>m'` is among them exactly when m is in the use set, and no two import the same submodule |
| Pipeline.ContextOf | src/index.js:20-23 | no contract of its own: the two recorded bindings and the two use sets, the fp use set read off the main-rewritten program; `Properties.FPUsesAfterMainPass` states what the fp use set holds |
| Pipeline.Block | src/index.js:58-123 | no contract of its own: what each variant of statement is replaced by; `Properties.DefaultImportReplacement`, `NamedImportReplacement` and `PassthroughStatement` state it per variant |
| Pipeline.Transform | src/index.js:16-144 | no contract of its own: every statement replaced by its block, in order; `Codemod.Invocation.Run` proves the in-place stages compute it, and the `Properties` lemmas state what it promises |
| CallSites.ReplaceExpression | src/index.js:13-14 | the replacement is a call through no binding at all, and the only calls left to find in it are those of its arguments |
| CallSites.IsLodashExpression | src/index.js:125-139 | no contract of its own: a call whose callee is a member access on an identifier named as the binding; `NoBindingNoMatchesAll` states that a null binding matches nothing |
| CallSites.Found | src/index.js:92-93 | no contract of its own: the property names of the matching calls in query order, node before callee before arguments; `RewriteChangesIffMatches` and `RewriteKeepsOtherMatches` relate it to the rewrite |
| CallSites.FoundAll | src/index.js:92-93 | no contract of its own: the names found statement by statement; `FoundAllAppend` states that it follows document order |
| CallSites.Rewrite | src/index.js:92-98 | no contract of its own: every matching call replaced, nested calls in the kept arguments too; `RewriteLeavesNoMatches`, `RewriteWithoutMatches` and `RewriteKeepsOtherMatches` state what it does |
| CallSites.NoBindingNoMatchesAll | src/index.js:125-139 | with no binding recorded no call matches |
| CallSites.RewriteAllWithoutBinding | src/index.js:125-139 | with no binding recorded the rewrite pass leaves the program unchanged |
| CallSites.RewriteWithoutMatches | src/index.js:92-98 | an expression with no call through the binding is unchanged by the pass |
| CallSites.RewriteChangesIffMatches | src/index.js:92-98 | the pass changes an expression exactly when it holds a call through the binding |
| CallSites.RewriteLeavesNoMatches | src/index.js:92-98 | after the pass no call through the binding is left in an expression, nested calls in arguments included |
| CallSites.RewriteAllLeavesNoMatches | src/index.js:92-98 | after the pass no call through the binding is left in the program |
| CallSites.RewriteKeepsOtherMatches | src/index.js:92-98 | rewriting the calls through one binding leaves the calls through any other binding exactly as they were: same names, same order |
| CallSites.RewriteAllKeepsOtherMatches | src/index.js:92-98 | the same for a whole program: the fp pass after the main pass sees the input's fp calls |
| CallSites.FoundAllAppend | src/index.js:92-93 | the calls found in two programs placed one after the other are those of the first followed by those of the second |
| CallSites.ImportsHaveNoCalls | src/index.js:92-98 | import declarations contribute no call and are left as they are by the pass |
| UseSets.IndexOf | src/original.js:50 | `indexOf` is -1 exactly when the name is absent, and otherwise the position of its first occurrence |
| UseSets.Dedup | src/index.js:93 | the set after adding every name in turn has no duplicates and holds exactly the added names |
| UseSets.DedupFirstOccurrenceOrder | src/index.js:22-23 | the set iterates in the order of the names' first occurrences in the added sequence |
| UseSets.DedupSize | src/index.js:22-23 | the set's size is the number of distinct names added |
| UseSets.UseSet.constructor | src/index.js:22-23 | a new set is empty |
| UseSets.UseSet.Add | src/index.js:93 | `add` appends a new name, leaves the set alone for a known one, and keeps it duplicate-free |
| Codemod.Invocation.constructor | src/index.js:16-39 | one slot per parsed statement, the four collections as `Collection` defines them, no binding and empty use sets |
| Codemod.Invocation.RecordBindings | src/index.js:42-51 | the two `forEach` loops leave each binding as `LastBinding` of its variant |
| Codemod.Invocation.ExpandNamedImports | src/index.js:58-85 | every slot of the named collection holds its statement's expansion; other slots are unchanged |
| Codemod.Invocation.ExpandStage | src/index.js:58-85 | after both named passes each slot holds its statement's expansion |
| Codemod.Invocation.CollectUses | src/index.js:92-97 | the `forEach` leaves the use set equal to the deduplicated names of the calls found in the current tree, in query order |
| Codemod.Invocation.ReplaceCalls | src/index.js:92-98 | `replaceWith` rewrites every slot's calls through the binding and changes nothing else |
| Codemod.Invocation.RewriteCallSites | src/index.js:92-98 | one pass: the use set is the deduplicated names found before the rewrite, and every slot is rewritten |
| Codemod.Invocation.RewriteStage | src/index.js:92-98 | the main use set comes from the input's calls through the main binding, the fp use set from the main-rewritten input's calls through the fp binding, and each slot holds its expansion with both rewrites applied |
| Codemod.Invocation.SynthesizeDefaultImports | src/index.js:106-123 | every slot of a default collection holds one import per use-set entry; other slots are unchanged |
| Codemod.Invocation.SynthesizeStage | src/index.js:106-123 | after both default passes every slot holds its statement's block |
| Codemod.Invocation.Run | src/index.js:16-144 | the stages run in source order leave the tree equal to `Transform(source)` |
| Codemod.TransformFile | src/index.js:16-144 | the exported transform returns `Transform(program)` |
| Properties.TransformWithoutRootImports | src/index.js:26-39 | a program with no import whose source is exactly `lodash` or `lodash/fp` comes back unchanged |
| Properties.FPUsesAfterMainPass | src/index.js:92-98 | with distinct bindings the fp use set is the deduplicated fp calls of the input; with equal bindings it is empty |
| Properties.DefaultImportReplacement | src/index.js:106-123 | a default import is replaced by as many declarations as distinct methods called through its binding, one `import m from '<prefix>m'` per called method m and none else, no two for the same submodule, and nothing at all when no method is called |
| Properties.NamedImportReplacement | src/index.js:58-85 | a named import is replaced by exactly its specifiers' expansions, in order, each `import local from '<prefix>imported'` found in the output |
| Properties.PassthroughStatement | src/index.js:92-98 | an unclassified statement stays one statement; an import or a statement with no call through a binding is unchanged |
| Properties.BlockHasNoBoundCalls | src/index.js:92-98 | no statement of a replacement block calls through either recorded binding |
| Properties.NoBoundCallsRemain | src/index.js:92-98 | no call through either recorded binding remains anywhere in the output |
| Properties.BlockVariant | src/index.js:58-123 | a replacement block holds no default `lodash` import and no named import of either module |
| Properties.OutputVariants | src/index.js:58-123 | the output holds only unclassified statements and default `lodash/fp` imports |
| Properties.NamedFPSubmodule | src/index.js:58-68 | `{ fp as f }` from `lodash` becomes `import f from 'lodash/fp'`, which classifies as the default fp import |
| Properties.EarlierDefaultImport | src/index.js:42-113 | with two default `lodash` imports, the binding is that of the later one, and both are replaced by the same synthesized declarations |
| Original.IsLodashImport | src/original.js:60-62 | true exactly when the newer variant's query matches the source and the source is not a path under `lodash/`, the kind of path both variants create |
| Original.WithoutLodashImports | src/original.js:12-22 | the kept statements are exactly the input's statements that are not matched imports |
| Original.WithoutLodashImportsSingle | src/original.js:12-22 | a single statement is kept exactly when it is not a matched import |
| Original.WithoutLodashImportsAppend | src/original.js:12-22 | removal works statement by statement: the kept statements of two programs side by side are those of the first, then those of the second, so order and repeats are kept |
| Original.WithoutLodashImportsKeepsCalls | src/original.js:12-27 | removing the matched imports leaves the calls found unchanged, names and order |
| Original.FilterUpTo | src/original.js:48-52 | the filtered prefix holds exactly its names other than the default name, ordered by first position |
| Original.Keeps | src/original.js:48-51 | no contract of its own: the filter's test at one position, not the default name and `indexOf` equal to the position; `FilterUpTo` states what keeping exactly these positions gives |
| Original.CleanSpecifiers | src/original.js:47-53 | the cleaned list has no duplicates, holds exactly the collected names other than the default name, and keeps them in order of first occurrence |
| Original.FilterWithoutDefault | src/original.js:47-53 | without a default name, the filter over every prefix equals the use set of that prefix |
| Original.CleanSpecifiersWithoutDefault | src/original.js:47-53 | without a default name, cleaning gives the same list as the newer variant's use set |
| Original.CreateImport | src/original.js:68-73 | the created import is one that this variant's own filter does not match |
| Original.CreateImports | src/original.js:31-36 | one created import per name, and none of them one that this variant's filter would remove |
| Original.CreateImportsAreSynthesized | src/original.js:68-73 | the created imports are exactly the main-module declarations the newer variant synthesizes |
| Original.RemoveLodashImports | src/original.js:12-22 | the removal loop leaves `WithoutLodashImports(p)` |
| Original.CollectAndRewrite | src/original.js:25-27 | the collected names are the named locals followed by the found calls' names, and the body is the rewritten program |
| Original.EmitImports | src/original.js:29-37 | one created import per cleaned name, in order, and none when nothing was collected |
| Original.TransformFile | src/original.js:6-58 | the output body is the program without matched imports and with calls rewritten; the emitted imports are the created imports of the cleaned collected names |
| Original.OutputHasNoLodashImport | src/original.js:12-27 | no matched import and no call through the default name is left in the output body |
| Original.OneImportPerCollectedName | src/original.js:29-37 | `import m from 'lodash/m'` is emitted exactly for the collected names other than the default name; no two emitted imports share a submodule; nothing is emitted when every collected name is the default name |

## Left out

- Parsing and printing are not modelled: `j(file.source)`, `toSource({ quote: 'single' })` and the `parser = 'tsx'` setting. The model starts from a parsed tree and ends with one.
- `WellFormed` stands for the import grammar the parser enforces: no default specifier after the first, and no named specifier beside a namespace one.
- Computed and optional member callees (`_['map']()`, `_?.map()`) are not modelled. The callee is a plain member access on an expression. A callee whose object is not an identifier never matches.
- Namespace imports are modelled only so that they pass through unchanged. No code path handles them.
- Tree positions finer than top-level statements are not modelled. The calls found inside a statement are visited node first, then callee, then arguments, the order the tree query visits them.
- The jscodeshift path mechanics of `replaceWith` on paths nested inside a replaced node are not modelled. Replacing a call keeps its argument list, so the model rewrites nested matching calls too.
- The duplicate named import line in the inline snapshot of `src/index.spec.js` is not reproduced. It comes from how the toolkit prints replaced paths. The model replaces what the code asks to replace.
- Original.TransformFile: the default name and the named locals are inputs, not derived from the import declarations. The `forEach` callback in `src/original.js` reads specifier fields off the declaration path, so what it collects depends on the toolkit's path objects.
- Original.TransformFile: `emitted` lists the insertions requested, not those made. The source inserts each before the first remaining declaration and inserts none when no declaration remains; the tree does not tell which expression statements are declarations.
- Original.TransformFile: the position of each emitted import is not modelled, only the list in insertion order. Each insertion lands before the first node the toolkit types as a declaration.
- Original.CreateImport: its contract does not restate the declaration's shape. `Original.CreateImportsAreSynthesized` gives that shape by equating the created imports with the newer variant's synthesized ones.
