/**
 Stage 4 of the codemod: finding the calls made through a recorded default
 binding (`_.map(xs, f)`) and rewriting each to a bare call (`map(xs, f)`)
 (src/index.js:13-14, 92-98, 125-139). The same predicate and rewrite are
 used by the older single-binding variant (src/original.js:39-45, 64-66).
 */
module CallSites {
  import opened Ast

  /**
   isLodashExpression / isLodashFPExpression: a call whose callee is a member
   access on an identifier equal to the recorded binding. With no binding
   recorded (null in the source) nothing matches, since an identifier's name
   is never null.
   */
  predicate IsLodashExpression(e: Expr, binding: Option<string>) {
    e.Call? && e.callee.Member? && e.callee.obj.Ident? && binding == Some(e.callee.obj.name)
  }

  /**
   replaceExpression: a call of the bare property name with the same argument
   list. The replacement is a call through no binding at all, so the only
   calls left to find in it are those in its arguments.
   */
  function ReplaceExpression(e: Expr): (r: Expr)
    requires e.Call? && e.callee.Member?
    ensures forall b :: !IsLodashExpression(r, b)
    ensures forall b :: Found(r, b) == FoundSeq(e.arguments, b)
  {
    Call(Ident(e.callee.property), e.arguments)
  }

  /**
   The property names of the matching calls inside `e`, in the order in which
   the tree query visits them: a node before its callee, its callee before its
   arguments, the arguments left to right.
   */
  function Found(e: Expr, binding: Option<string>): seq<string>
    decreases e, 1
  {
    match e
    case Call(callee, args) =>
      (if IsLodashExpression(e, binding) then [callee.property] else [])
      + Found(callee, binding) + FoundSeq(args, binding)
    case Member(obj, _) => Found(obj, binding)
    case _ => []
  }

  function FoundSeq(es: seq<Expr>, binding: Option<string>): seq<string>
    decreases es, 0
  {
    if es == [] then [] else Found(es[0], binding) + FoundSeq(es[1..], binding)
  }

  /**
   Every matching call replaced by `ReplaceExpression`. The replacement keeps
   the argument list itself, so matching calls nested in the arguments are
   rewritten too.
   */
  function Rewrite(e: Expr, binding: Option<string>): Expr
  {
    match e
    case Call(callee, args) =>
      var args' := seq(|args|, i requires 0 <= i < |args| => Rewrite(args[i], binding));
      if IsLodashExpression(e, binding) then ReplaceExpression(Call(callee, args'))
      else Call(Rewrite(callee, binding), args')
    case Member(obj, property) => Member(Rewrite(obj, binding), property)
    case _ => e
  }

  /** The calls found in a whole program, statement by statement. */
  function FoundAll(p: Program, binding: Option<string>): seq<string>
  {
    if p == [] then []
    else FoundAll(p[..|p| - 1], binding) + FoundStmt(p[|p| - 1], binding)
  }

  function FoundStmt(s: Stmt, binding: Option<string>): seq<string> {
    if s.ExprStmt? then Found(s.expr, binding) else []
  }

  function RewriteStmt(s: Stmt, binding: Option<string>): Stmt {
    if s.ExprStmt? then ExprStmt(Rewrite(s.expr, binding)) else s
  }

  function RewriteAll(p: Program, binding: Option<string>): (r: Program)
    ensures |r| == |p|
  {
    seq(|p|, i requires 0 <= i < |p| => RewriteStmt(p[i], binding))
  }

  /** A tree with no matching call comes back unchanged. */
  lemma {:induction false} RewriteWithoutMatches(e: Expr, binding: Option<string>)
    requires Found(e, binding) == []
    ensures Rewrite(e, binding) == e
    decreases e
  {
    match e
    case Call(callee, args) =>
      RewriteWithoutMatches(callee, binding);
      forall i | 0 <= i < |args| ensures Rewrite(args[i], binding) == args[i] {
        FoundSeqElement(args, binding, i);
        RewriteWithoutMatches(args[i], binding);
      }
    case Member(obj, _) =>
      RewriteWithoutMatches(obj, binding);
    case _ =>
  }

  /** Each argument's matches are part of the matches of the whole list. */
  lemma {:induction false} FoundSeqElement(es: seq<Expr>, binding: Option<string>, i: nat)
    requires i < |es|
    ensures FoundSeq(es, binding) == [] ==> Found(es[i], binding) == []
  {
    if i > 0 {
      FoundSeqElement(es[1..], binding, i - 1);
    }
  }

  /** With no binding recorded, no call matches. */
  lemma {:induction false} NoBindingNoMatches(e: Expr)
    ensures Found(e, None) == []
    decreases e, 1
  {
    match e
    case Call(callee, args) =>
      NoBindingNoMatches(callee);
      NoBindingNoMatchesSeq(args);
    case Member(obj, _) =>
      NoBindingNoMatches(obj);
    case _ =>
  }

  lemma {:induction false} NoBindingNoMatchesSeq(es: seq<Expr>)
    ensures FoundSeq(es, None) == []
    decreases es, 0
  {
    if es != [] {
      NoBindingNoMatches(es[0]);
      NoBindingNoMatchesSeq(es[1..]);
    }
  }

  /** The program-level form: with no binding recorded, nothing is found anywhere. */
  lemma {:induction false} NoBindingNoMatchesAll(p: Program)
    ensures FoundAll(p, None) == []
  {
    if p != [] {
      NoBindingNoMatchesAll(p[..|p| - 1]);
      if p[|p| - 1].ExprStmt? {
        NoBindingNoMatches(p[|p| - 1].expr);
      }
    }
  }

  /** After the rewrite no call through the binding is left: the pass is complete. */
  lemma {:induction false} RewriteLeavesNoMatches(e: Expr, binding: Option<string>)
    ensures Found(Rewrite(e, binding), binding) == []
    decreases e
  {
    match e
    case Call(callee, args) =>
      var args' := seq(|args|, i requires 0 <= i < |args| => Rewrite(args[i], binding));
      forall i | 0 <= i < |args'| ensures Found(args'[i], binding) == [] {
        RewriteLeavesNoMatches(args[i], binding);
      }
      FoundSeqEmpty(args', binding);
      if !IsLodashExpression(e, binding) {
        RewriteLeavesNoMatches(callee, binding);
      }
    case Member(obj, _) =>
      RewriteLeavesNoMatches(obj, binding);
    case _ =>
  }

  lemma {:induction false} FoundSeqEmpty(es: seq<Expr>, binding: Option<string>)
    requires forall i :: 0 <= i < |es| ==> Found(es[i], binding) == []
    ensures FoundSeq(es, binding) == []
  {
    if es != [] {
      FoundSeqEmpty(es[1..], binding);
    }
  }

  /** A program made of import declarations only. */
  predicate ImportsOnly(p: Program) {
    forall i :: 0 <= i < |p| ==> p[i].Import?
  }

  /** Appending one statement appends what is found in it. */
  lemma FoundAllSnoc(p: Program, s: Stmt, binding: Option<string>)
    ensures FoundAll(p + [s], binding) == FoundAll(p, binding) + FoundStmt(s, binding)
  {
    assert (p + [s])[..|p|] == p;
  }

  /** The calls found in two programs side by side are those of the first, then those of the second. */
  lemma {:induction false} FoundAllAppend(a: Program, b: Program, binding: Option<string>)
    ensures FoundAll(a + b, binding) == FoundAll(a, binding) + FoundAll(b, binding)
    decreases |b|
  {
    if b == [] {
      assert a + b == a;
    } else {
      var init, last := b[..|b| - 1], b[|b| - 1];
      assert b == init + [last];
      AppendAssoc(a, init, [last]);
      FoundAllSnoc(a + init, last, binding);
      FoundAllSnoc(init, last, binding);
      FoundAllAppend(a, init, binding);
      AppendAssoc(FoundAll(a, binding), FoundAll(init, binding), FoundStmt(last, binding));
    }
  }

  /** Import declarations hold no call: nothing is found in them and the rewrite leaves them alone. */
  lemma {:induction false} ImportsHaveNoCalls(p: Program, binding: Option<string>)
    requires ImportsOnly(p)
    ensures FoundAll(p, binding) == []
    ensures RewriteAll(p, binding) == p
  {
    if p != [] {
      ImportsHaveNoCalls(p[..|p| - 1], binding);
    }
  }

  /**
   Rewriting the calls through one binding neither adds nor removes calls
   through another: the second pass sees what it would have seen first.
   */
  lemma {:induction false} RewriteKeepsOtherMatches(e: Expr, done: Option<string>, other: Option<string>)
    requires done != other
    ensures Found(Rewrite(e, done), other) == Found(e, other)
    decreases e, 1
  {
    match e
    case Call(callee, args) =>
      var args' := seq(|args|, i requires 0 <= i < |args| => Rewrite(args[i], done));
      RewriteKeepsOtherMatchesSeq(args, done, other);
      assert FoundSeq(args', other) == FoundSeq(args, other);
      if IsLodashExpression(e, done) {
        // the call through `done` is no call through `other`, and it becomes a bare call
        assert Found(callee, other) == [];
        assert Found(e, other) == FoundSeq(args, other);
        assert Rewrite(e, done) == Call(Ident(callee.property), args');
        assert Found(Rewrite(e, done), other) == [] + Found(Ident(callee.property), other) + FoundSeq(args', other);
      } else {
        var callee' := Rewrite(callee, done);
        RewriteKeepsOtherMatches(callee, done, other);
        assert Rewrite(e, done) == Call(callee', args');
        if callee.Member? {
          assert callee'.obj == Rewrite(callee.obj, done);
          assert callee'.obj.Ident? <==> callee.obj.Ident?;
        }
        assert IsLodashExpression(Call(callee', args'), other) == IsLodashExpression(e, other);
      }
    case Member(obj, _) =>
      RewriteKeepsOtherMatches(obj, done, other);
    case _ =>
  }

  lemma {:induction false} RewriteKeepsOtherMatchesSeq(es: seq<Expr>, done: Option<string>, other: Option<string>)
    requires done != other
    ensures FoundSeq(seq(|es|, i requires 0 <= i < |es| => Rewrite(es[i], done)), other) == FoundSeq(es, other)
    decreases es, 0
  {
    if es != [] {
      var es' := seq(|es|, i requires 0 <= i < |es| => Rewrite(es[i], done));
      var tail := es[1..];
      assert es'[1..] == seq(|tail|, i requires 0 <= i < |tail| => Rewrite(tail[i], done));
      RewriteKeepsOtherMatches(es[0], done, other);
      RewriteKeepsOtherMatchesSeq(tail, done, other);
    }
  }

  /** The program-level form: the calls through `other` survive a pass over `done` unchanged. */
  lemma {:induction false} RewriteAllKeepsOtherMatches(p: Program, done: Option<string>, other: Option<string>)
    requires done != other
    ensures FoundAll(RewriteAll(p, done), other) == FoundAll(p, other)
  {
    if p != [] {
      var init := p[..|p| - 1];
      RewriteAllKeepsOtherMatches(init, done, other);
      assert RewriteAll(p, done)[..|p| - 1] == RewriteAll(init, done);
      if p[|p| - 1].ExprStmt? {
        RewriteKeepsOtherMatches(p[|p| - 1].expr, done, other);
      }
    }
  }

  /** After a pass over a whole program no call through its binding is left. */
  lemma {:induction false} RewriteAllLeavesNoMatches(p: Program, binding: Option<string>)
    ensures FoundAll(RewriteAll(p, binding), binding) == []
  {
    if p != [] {
      var init := p[..|p| - 1];
      RewriteAllLeavesNoMatches(init, binding);
      assert RewriteAll(p, binding)[..|p| - 1] == RewriteAll(init, binding);
      if p[|p| - 1].ExprStmt? {
        RewriteLeavesNoMatches(p[|p| - 1].expr, binding);
      }
    }
  }

  /** With no binding recorded the pass changes nothing. */
  lemma RewriteAllWithoutBinding(p: Program)
    ensures RewriteAll(p, None) == p
  {
    forall i | 0 <= i < |p| ensures RewriteStmt(p[i], None) == p[i] {
      if p[i].ExprStmt? {
        NoBindingNoMatches(p[i].expr);
        RewriteWithoutMatches(p[i].expr, None);
      }
    }
  }

  /** The rewrite changes an expression exactly when the expression holds a call through the binding. */
  lemma RewriteChangesIffMatches(e: Expr, binding: Option<string>)
    ensures Rewrite(e, binding) == e <==> Found(e, binding) == []
  {
    RewriteLeavesNoMatches(e, binding);
    if Found(e, binding) == [] {
      RewriteWithoutMatches(e, binding);
    }
  }
}
