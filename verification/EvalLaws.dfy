/**
 What a script's expressions and statements do to the backend: each call in the program is one call
 of the backend, on the capability named, with the argument given, and its answer is the value.
 */
module EvalLaws {
  import opened Text
  import opened Ast
  import opened Evaluator
  import Template
  import Paths

  // ---- method calls ----

  /** The backend call that `cap.m(arg, ...)` stands for. */
  predicate Stands(call: Call, cap: Cap, m: string, args: seq<Value>)
  {
    match call
    case Readonly(c) => m == "readonly" && c == cap
    case Describe(c) => m == "describe" && c == cap
    case Read(c, path) => m == "read" && c == cap && args != [] && args[0] == VData(path)
    case ListDir(c, path) => m == "list" && c == cap && args != [] && args[0] == VData(path)
    case Sub(c, seg) => m == "sub" && c == cap && args != [] && args[0] == VData(seg)
    case Send(c, data) => m == "send" && c == cap && args != [] && args[0] == VData(data)
    case _ => false
  }

  /** The value an answer to the call gives; `None` is an error. */
  function Gives(call: Call, a: Answer): Option<Value>
  {
    match call
    case Readonly(_) => if a.ACap? then Some(VCap(a.cap)) else None
    case Sub(_, _) => if a.ACap? then Some(VCap(a.cap)) else None
    case GrantDir(_, _, _) => if a.ACap? then Some(VCap(a.cap)) else None
    case GrantSink(_) => if a.ACap? then Some(VCap(a.cap)) else None
    case GrantCmd(_, _) => if a.ACap? then Some(VCap(a.cap)) else None
    case Send(_, _) => if a.Failed? then None else Some(VUnit)
    case _ => if a.AText? then Some(VData(a.text)) else None
  }

  /** From `t` the trace grows by exactly this call, and the outcome is what the backend's answer gives. */
  predicate OneCall(b: Backend, t: Trace, call: Call, o: Out<Value>)
  {
    o.tr == t + [Step(call, b.answers(|t|))] && o.v == Gives(call, b.answers(|t|))
  }

  /** The receiver and the arguments evaluated to these, the arguments first. */
  predicate Ready(b: Backend, env: Env, recv: Expr, args: List<Expr>, t: Trace, cap: Cap, vs: seq<Value>, u: Trace)
  {
    var a := EvalAll(b, env, args, t);
    var r := Eval(b, env, recv, a.tr);
    a.v == Some(vs) && r == Out(Some(VCap(cap)), u)
  }

  lemma {:induction false} MethodIsOneCall(b: Backend, cap: Cap, m: string, args: seq<Value>, t: Trace)
    ensures
      var o := Method(b, cap, m, args, t);
      if exists call :: Stands(call, cap, m, args) then
        exists call :: Stands(call, cap, m, args) && OneCall(b, t, call, o)
      else o == Out(None, t)
  {
    var o := Method(b, cap, m, args, t);
    if m == "readonly" {
      assert Stands(Readonly(cap), cap, m, args) && OneCall(b, t, Readonly(cap), o);
    } else if m == "describe" {
      assert Stands(Describe(cap), cap, m, args) && OneCall(b, t, Describe(cap), o);
    } else if args != [] && args[0].VData? {
      DataMethod(b, cap, m, args, t);
    }
  }

  lemma {:induction false} DataMethod(b: Backend, cap: Cap, m: string, args: seq<Value>, t: Trace)
    requires args != [] && args[0].VData? && m != "readonly" && m != "describe"
    ensures
      var o := Method(b, cap, m, args, t);
      if exists call :: Stands(call, cap, m, args) then
        exists call :: Stands(call, cap, m, args) && OneCall(b, t, call, o)
      else o == Out(None, t)
  {
    var o, s := Method(b, cap, m, args, t), args[0].text;
    if m == "read" {
      assert Stands(Read(cap, s), cap, m, args) && OneCall(b, t, Read(cap, s), o);
    } else if m == "list" {
      assert Stands(ListDir(cap, s), cap, m, args) && OneCall(b, t, ListDir(cap, s), o);
    } else if m == "sub" {
      assert Stands(Sub(cap, s), cap, m, args) && OneCall(b, t, Sub(cap, s), o);
    } else if m == "send" {
      assert Stands(Send(cap, s), cap, m, args) && OneCall(b, t, Send(cap, s), o);
    }
  }

  lemma OneStanding(c1: Call, c2: Call, cap: Cap, m: string, args: seq<Value>)
    requires Stands(c1, cap, m, args) && Stands(c2, cap, m, args)
    ensures c1 == c2
  {
  }

  /**
   A method call in a program is one call of the backend: after its arguments and its receiver, the
   trace grows by exactly the call that the method stands for, on the receiver's capability with the
   first argument, and the value is what that call's answer gives. A method that stands for nothing
   is an error and asks nothing.
   */
  lemma {:induction false} CallAsksBackend(b: Backend, env: Env, recv: Expr, m: string, args: List<Expr>, t: Trace,
                                           cap: Cap, vs: seq<Value>, u: Trace)
    requires Ready(b, env, recv, args, t, cap, vs, u)
    ensures
      var o := Eval(b, env, EMethod(recv, m, args), t);
      && (forall call :: Stands(call, cap, m, vs) ==> OneCall(b, u, call, o))
      && ((forall call :: !Stands(call, cap, m, vs)) ==> o == Out(None, u))
  {
    hide Method, Stands, OneCall;
    MethodIsOneCall(b, cap, m, vs, u);
    forall call | Stands(call, cap, m, vs) ensures OneCall(b, u, call, Eval(b, env, EMethod(recv, m, args), t)) {
      var c2 :| Stands(c2, cap, m, vs) && OneCall(b, u, c2, Method(b, cap, m, vs, u));
      OneStanding(call, c2, cap, m, vs);
    }
  }

  /** Whatever a method call succeeds with was answered by the backend to that very call. */
  lemma {:induction false} CallSucceedsThroughBackend(b: Backend, env: Env, recv: Expr, m: string, args: List<Expr>,
                                                      t: Trace)
    ensures
      var o := Eval(b, env, EMethod(recv, m, args), t);
      o.v.Some? ==> exists cap, vs, u, call ::
        Ready(b, env, recv, args, t, cap, vs, u) && Stands(call, cap, m, vs) && OneCall(b, u, call, o)
  {
    hide Stands, OneCall, Method;
    var o := Eval(b, env, EMethod(recv, m, args), t);
    if o.v.Some? {
      var a := EvalAll(b, env, args, t);
      var r := Eval(b, env, recv, a.tr);
      assert Ready(b, env, recv, args, t, r.v.value.cap, a.v.value, r.tr);
      MethodIsOneCall(b, r.v.value.cap, m, a.v.value, r.tr);
      var call :| Stands(call, r.v.value.cap, m, a.v.value) && OneCall(b, r.tr, call, o);
    }
  }

  /** The first argument is what its expression evaluates to, first of all. */
  lemma FirstArgument(b: Backend, env: Env, args: List<Expr>, t: Trace)
    requires args.Cons?
    ensures
      var a := EvalAll(b, env, args, t);
      a.v.Some? ==> a.v.value != [] && Eval(b, env, args.head, t).v == Some(a.v.value[0])
  {
    hide Eval;
  }

  // ---- run, print and grants ----

  /** `run(x)` is one call on the capability given; its answer is the value. */
  lemma {:induction false} RunAsksBackend(b: Backend, env: Env, args: List<Expr>, t: Trace)
    ensures
      var o, a := Eval(b, env, ECall("run", args), t), EvalAll(b, env, args, t);
      if a.v.Some? && |a.v.value| == 1 && a.v.value[0].VCap? then OneCall(b, a.tr, Run(a.v.value[0].cap), o)
      else o == Out(None, a.tr)
  {
    hide EvalAll;
  }

  /** `print(x)` asks the backend to describe a capability, and nothing for other values; it gives unit. */
  lemma {:induction false} PrintAsksBackend(b: Backend, env: Env, args: List<Expr>, t: Trace)
    ensures
      var o, a := Eval(b, env, ECall("print", args), t), EvalAll(b, env, args, t);
      if a.v == None || |a.v.value| != 1 then o == Out(None, a.tr)
      else if !a.v.value[0].VCap? then o == Out(Some(VUnit), a.tr)
      else
        && o.tr == a.tr + [Step(Describe(a.v.value[0].cap), b.answers(|a.tr|))]
        && o.v == if b.answers(|a.tr|).Failed? then None else Some(VUnit)
  {
    hide EvalAll;
  }

  /** A grant is one call, with what the text says: writable if listed so, secret if listed or named so. */
  lemma {:induction false} GrantAsksBackend(b: Backend, env: Env, path: string, ops: List<string>, sink: string,
                                            t: Trace)
    ensures
      var writable := Among("write", ops);
      var secret := Among("secret", ops) || Paths.Contains(path, "secret") || Paths.Contains(path, "vault")
                    || Paths.Contains(path, ".ssh") || Paths.Contains(path, ".env");
      && OneCall(b, t, GrantDir(path, writable, secret), Eval(b, env, EGrantDir(path, ops), t))
      && OneCall(b, t, GrantSink(sink), Eval(b, env, EGrantSink(sink), t))
  {
    hide Paths.Contains;
    AmongIsListed("write", ops);
    AmongIsListed("secret", ops);
  }

  /** A command grant is one call: the directory its `cwd` field gives, and the words of its template filled in. */
  lemma {:induction false} CommandAsksBackend(b: Backend, env: Env, segs: seq<Seg>, fields: List<Field>, t: Trace)
    ensures
      var o, cwd := Eval(b, env, EGrantCmd(segs, fields), t), FieldNamed(fields, "cwd");
      if !Template.AllData(DataOf(env), segs) || cwd == None then o == Out(None, t)
      else
        var d := Eval(b, env, cwd.value, t);
        if d.v.Some? && d.v.value.VCap? then
          exists argv :: OneCall(b, d.tr, GrantCmd(d.v.value.cap, argv), o) && FilledWords(env, segs, argv)
        else o == Out(None, d.tr)
  {
    hide Template.AllData, Template.Words, Template.Subst, Template.Atoms, FieldNamed;
    FieldIsSmaller(fields, "cwd");
    var cwd := FieldNamed(fields, "cwd");
    if Template.AllData(DataOf(env), segs) && cwd.Some? {
      var d := Eval(b, env, cwd.value, t);
      var argv := Template.SubstAll(DataOf(env), Template.Words(Template.Atoms(segs), []));
      if d.v.Some? && d.v.value.VCap? {
        assert OneCall(b, d.tr, GrantCmd(d.v.value.cap, argv), Eval(b, env, EGrantCmd(segs, fields), t));
        assert FilledWords(env, segs, argv);
      }
    }
  }

  /** One argument for each word of the template, with the names' values put in. */
  ghost predicate FilledWords(env: Env, segs: seq<Seg>, argv: seq<string>)
  {
    var words := Template.Words(Template.Atoms(segs), []);
    |argv| == |words| && forall i :: 0 <= i < |words| ==> argv[i] == Template.Subst(DataOf(env), words[i])
  }

  /** Names mean data to a template exactly when they are bound to data. */
  lemma TemplatesSeeData(env: Env, n: string)
    ensures Template.Lookup(DataOf(env), n) == if n in env && env[n].VData? then Some(env[n].text) else None
  {
  }

  function ItemsOf(names: List<string>): seq<string>
  {
    match names
    case Nil => []
    case Cons(n, rest) => [n] + ItemsOf(rest)
  }

  predicate Among(n: string, names: List<string>) { n in ItemsOf(names) }

  lemma {:induction false} AmongIsListed(n: string, names: List<string>)
    ensures Listed(names, n) <==> Among(n, names)
  {
    if names.Cons? { AmongIsListed(n, names.tail); }
  }

  // ---- statements ----

  /** `let` makes the name mean the value, and changes no other name. */
  lemma LetBinds(b: Backend, env: Env, n: string, e: Expr, t: Trace, u: Trace)
    ensures
      var v, o := Eval(b, env, e, t), Exec(b, env, SLet(n, e), t);
      && o.tr == v.tr && (o.v.Some? <==> v.v.Some?)
      && (o.v.Some? ==>
            && Eval(b, o.v.value, EVar(n), u) == Out(v.v, u)
            && forall x :: x != n ==> Eval(b, o.v.value, EVar(x), u) == Eval(b, env, EVar(x), u))
  {
  }

  function Then(p: List<Stmt>, q: List<Stmt>): List<Stmt>
  {
    match p
    case Nil => q
    case Cons(s, rest) => Cons(s, Then(rest, q))
  }

  /** Programs run one part after the other, in the table and the trace the first leaves, to the first error. */
  lemma {:induction false} ProgramsCompose(b: Backend, env: Env, p: List<Stmt>, q: List<Stmt>, t: Trace)
    ensures
      var o := ExecAll(b, env, p, t);
      ExecAll(b, env, Then(p, q), t) == if o.v == None then o else ExecAll(b, o.v.value, q, o.tr)
    decreases p
  {
    hide Exec;
    if p.Cons? {
      var first := Exec(b, env, p.head, t);
      if first.v.Some? { ProgramsCompose(b, first.v.value, p.tail, q, first.tr); }
    }
  }

  /** One statement is a program: it runs. */
  lemma OneStatement(b: Backend, env: Env, s: Stmt, t: Trace)
    ensures ExecAll(b, env, Cons(s, Nil), t) == Exec(b, env, s, t)
  {
    hide Exec;
  }

  // ---- scopes ----

  /** The last place in the list that carries the name. */
  predicate LastNamed(bound: seq<Binding>, n: string, i: nat)
    requires i < |bound|
  {
    bound[i].name == n && forall j :: i < j < |bound| ==> bound[j].name != n
  }

  /** A scope's table means by each listed name the last value listed under it, and knows no other name. */
  lemma {:induction false} ScopeMeansItsList(bound: seq<Binding>, n: string)
    ensures n in ScopeEnv(bound) <==> exists i :: 0 <= i < |bound| && bound[i].name == n
    ensures forall i :: 0 <= i < |bound| && LastNamed(bound, n, i) ==>
      n in ScopeEnv(bound) && ScopeEnv(bound)[n] == bound[i].value
  {
    hide LastNamed;
    ScopeNames(bound, n);
    forall i | 0 <= i < |bound| && LastNamed(bound, n, i)
      ensures n in ScopeEnv(bound) && ScopeEnv(bound)[n] == bound[i].value
    {
      LastWins(bound, n, i);
    }
  }

  lemma {:induction false} ScopeNames(bound: seq<Binding>, n: string)
    ensures n in ScopeEnv(bound) <==> exists i :: 0 <= i < |bound| && bound[i].name == n
  {
    if bound != [] {
      var k := |bound| - 1;
      ScopeNames(bound[..k], n);
      if n in ScopeEnv(bound[..k]) {
        var i :| 0 <= i < k && bound[..k][i].name == n;
        assert bound[i].name == n;
      }
      if i :| 0 <= i < |bound| && bound[i].name == n {
        assert i < k ==> bound[..k][i].name == n;
      }
    }
  }

  lemma {:induction false} LastWins(bound: seq<Binding>, n: string, i: nat)
    requires i < |bound| && LastNamed(bound, n, i)
    ensures n in ScopeEnv(bound) && ScopeEnv(bound)[n] == bound[i].value
  {
    var k := |bound| - 1;
    if i < k {
      assert bound[k].name != n;
      assert LastNamed(bound[..k], n, i);
      LastWins(bound[..k], n, i);
    }
  }

  function FieldAt(fs: List<Field>, i: nat): Option<Field>
  {
    match fs
    case Nil => None
    case Cons(f, rest) => if i == 0 then Some(f) else FieldAt(rest, i - 1)
  }

  /** The list is taken as written: each name with what its own expression evaluates to. */
  lemma {:induction false} ListedAsWritten(b: Backend, env: Env, fs: List<Field>, t: Trace, i: nat)
    ensures
      var o := Bind(b, env, fs, t);
      o.v.Some? ==>
        && (i < |o.v.value| <==> FieldAt(fs, i).Some?)
        && (i < |o.v.value| ==>
              && o.v.value[i].name == FieldAt(fs, i).value.name
              && exists u :: Eval(b, env, FieldAt(fs, i).value.value, u).v == Some(o.v.value[i].value))
    decreases fs
  {
    hide Eval;
    if fs.Cons? {
      var first := Eval(b, env, fs.head.value, t);
      if first.v.Some? && i > 0 { ListedAsWritten(b, env, fs.tail, first.tr, i - 1); }
    }
  }

  /** A confined scope is refused exactly for holding both a secret and a sink; any other runs its body. */
  lemma {:induction false} ScopeRunsUnlessItLeaks(b: Backend, env: Env, s: Stmt, t: Trace)
    requires s.SScope? && Bind(b, env, s.binds, t).v.Some?
    ensures
      var bound := Bind(b, env, s.binds, t);
      var o, inner := Exec(b, env, s, t), ExecAll(b, ScopeEnv(bound.v.value), s.body, bound.tr);
      if s.kind == Confine && HoldsSecret(b, bound.v.value) && HoldsSink(b, bound.v.value) then o == Out(None, bound.tr)
      else o.tr == inner.tr && (o.v.Some? <==> inner.v.Some?)
  {
    hide Bind, HoldsSecret, HoldsSink, ScopeEnv, ExecAll;
  }

  /** Every listed expression has the form `e.readonly()`. */
  predicate AllReadonly(fs: List<Field>)
  {
    match fs
    case Nil => true
    case Cons(Field(_, e), rest) => e.EMethod? && e.name == "readonly" && AllReadonly(rest)
  }

  /** Every capability in the list was the answer to a `Readonly` call between `t` and `u`. */
  ghost predicate AnsweredReadonly(bound: seq<Binding>, t: Trace, u: Trace)
  {
    forall i :: 0 <= i < |bound| ==> bound[i].value.VCap? && ReadonlyAnswer(bound[i].value.cap, t, u)
  }

  ghost predicate ReadonlyAnswer(cap: Cap, t: Trace, u: Trace)
  {
    exists k :: |t| <= k < |u| && u[k].call.Readonly? && u[k].answer == ACap(cap)
  }

  lemma {:induction false} ReadonlyExpression(b: Backend, env: Env, e: Expr, t: Trace)
    requires e.EMethod? && e.name == "readonly"
    ensures
      var o := Eval(b, env, e, t);
      t <= o.tr && (o.v.Some? ==> o.v.value.VCap? && ReadonlyAnswer(o.v.value.cap, t, o.tr))
  {
    hide Eval, OneCall, Tame, Ready, Stands;
    var o := Eval(b, env, e, t);
    EvalTame(b, env, e, t);
    TameParts(Caps(env), t, o);
    if o.v.Some? {
      CallSucceedsThroughBackend(b, env, e.recv, e.name, e.args, t);
      var cap, vs, u, call :|
        Ready(b, env, e.recv, e.args, t, cap, vs, u) && Stands(call, cap, e.name, vs) && OneCall(b, u, call, o);
      ReadyGrows(b, env, e.recv, e.args, t, cap, vs, u);
      OnlyReadonly(call, cap, vs);
      LastStep(b, t, u, call, o);
    }
  }

  lemma OnlyReadonly(call: Call, cap: Cap, args: seq<Value>)
    requires Stands(call, cap, "readonly", args)
    ensures call == Readonly(cap)
  {
  }

  lemma LastStep(b: Backend, t: Trace, u: Trace, call: Call, o: Out<Value>)
    requires t <= u && call.Readonly? && OneCall(b, u, call, o) && o.v.Some?
    ensures o.v.value.VCap? && ReadonlyAnswer(o.v.value.cap, t, o.tr)
  {
    assert o.tr[|u|] == Step(call, b.answers(|u|));
  }

  lemma {:induction false} ReadyGrows(b: Backend, env: Env, recv: Expr, args: List<Expr>, t: Trace, cap: Cap,
                                      vs: seq<Value>, u: Trace)
    requires Ready(b, env, recv, args, t, cap, vs, u)
    ensures t <= u
  {
    hide Eval, EvalAll, Tame, Reaches;
    EvalAllTame(b, env, args, t);
    var a := EvalAll(b, env, args, t);
    EvalTame(b, env, recv, a.tr);
    TameParts(Caps(env), a.tr, Eval(b, env, recv, a.tr));
  }

  lemma {:induction false} ReadonlyBindings(b: Backend, env: Env, fs: List<Field>, t: Trace)
    requires AllReadonly(fs)
    ensures
      var o := Bind(b, env, fs, t);
      t <= o.tr && (o.v.Some? ==> AnsweredReadonly(o.v.value, t, o.tr))
    decreases fs
  {
    hide Eval, ReadonlyAnswer;
    if fs.Cons? {
      var first := Eval(b, env, fs.head.value, t);
      ReadonlyExpression(b, env, fs.head.value, t);
      if first.v.Some? {
        ReadonlyBindings(b, env, fs.tail, first.tr);
        var more := Bind(b, env, fs.tail, first.tr);
        if more.v.Some? {
          ReadonlyWidens(first.v.value.cap, t, first.tr, t, more.tr);
          forall i | 0 <= i < |more.v.value| ensures ReadonlyAnswer(more.v.value[i].value.cap, t, more.tr) {
            ReadonlyWidens(more.v.value[i].value.cap, first.tr, more.tr, t, more.tr);
          }
        }
      }
    }
  }

  lemma ReadonlyWidens(cap: Cap, t: Trace, u: Trace, t2: Trace, u2: Trace)
    requires ReadonlyAnswer(cap, t, u) && u <= u2 && |t2| <= |t|
    ensures ReadonlyAnswer(cap, t2, u2)
  {
    var k :| |t| <= k < |u| && u[k].call.Readonly? && u[k].answer == ACap(cap);
    assert u2[k] == u[k];
  }

  /**
   A scope that is given only `e.readonly()` starts with read-only views: every capability in its
   table was the backend's answer to a `Readonly` call made for that list.
   */
  lemma {:induction false} ReadonlyScopeStartsReadonly(b: Backend, env: Env, s: Stmt, t: Trace)
    requires s.SScope? && AllReadonly(s.binds) && Bind(b, env, s.binds, t).v.Some?
    ensures
      var bound := Bind(b, env, s.binds, t);
      t <= bound.tr && forall cap :: cap in Caps(ScopeEnv(bound.v.value)) ==> ReadonlyAnswer(cap, t, bound.tr)
  {
    hide Bind, ScopeEnv, Caps, ReadonlyAnswer;
    var bound := Bind(b, env, s.binds, t);
    ReadonlyBindings(b, env, s.binds, t);
    ScopeHoldsOnlyBound(bound.v.value);
  }
}
