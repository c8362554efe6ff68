/**
 The shell's evaluator (`capsh/src/eval.ml`) over an arbitrary capability backend: what every run
 can reach. There is no global namespace: a script touches a resource only through a capability
 that is in scope.
 */
module Evaluator {
  import opened Text
  import opened Ast
  import Template
  import Paths

  // ---- the backend ----

  /** Capabilities are whatever the backend hands out; scripts cannot make one. */
  type Cap = nat

  datatype Call =
    | GrantDir(root: string, writable: bool, secret: bool)
    | GrantSink(name: string)
    | GrantCmd(cwd: Cap, argv: seq<string>)
    | Sub(cap: Cap, seg: string)
    | Readonly(cap: Cap)
    | Read(cap: Cap, path: string)
    | ListDir(cap: Cap, path: string)
    | Send(cap: Cap, data: string)
    | Run(cap: Cap)
    | Describe(cap: Cap)

  datatype Answer = Failed | ACap(cap: Cap) | AText(text: string)

  datatype Step = Step(call: Call, answer: Answer)

  /** Every backend call so far, with its answer. */
  type Trace = seq<Step>

  /** What the backend answers to its n-th call, and what it says of a capability. */
  datatype Backend = Backend(answers: nat -> Answer, isSecret: Cap -> bool, isSink: Cap -> bool)

  predicate IsGrant(c: Call) { c.GrantDir? || c.GrantSink? || c.GrantCmd? }
  predicate IsDerivation(c: Call) { c.Sub? || c.Readonly? }

  /** The capability a call is made on. */
  function Target(c: Call): Option<Cap>
  {
    match c
    case GrantDir(_, _, _) => None
    case GrantSink(_) => None
    case GrantCmd(cwd, _) => Some(cwd)
    case Sub(cap, _) => Some(cap)
    case Readonly(cap) => Some(cap)
    case Read(cap, _) => Some(cap)
    case ListDir(cap, _) => Some(cap)
    case Send(cap, _) => Some(cap)
    case Run(cap) => Some(cap)
    case Describe(cap) => Some(cap)
  }

  // ---- values ----

  datatype Value = VData(text: string) | VCap(cap: Cap) | VUnit

  type Env = map<string, Value>

  /** A result, or an error, and the calls made on the way. */
  datatype Out<T> = Out(v: Option<T>, tr: Trace)

  function DataOf(env: Env): Template.Env
  {
    map n | n in env :: if env[n].VData? then Template.Data(env[n].text) else Template.NotData
  }

  function AskCap(b: Backend, tr: Trace, c: Call): Out<Value>
  {
    var a := b.answers(|tr|);
    Out(if a.ACap? then Some(VCap(a.cap)) else None, tr + [Step(c, a)])
  }

  function AskText(b: Backend, tr: Trace, c: Call): Out<Value>
  {
    var a := b.answers(|tr|);
    Out(if a.AText? then Some(VData(a.text)) else None, tr + [Step(c, a)])
  }

  /** A call made for its effect: its result is unit. */
  function AskUnit(b: Backend, tr: Trace, c: Call): Out<Value>
  {
    var a := b.answers(|tr|);
    Out(if a.Failed? then None else Some(VUnit), tr + [Step(c, a)])
  }

  // ---- expressions ----

  predicate Listed(names: List<string>, n: string)
  {
    match names
    case Nil => false
    case Cons(m, rest) => m == n || Listed(rest, n)
  }

  function FieldNamed(fields: List<Field>, n: string): Option<Expr>
    decreases fields
  {
    match fields
    case Nil => None
    case Cons(Field(m, e), rest) => if m == n then Some(e) else FieldNamed(rest, n)
  }

  lemma FieldIsSmaller(fields: List<Field>, n: string)
    ensures FieldNamed(fields, n).Some? ==> FieldNamed(fields, n).value < fields
  {
  }

  predicate LooksSecret(path: string)
  {
    || Paths.Contains(path, "secret") || Paths.Contains(path, "vault")
    || Paths.Contains(path, ".ssh") || Paths.Contains(path, ".env")
  }

  /** `eval`. Arguments are evaluated before the receiver. */
  function Eval(b: Backend, env: Env, e: Expr, tr: Trace): Out<Value>
    decreases e
  {
    match e
    case EStr(s) => Out(Some(VData(s)), tr)
    case EQuasi(k, segs) =>
      Out(if Template.Fillable(DataOf(env), k, segs)
          then Some(VData(Template.Subst(DataOf(env), Template.Atoms(segs)))) else None, tr)
    case EVar(x) => Out(if x in env then Some(env[x]) else None, tr)
    case EGrantDir(path, ops) =>
      AskCap(b, tr, GrantDir(path, Listed(ops, "write"), Listed(ops, "secret") || LooksSecret(path)))
    case EGrantSink(name) => AskCap(b, tr, GrantSink(name))
    case EGrantCmd(segs, fields) =>
      FieldIsSmaller(fields, "cwd");
      var cwd := FieldNamed(fields, "cwd");
      if !Template.AllData(DataOf(env), segs) || cwd == None then Out(None, tr)
      else
        var d := Eval(b, env, cwd.value, tr);
        if d.v == None || !d.v.value.VCap? then Out(None, d.tr)
        else
          var argv := Template.SubstAll(DataOf(env), Template.Words(Template.Atoms(segs), []));
          AskCap(b, d.tr, GrantCmd(d.v.value.cap, argv))
    case EMethod(recv, m, args) =>
      var a := EvalAll(b, env, args, tr);
      if a.v == None then Out(None, a.tr)
      else
        var r := Eval(b, env, recv, a.tr);
        if r.v == None || !r.v.value.VCap? then Out(None, r.tr) else Method(b, r.v.value.cap, m, a.v.value, r.tr)
    case ECall(name, args) =>
      var a := EvalAll(b, env, args, tr);
      if a.v == None then Out(None, a.tr) else Builtin(b, name, a.v.value, a.tr)
  }

  function EvalAll(b: Backend, env: Env, es: List<Expr>, tr: Trace): Out<seq<Value>>
    decreases es
  {
    match es
    case Nil => Out(Some([]), tr)
    case Cons(e, rest) =>
      var first := Eval(b, env, e, tr);
      if first.v == None then Out(None, first.tr)
      else
        var more := EvalAll(b, env, rest, first.tr);
        Out(if more.v == None then None else Some([first.v.value] + more.v.value), more.tr)
  }

  /** `eval_method`. */
  function Method(b: Backend, cap: Cap, m: string, args: seq<Value>, tr: Trace): Out<Value>
  {
    var arg0 := if args != [] && args[0].VData? then Some(args[0].text) else None;
    if m == "readonly" then AskCap(b, tr, Readonly(cap))
    else if m == "describe" then AskText(b, tr, Describe(cap))
    else if m == "read" && arg0.Some? then AskText(b, tr, Read(cap, arg0.value))
    else if m == "list" && arg0.Some? then AskText(b, tr, ListDir(cap, arg0.value))
    else if m == "sub" && arg0.Some? then AskCap(b, tr, Sub(cap, arg0.value))
    else if m == "send" && arg0.Some? then AskUnit(b, tr, Send(cap, arg0.value))
    else Out(None, tr)
  }

  /** `eval_builtin`: printing a capability asks the backend to describe it. */
  function Builtin(b: Backend, name: string, args: seq<Value>, tr: Trace): Out<Value>
  {
    if name == "print" && |args| == 1 then
      if args[0].VCap? then AskUnit(b, tr, Describe(args[0].cap)) else Out(Some(VUnit), tr)
    else if name == "run" && |args| == 1 && args[0].VCap? then AskText(b, tr, Run(args[0].cap))
    else Out(None, tr)
  }

  // ---- statements ----

  datatype Binding = Binding(name: string, value: Value)

  /** The values listed after `with`, each under its name. */
  function Bind(b: Backend, env: Env, binds: List<Field>, tr: Trace): Out<seq<Binding>>
    decreases binds
  {
    match binds
    case Nil => Out(Some([]), tr)
    case Cons(Field(n, e), rest) =>
      var v := Eval(b, env, e, tr);
      if v.v == None then Out(None, v.tr)
      else
        var more := Bind(b, env, rest, v.tr);
        Out(if more.v == None then None else Some([Binding(n, v.v.value)] + more.v.value), more.tr)
  }

  /** The table of a new scope: later bindings replace earlier ones of the same name. */
  function ScopeEnv(bound: seq<Binding>): Env
  {
    if bound == [] then map[] else ScopeEnv(bound[..|bound| - 1])[bound[|bound| - 1].name := bound[|bound| - 1].value]
  }

  predicate HoldsSecret(b: Backend, bound: seq<Binding>)
  {
    exists i :: 0 <= i < |bound| && bound[i].value.VCap? && b.isSecret(bound[i].value.cap)
  }

  predicate HoldsSink(b: Backend, bound: seq<Binding>)
  {
    exists i :: 0 <= i < |bound| && bound[i].value.VCap? && b.isSink(bound[i].value.cap)
  }

  /** A confined compartment may not hold a secret and a way out. */
  predicate Leaks(b: Backend, kind: ScopeKind, bound: seq<Binding>)
  {
    kind == Confine && HoldsSecret(b, bound) && HoldsSink(b, bound)
  }

  /** `exec_stmt`: the table after the statement. */
  function Exec(b: Backend, env: Env, s: Stmt, tr: Trace): Out<Env>
    decreases s
  {
    match s
    case SLet(n, e) =>
      var v := Eval(b, env, e, tr);
      Out(if v.v == None then None else Some(env[n := v.v.value]), v.tr)
    case SExpr(e) =>
      var v := Eval(b, env, e, tr);
      Out(if v.v == None then None else Some(env), v.tr)
    case SScope(kind, _, binds, body) =>
      var bound := Bind(b, env, binds, tr);
      if bound.v == None || Leaks(b, kind, bound.v.value) then Out(None, bound.tr)
      else
        var inner := ExecAll(b, ScopeEnv(bound.v.value), body, bound.tr);
        Out(if inner.v == None then None else Some(env), inner.tr)
  }

  function ExecAll(b: Backend, env: Env, p: List<Stmt>, tr: Trace): Out<Env>
    decreases p
  {
    match p
    case Nil => Out(Some(env), tr)
    case Cons(s, rest) =>
      var first := Exec(b, env, s, tr);
      if first.v == None then first else ExecAll(b, first.v.value, rest, first.tr)
  }

  // ---- the tables themselves ----

  /** The table of one scope, changed in place. */
  class Scope {
    var vars: Env

    constructor ()
      ensures vars == map[]
    {
      vars := map[];
    }
  }

  /** `exec_stmt` on the table of the current scope; a nested scope gets a table of its own. */
  method ExecStmt(b: Backend, env: Scope, s: Stmt, tr0: Trace) returns (ok: bool, tr: Trace)
    modifies env
    ensures Out(if ok then Some(env.vars) else None, tr) == Exec(b, old(env.vars), s, tr0)
    decreases s
  {
    hide Eval, Bind, ScopeEnv;
    match s
    case SLet(n, e) =>
      var v := Eval(b, env.vars, e, tr0);
      if v.v == None { return false, v.tr; }
      env.vars := env.vars[n := v.v.value];
      return true, v.tr;
    case SExpr(e) =>
      var v := Eval(b, env.vars, e, tr0);
      return v.v.Some?, v.tr;
    case SScope(kind, _, binds, body) =>
      var bound := Bind(b, env.vars, binds, tr0);
      if bound.v == None || Leaks(b, kind, bound.v.value) { return false, bound.tr; }
      var child := new Scope();
      FillScope(child, bound.v.value);
      ok, tr := ExecStmts(b, child, body, bound.tr);
  }

  method FillScope(child: Scope, bound: seq<Binding>)
    requires child.vars == map[]
    modifies child
    ensures child.vars == ScopeEnv(bound)
  {
    for i := 0 to |bound|
      invariant child.vars == ScopeEnv(bound[..i])
    {
      assert bound[..i + 1][..i] == bound[..i];
      child.vars := child.vars[bound[i].name := bound[i].value];
    }
    assert bound[..|bound|] == bound;
  }

  method ExecStmts(b: Backend, env: Scope, p: List<Stmt>, tr0: Trace) returns (ok: bool, tr: Trace)
    modifies env
    ensures Out(if ok then Some(env.vars) else None, tr) == ExecAll(b, old(env.vars), p, tr0)
    decreases p
  {
    hide Exec;
    match p
    case Nil => return true, tr0;
    case Cons(s, rest) =>
      ok, tr := ExecStmt(b, env, s, tr0);
      if ok { ok, tr := ExecStmts(b, env, rest, tr); }
  }

  // ---- what a run reaches ----

  ghost function Caps(env: Env): set<Cap> { set n | n in env && env[n].VCap? :: env[n].cap }

  predicate Makes(s: Step) { (IsGrant(s.call) || IsDerivation(s.call)) && s.answer.ACap? }

  /** The capabilities handed out in a trace. */
  ghost function Made(tr: Trace): set<Cap> { set i | 0 <= i < |tr| && Makes(tr[i]) :: tr[i].answer.cap }

  /** Every call is on a capability of `base`, or on one handed out earlier in the same trace. */
  ghost predicate Within(tr: Trace, base: set<Cap>)
  {
    forall i :: 0 <= i < |tr| && Target(tr[i].call).Some? ==>
      Target(tr[i].call).value in base || Target(tr[i].call).value in Made(tr[..i])
  }

  /** From trace `t` to trace `u` nothing was touched but `base` and what came of it. */
  ghost predicate Reaches(base: set<Cap>, t: Trace, u: Trace)
  {
    t <= u && Within(u[|t|..], base)
  }

  ghost predicate Knows(base: set<Cap>, t: Trace, u: Trace, v: Value)
  {
    t <= u && (v.VCap? ==> v.cap in base || v.cap in Made(u[|t|..]))
  }

  lemma {:induction false} MadeAppend(a: Trace, c: Trace)
    ensures Made(a + c) == Made(a) + Made(c)
  {
    hide IsGrant, IsDerivation;
    forall x | x in Made(c) ensures x in Made(a + c) {
      var i :| 0 <= i < |c| && Makes(c[i]) && c[i].answer.cap == x;
      assert (a + c)[|a| + i] == c[i];
    }
    forall x | x in Made(a) ensures x in Made(a + c) {
      var i :| 0 <= i < |a| && Makes(a[i]) && a[i].answer.cap == x;
      assert (a + c)[i] == a[i];
    }
    forall x | x in Made(a + c) ensures x in Made(a) + Made(c) {
      var i :| 0 <= i < |a + c| && Makes((a + c)[i]) && (a + c)[i].answer.cap == x;
      if i < |a| { assert a[i] == (a + c)[i]; } else { assert c[i - |a|] == (a + c)[i]; }
    }
  }

  lemma {:induction false} WithinAppend(a: Trace, c: Trace, base: set<Cap>, more: set<Cap>)
    requires Within(a, base) && Within(c, more) && more <= base + Made(a)
    ensures Within(a + c, base)
  {
    hide Made, Target;
    var all := a + c;
    forall i | 0 <= i < |all| && Target(all[i].call).Some?
      ensures Target(all[i].call).value in base || Target(all[i].call).value in Made(all[..i])
    {
      if i < |a| {
        assert all[..i] == a[..i] && all[i] == a[i];
      } else {
        assert all[i] == c[i - |a|] && all[..i] == a + c[..i - |a|];
        MadeAppend(a, c[..i - |a|]);
      }
    }
  }

  /** Going on from where the first part led. */
  lemma {:induction false} ReachesOn(base: set<Cap>, more: set<Cap>, t: Trace, u: Trace, w: Trace)
    requires Reaches(base, t, u) && Reaches(more, u, w) && more <= base + Made(u[|t|..])
    ensures Reaches(base, t, w) && Made(w[|t|..]) == Made(u[|t|..]) + Made(w[|u|..])
  {
    hide Made, Within;
    assert w[|t|..] == u[|t|..] + w[|u|..];
    MadeAppend(u[|t|..], w[|u|..]);
    WithinAppend(u[|t|..], w[|u|..], base, more);
  }

  lemma ReachesNothing(base: set<Cap>, t: Trace)
    ensures Reaches(base, t, t) && Made(t[|t|..]) == {}
  {
  }

  lemma {:induction false} ReachesOne(base: set<Cap>, t: Trace, s: Step)
    requires Target(s.call).Some? ==> Target(s.call).value in base
    ensures Reaches(base, t, t + [s])
    ensures Made((t + [s])[|t|..]) == if Makes(s) then {s.answer.cap} else {}
  {
    hide Makes, Target;
    assert (t + [s])[|t|..] == [s];
    assert [s][0] == s;
  }

  lemma {:induction false} AskReaches(b: Backend, base: set<Cap>, t: Trace, c: Call)
    requires Target(c).Some? ==> Target(c).value in base
    ensures Reaches(base, t, AskText(b, t, c).tr) && AskUnit(b, t, c).tr == AskText(b, t, c).tr
    ensures AskCap(b, t, c).tr == AskText(b, t, c).tr
    ensures IsGrant(c) || IsDerivation(c) ==>
      (AskCap(b, t, c).v.Some? ==> Knows(base, t, AskCap(b, t, c).tr, AskCap(b, t, c).v.value))
  {
    hide Reaches, Target;
    ReachesOne(base, t, Step(c, b.answers(|t|)));
  }

  /** What an evaluation may have touched and may return. */
  ghost predicate Tame(base: set<Cap>, t: Trace, o: Out<Value>)
  {
    Reaches(base, t, o.tr) && (o.v.Some? ==> Knows(base, t, o.tr, o.v.value))
  }

  lemma {:induction false} MethodTame(b: Backend, base: set<Cap>, cap: Cap, m: string, args: seq<Value>, t: Trace)
    requires cap in base
    ensures Tame(base, t, Method(b, cap, m, args, t))
  {
    hide Reaches, Made;
    ReachesNothing(base, t);
    ReachesPrefix(base, t, t);
    var arg0 := if args != [] && args[0].VData? then args[0].text else "";
    TextTame(b, base, t, Describe(cap));
    TextTame(b, base, t, Read(cap, arg0));
    TextTame(b, base, t, ListDir(cap, arg0));
    TextTame(b, base, t, Send(cap, arg0));
    CapTame(b, base, t, Readonly(cap));
    CapTame(b, base, t, Sub(cap, arg0));
  }

  lemma ReachesPrefix(base: set<Cap>, t: Trace, u: Trace)
    requires Reaches(base, t, u)
    ensures t <= u
  {
  }

  lemma {:induction false} TextTame(b: Backend, base: set<Cap>, t: Trace, c: Call)
    requires Target(c).Some? ==> Target(c).value in base
    ensures Tame(base, t, AskText(b, t, c)) && Tame(base, t, AskUnit(b, t, c))
  {
    hide Target, Reaches, Made;
    AskReaches(b, base, t, c);
    ReachesPrefix(base, t, AskText(b, t, c).tr);
  }

  lemma {:induction false} CapTame(b: Backend, base: set<Cap>, t: Trace, c: Call)
    requires (Target(c).Some? ==> Target(c).value in base) && (IsGrant(c) || IsDerivation(c))
    ensures Tame(base, t, AskCap(b, t, c))
  {
    hide Target, Reaches, Knows;
    AskReaches(b, base, t, c);
  }

  lemma {:induction false} BuiltinTame(b: Backend, base: set<Cap>, name: string, args: seq<Value>, t: Trace)
    requires forall i :: 0 <= i < |args| && args[i].VCap? ==> args[i].cap in base
    ensures Tame(base, t, Builtin(b, name, args, t))
  {
    hide Reaches, Made, Tame;
    QuietTame(base, t, Out(None, t));
    QuietTame(base, t, Out(Some(VUnit), t));
    if |args| == 1 && args[0].VCap? {
      TextTame(b, base, t, Describe(args[0].cap));
      TextTame(b, base, t, Run(args[0].cap));
    }
  }

  lemma QuietTame(base: set<Cap>, t: Trace, o: Out<Value>)
    requires o.tr == t && (o.v.Some? && o.v.value.VCap? ==> o.v.value.cap in base)
    ensures Tame(base, t, o)
  {
    ReachesNothing(base, t);
  }

  /** A tame part followed by a part that is tame over what is known by then. */
  lemma {:induction false} TameOn(base: set<Cap>, t: Trace, u: Trace, o: Out<Value>)
    requires Reaches(base, t, u) && Tame(base + Made(u[|t|..]), u, o)
    ensures Tame(base, t, o)
  {
    hide Made, Within;
    ReachesOn(base, base + Made(u[|t|..]), t, u, o.tr);
  }

  lemma {:induction false} Widen(base: set<Cap>, more: set<Cap>, t: Trace, u: Trace)
    requires Reaches(base, t, u) && base <= more
    ensures Reaches(more, t, u)
  {
    hide Made, Target;
  }

  // ---- expressions ----

  lemma {:induction false} EvalTame(b: Backend, env: Env, e: Expr, t: Trace)
    ensures Tame(Caps(env), t, Eval(b, env, e, t))
    decreases e
  {
    hide Tame, Caps, Method, Builtin, AskCap, Template.Fillable, Template.AllData, Template.Subst, Template.Words,
      LooksSecret;
    var base := Caps(env);
    match e
    case EStr(_) => QuietTame(base, t, Eval(b, env, e, t));
    case EQuasi(_, _) => QuietTame(base, t, Eval(b, env, e, t));
    case EVar(x) =>
      InScope(env, x);
      QuietTame(base, t, Eval(b, env, e, t));
    case EGrantDir(path, ops) =>
      CapTame(b, base, t, GrantDir(path, Listed(ops, "write"), Listed(ops, "secret") || LooksSecret(path)));
    case EGrantSink(name) => CapTame(b, base, t, GrantSink(name));
    case EGrantCmd(_, _) => CommandTame(b, env, e, t);
    case EMethod(_, _, _) => CallTame(b, env, e, t);
    case ECall(_, _) => PrintTame(b, env, e, t);
  }

  lemma InScope(env: Env, x: string)
    ensures x in env && env[x].VCap? ==> env[x].cap in Caps(env)
  {
  }

  lemma TameParts(base: set<Cap>, t: Trace, o: Out<Value>)
    requires Tame(base, t, o)
    ensures Reaches(base, t, o.tr) && t <= o.tr
    ensures o.v.Some? && o.v.value.VCap? ==> o.v.value.cap in base + Made(o.tr[|t|..])
    ensures Tame(base, t, Out(None, o.tr))
  {
  }

  lemma {:induction false} CommandTame(b: Backend, env: Env, e: Expr, t: Trace)
    requires e.EGrantCmd?
    ensures Tame(Caps(env), t, Eval(b, env, e, t))
    decreases e, 0
  {
    hide Tame, Caps, AskCap, Template.AllData, Template.Words, Made, Reaches;
    var base := Caps(env);
    QuietTame(base, t, Out(None, t));
    FieldIsSmaller(e.fields, "cwd");
    var cwd := FieldNamed(e.fields, "cwd");
    if cwd.Some? {
      EvalTame(b, env, cwd.value, t);
      var d := Eval(b, env, cwd.value, t);
      TameParts(base, t, d);
      if d.v.Some? && d.v.value.VCap? {
        var argv := Template.SubstAll(DataOf(env), Template.Words(Template.Atoms(e.argv), []));
        CapTame(b, base + Made(d.tr[|t|..]), d.tr, GrantCmd(d.v.value.cap, argv));
        TameOn(base, t, d.tr, AskCap(b, d.tr, GrantCmd(d.v.value.cap, argv)));
      }
    }
  }

  lemma {:induction false} CallTame(b: Backend, env: Env, e: Expr, t: Trace)
    requires e.EMethod?
    ensures Tame(Caps(env), t, Eval(b, env, e, t))
    decreases e, 0
  {
    hide Tame, Caps, Method, Made, Reaches, EvalAll;
    var base := Caps(env);
    EvalAllTame(b, env, e.args, t);
    var a := EvalAll(b, env, e.args, t);
    FailedTame(base, t, a.tr);
    if a.v.Some? {
      EvalTame(b, env, e.recv, a.tr);
      var r := Eval(b, env, e.recv, a.tr);
      TameParts(base, a.tr, r);
      ReachesOn(base, base, t, a.tr, r.tr);
      FailedTame(base, t, r.tr);
      if r.v.Some? && r.v.value.VCap? {
        MethodTame(b, base + Made(r.tr[|t|..]), r.v.value.cap, e.name, a.v.value, r.tr);
        TameOn(base, t, r.tr, Method(b, r.v.value.cap, e.name, a.v.value, r.tr));
      }
    }
  }

  lemma FailedTame(base: set<Cap>, t: Trace, u: Trace)
    requires Reaches(base, t, u)
    ensures Tame(base, t, Out(None, u)) && t <= u
  {
  }

  lemma {:induction false} PrintTame(b: Backend, env: Env, e: Expr, t: Trace)
    requires e.ECall?
    ensures Tame(Caps(env), t, Eval(b, env, e, t))
    decreases e, 0
  {
    hide Tame, Caps, Builtin, Made, Reaches, EvalAll;
    var base := Caps(env);
    EvalAllTame(b, env, e.args, t);
    var a := EvalAll(b, env, e.args, t);
    FailedTame(base, t, a.tr);
    if a.v.Some? {
      BuiltinTame(b, base + Made(a.tr[|t|..]), e.name, a.v.value, a.tr);
      TameOn(base, t, a.tr, Builtin(b, e.name, a.v.value, a.tr));
    }
  }

  ghost predicate AllKnown(base: set<Cap>, vs: seq<Value>)
  {
    forall i :: 0 <= i < |vs| && vs[i].VCap? ==> vs[i].cap in base
  }

  lemma {:induction false} EvalAllTame(b: Backend, env: Env, es: List<Expr>, t: Trace)
    ensures
      var o := EvalAll(b, env, es, t);
      && Reaches(Caps(env), t, o.tr) && t <= o.tr
      && (o.v.Some? ==> AllKnown(Caps(env) + Made(o.tr[|t|..]), o.v.value))
    decreases es
  {
    hide Tame, Caps, Made, Reaches, Eval;
    var base := Caps(env);
    if es == Nil {
      ReachesNothing(base, t);
    } else {
      EvalTame(b, env, es.head, t);
      var first := Eval(b, env, es.head, t);
      TameParts(base, t, first);
      if first.v.Some? {
        EvalAllTame(b, env, es.tail, first.tr);
        var more := EvalAll(b, env, es.tail, first.tr);
        ReachesOn(base, base, t, first.tr, more.tr);
      }
    }
  }

  // ---- statements ----

  ghost function BoundCaps(bound: seq<Binding>): set<Cap>
  {
    set i | 0 <= i < |bound| && bound[i].value.VCap? :: bound[i].value.cap
  }

  lemma {:induction false} BoundCons(x: Binding, more: seq<Binding>)
    ensures BoundCaps([x] + more) == (if x.value.VCap? then {x.value.cap} else {}) + BoundCaps(more)
  {
    var all := [x] + more;
    forall c | c in BoundCaps(more) ensures c in BoundCaps(all) {
      var i :| 0 <= i < |more| && more[i].value.VCap? && more[i].value.cap == c;
      assert all[i + 1] == more[i];
    }
    if x.value.VCap? { assert all[0] == x; }
  }

  lemma {:induction false} BindTame(b: Backend, env: Env, binds: List<Field>, t: Trace)
    ensures
      var o := Bind(b, env, binds, t);
      && Reaches(Caps(env), t, o.tr) && t <= o.tr
      && (o.v.Some? ==> BoundCaps(o.v.value) <= Caps(env) + Made(o.tr[|t|..]))
    decreases binds
  {
    hide Tame, Caps, Made, Reaches, Eval, BoundCaps;
    var base := Caps(env);
    if binds == Nil {
      ReachesNothing(base, t);
      NothingBound();
    } else {
      var Field(n, e) := binds.head;
      EvalTame(b, env, e, t);
      var first := Eval(b, env, e, t);
      TameParts(base, t, first);
      if first.v.Some? {
        BindTame(b, env, binds.tail, first.tr);
        var more := Bind(b, env, binds.tail, first.tr);
        ReachesOn(base, base, t, first.tr, more.tr);
        if more.v.Some? { BoundCons(Binding(n, first.v.value), more.v.value); }
      }
    }
  }

  lemma NothingBound()
    ensures BoundCaps([]) == {}
  {
  }

  /** A scope holds nothing but what was listed for it. */
  lemma {:induction false} ScopeHoldsOnlyBound(bound: seq<Binding>)
    ensures Caps(ScopeEnv(bound)) <= BoundCaps(bound)
  {
    if bound != [] {
      var k := |bound| - 1;
      ScopeHoldsOnlyBound(bound[..k]);
      var before := ScopeEnv(bound[..k]);
      forall c | c in Caps(ScopeEnv(bound)) ensures c in BoundCaps(bound) {
        var n :| n in ScopeEnv(bound) && ScopeEnv(bound)[n].VCap? && ScopeEnv(bound)[n].cap == c;
        if n == bound[k].name {
          assert bound[k].value.cap == c;
        } else {
          assert c in Caps(before);
          var i :| 0 <= i < k && bound[..k][i].value.VCap? && bound[..k][i].value.cap == c;
          assert bound[i].value.cap == c;
        }
      }
    }
  }

  /** What a statement may have touched and may leave in its table. */
  ghost predicate TameEnv(base: set<Cap>, t: Trace, o: Out<Env>)
  {
    Reaches(base, t, o.tr) && t <= o.tr && (o.v.Some? ==> Caps(o.v.value) <= base + Made(o.tr[|t|..]))
  }

  lemma {:induction false} LetCaps(env: Env, n: string, v: Value)
    ensures Caps(env[n := v]) <= Caps(env) + if v.VCap? then {v.cap} else {}
  {
  }

  lemma {:induction false} ExecTame(b: Backend, env: Env, s: Stmt, t: Trace)
    ensures TameEnv(Caps(env), t, Exec(b, env, s, t))
    decreases s
  {
    hide Tame, Caps, Made, Reaches, Eval, Bind, ScopeEnv, BoundCaps, Leaks;
    var base := Caps(env);
    match s
    case SLet(n, e) =>
      EvalTame(b, env, e, t);
      TameParts(base, t, Eval(b, env, e, t));
      if Eval(b, env, e, t).v.Some? { LetCaps(env, n, Eval(b, env, e, t).v.value); }
    case SExpr(e) =>
      EvalTame(b, env, e, t);
      TameParts(base, t, Eval(b, env, e, t));
    case SScope(kind, _, binds, body) =>
      BindTame(b, env, binds, t);
      var bound := Bind(b, env, binds, t);
      if bound.v.Some? {
        var child := ScopeEnv(bound.v.value);
        ScopeHoldsOnlyBound(bound.v.value);
        ExecAllTame(b, child, body, bound.tr);
        ReachesOn(base, Caps(child), t, bound.tr, ExecAll(b, child, body, bound.tr).tr);
      }
  }

  lemma {:induction false} ExecAllTame(b: Backend, env: Env, p: List<Stmt>, t: Trace)
    ensures TameEnv(Caps(env), t, ExecAll(b, env, p, t))
    decreases p
  {
    hide Caps, Made, Reaches, Exec;
    var base := Caps(env);
    if p == Nil {
      ReachesNothing(base, t);
    } else {
      ExecTame(b, env, p.head, t);
      var first := Exec(b, env, p.head, t);
      if first.v.Some? {
        ExecAllTame(b, first.v.value, p.tail, first.tr);
        ReachesOn(base, Caps(first.v.value), t, first.tr, ExecAll(b, env, p, t).tr);
      }
    }
  }

  // ---- the theorems ----

  /** A whole program, from the empty table: every capability it uses was handed out earlier in that run. */
  lemma {:induction false} ProgramsForgeNothing(b: Backend, p: Program)
    ensures Within(ExecAll(b, map[], p, []).tr, {})
  {
    hide ExecAll, Within;
    ExecAllTame(b, map[], p, []);
    assert Caps(map[]) == {};
    var u := ExecAll(b, map[], p, []).tr;
    assert u[0..] == u;
  }

  /**
   The scope rule: whatever the surrounding table holds, the body of a scope touches only what was
   listed for it and what comes of that; the surrounding table is unchanged; and a confined scope
   that ran was not given both a secret and a sink.
   */
  lemma {:induction false} ScopeReachesOnlyItsList(b: Backend, env: Env, s: Stmt, t: Trace)
    requires s.SScope?
    ensures
      var bound := Bind(b, env, s.binds, t);
      var o := Exec(b, env, s, t);
      && (bound.v.Some? ==> Reaches(BoundCaps(bound.v.value), bound.tr, o.tr))
      && (bound.v == None ==> o == Out(None, bound.tr))
      && (o.v.Some? ==> o.v.value == env)
      && (o.v.Some? && s.kind == Confine ==> !HoldsSecret(b, bound.v.value) || !HoldsSink(b, bound.v.value))
  {
    hide Bind, ScopeEnv, BoundCaps, HoldsSecret, HoldsSink, Reaches, Made, Caps, ExecAll;
    var bound := Bind(b, env, s.binds, t);
    if bound.v.Some? {
      var child := ScopeEnv(bound.v.value);
      ExecAllTame(b, child, s.body, bound.tr);
      ScopeHoldsOnlyBound(bound.v.value);
      Widen(Caps(child), BoundCaps(bound.v.value), bound.tr, ExecAll(b, child, s.body, bound.tr).tr);
      ReachesNothing(BoundCaps(bound.v.value), bound.tr);
    }
  }

  // ---- scopes that mint nothing ----

  predicate GrantFree(e: Expr)
  {
    match e
    case EStr(_) => true
    case EQuasi(_, _) => true
    case EVar(_) => true
    case EGrantDir(_, _) => false
    case EGrantSink(_) => false
    case EGrantCmd(_, _) => false
    case EMethod(recv, _, args) => GrantFree(recv) && GrantFreeArgs(args)
    case ECall(_, args) => GrantFreeArgs(args)
  }

  predicate GrantFreeArgs(es: List<Expr>)
  {
    match es
    case Nil => true
    case Cons(e, rest) => GrantFree(e) && GrantFreeArgs(rest)
  }

  predicate GrantFreeFields(fs: List<Field>)
  {
    match fs
    case Nil => true
    case Cons(Field(_, e), rest) => GrantFree(e) && GrantFreeFields(rest)
  }

  predicate GrantFreeStmt(s: Stmt)
  {
    match s
    case SLet(_, e) => GrantFree(e)
    case SExpr(e) => GrantFree(e)
    case SScope(_, _, binds, body) => GrantFreeFields(binds) && GrantFreeBody(body)
  }

  predicate GrantFreeBody(p: List<Stmt>)
  {
    match p
    case Nil => true
    case Cons(s, rest) => GrantFreeStmt(s) && GrantFreeBody(rest)
  }

  /** Between two traces nothing was granted. */
  ghost predicate NoGrant(t: Trace, u: Trace)
  {
    t <= u && forall i :: |t| <= i < |u| ==> !IsGrant(u[i].call)
  }

  lemma {:induction false} NoGrantOn(t: Trace, u: Trace, w: Trace)
    requires NoGrant(t, u) && NoGrant(u, w)
    ensures NoGrant(t, w)
  {
    hide IsGrant;
    assert forall i :: |t| <= i < |u| ==> w[i] == u[i];
  }

  lemma {:induction false} UseGrantsNothing(b: Backend, cap: Cap, name: string, args: seq<Value>, t: Trace)
    ensures NoGrant(t, Method(b, cap, name, args, t).tr) && NoGrant(t, Builtin(b, name, args, t).tr)
  {
  }

  lemma {:induction false} EvalGrantsNothing(b: Backend, env: Env, e: Expr, t: Trace)
    requires GrantFree(e)
    ensures NoGrant(t, Eval(b, env, e, t).tr)
    decreases e
  {
    hide Method, Builtin, NoGrant, Template.Fillable, Template.Subst;
    Still(t);
    match e
    case EMethod(recv, m, args) =>
      ArgsGrantNothing(b, env, args, t);
      var a := EvalAll(b, env, args, t);
      if a.v.Some? {
        EvalGrantsNothing(b, env, recv, a.tr);
        var r := Eval(b, env, recv, a.tr);
        NoGrantOn(t, a.tr, r.tr);
        if r.v.Some? && r.v.value.VCap? {
          UseGrantsNothing(b, r.v.value.cap, m, a.v.value, r.tr);
          NoGrantOn(t, r.tr, Method(b, r.v.value.cap, m, a.v.value, r.tr).tr);
        }
      }
    case ECall(name, args) =>
      ArgsGrantNothing(b, env, args, t);
      var a := EvalAll(b, env, args, t);
      if a.v.Some? {
        UseGrantsNothing(b, 0, name, a.v.value, a.tr);
        NoGrantOn(t, a.tr, Builtin(b, name, a.v.value, a.tr).tr);
      }
    case _ =>
  }

  lemma Still(t: Trace)
    ensures NoGrant(t, t)
  {
  }

  lemma {:induction false} ArgsGrantNothing(b: Backend, env: Env, es: List<Expr>, t: Trace)
    requires GrantFreeArgs(es)
    ensures NoGrant(t, EvalAll(b, env, es, t).tr)
    decreases es
  {
    hide NoGrant, Eval, GrantFree;
    Still(t);
    if es.Cons? {
      EvalGrantsNothing(b, env, es.head, t);
      var first := Eval(b, env, es.head, t);
      if first.v.Some? {
        ArgsGrantNothing(b, env, es.tail, first.tr);
        NoGrantOn(t, first.tr, EvalAll(b, env, es.tail, first.tr).tr);
      }
    }
  }

  lemma {:induction false} BindGrantsNothing(b: Backend, env: Env, fs: List<Field>, t: Trace)
    requires GrantFreeFields(fs)
    ensures NoGrant(t, Bind(b, env, fs, t).tr)
    decreases fs
  {
    hide NoGrant, Eval, GrantFree;
    Still(t);
    if fs.Cons? {
      EvalGrantsNothing(b, env, fs.head.value, t);
      var first := Eval(b, env, fs.head.value, t);
      if first.v.Some? {
        BindGrantsNothing(b, env, fs.tail, first.tr);
        NoGrantOn(t, first.tr, Bind(b, env, fs.tail, first.tr).tr);
      }
    }
  }

  lemma {:induction false} ExecGrantsNothing(b: Backend, env: Env, s: Stmt, t: Trace)
    requires GrantFreeStmt(s)
    ensures NoGrant(t, Exec(b, env, s, t).tr)
    decreases s
  {
    hide NoGrant, Eval, GrantFree, Bind, ScopeEnv, Leaks;
    match s
    case SLet(_, e) => EvalGrantsNothing(b, env, e, t);
    case SExpr(e) => EvalGrantsNothing(b, env, e, t);
    case SScope(_, _, binds, body) =>
      BindGrantsNothing(b, env, binds, t);
      var bound := Bind(b, env, binds, t);
      if bound.v.Some? {
        BodyGrantsNothing(b, ScopeEnv(bound.v.value), body, bound.tr);
        NoGrantOn(t, bound.tr, ExecAll(b, ScopeEnv(bound.v.value), body, bound.tr).tr);
      }
  }

  lemma {:induction false} BodyGrantsNothing(b: Backend, env: Env, p: List<Stmt>, t: Trace)
    requires GrantFreeBody(p)
    ensures NoGrant(t, ExecAll(b, env, p, t).tr)
    decreases p
  {
    hide NoGrant, Exec, GrantFreeStmt;
    Still(t);
    if p.Cons? {
      ExecGrantsNothing(b, env, p.head, t);
      var first := Exec(b, env, p.head, t);
      if first.v.Some? {
        BodyGrantsNothing(b, first.v.value, p.tail, first.tr);
        NoGrantOn(t, first.tr, ExecAll(b, first.v.value, p.tail, first.tr).tr);
      }
    }
  }

  /** `c` is in `base`, or comes from it by sub-directories and read-only views taken before step `n`. */
  ghost predicate Lineage(tr: Trace, base: set<Cap>, c: Cap, n: nat)
    requires n <= |tr|
    decreases n
  {
    c in base || exists i :: 0 <= i < n && IsDerivation(tr[i].call) && tr[i].answer == ACap(c)
                          && Lineage(tr, base, Target(tr[i].call).value, i)
  }

  lemma {:induction false} MadeHasLineage(tr: Trace, base: set<Cap>, c: Cap, n: nat)
    requires n <= |tr| && Within(tr, base) && (forall i :: 0 <= i < |tr| ==> !IsGrant(tr[i].call))
    requires c in base || c in Made(tr[..n])
    ensures Lineage(tr, base, c, n)
    decreases n
  {
    if c !in base {
      var i :| 0 <= i < n && Makes(tr[..n][i]) && tr[..n][i].answer.cap == c;
      assert tr[..n][i] == tr[i] && !IsGrant(tr[i].call);
      MadeHasLineage(tr, base, Target(tr[i].call).value, i);
    }
  }

  /**
   A scope whose body grants nothing has exactly the authority listed for it: every call its body
   makes is on a listed capability or on one attenuated from a listed one, step by step.
   */
  lemma {:induction false} GrantFreeScopeOnlyAttenuates(b: Backend, env: Env, s: Stmt, t: Trace, i: nat)
    requires s.SScope? && GrantFreeBody(s.body) && Bind(b, env, s.binds, t).v.Some?
    ensures
      var bound := Bind(b, env, s.binds, t);
      var u := Exec(b, env, s, t).tr;
      && bound.tr <= u
      && var done := u[|bound.tr|..];
        i < |done| ==>
          && !IsGrant(done[i].call)
          && (Target(done[i].call).Some? ==> Lineage(done, BoundCaps(bound.v.value), Target(done[i].call).value, i))
  {
    hide Bind, ScopeEnv, BoundCaps, ExecAll, Made, Leaks, Lineage, GrantFreeBody, IsGrant, Target;
    var bound := Bind(b, env, s.binds, t);
    var base := BoundCaps(bound.v.value);
    var u := Exec(b, env, s, t).tr;
    ScopeReachesOnlyItsList(b, env, s, t);
    BodyGrantsNothing(b, ScopeEnv(bound.v.value), s.body, bound.tr);
    Still(bound.tr);
    assert NoGrant(bound.tr, u);
    var done := u[|bound.tr|..];
    assert forall j :: 0 <= j < |done| ==> done[j] == u[|bound.tr| + j];
    if i < |done| && Target(done[i].call).Some? { MadeHasLineage(done, base, Target(done[i].call).value, i); }
  }
}
