/** Syntax trees of the shell language (`capsh/src/ast.ml`) and which of them can be written down. */
module Ast {
  datatype List<T> = Nil | Cons(head: T, tail: List<T>)

  datatype QuasiKind = QPath | QSh
  datatype Seg = QLit(text: string) | QInterp(name: string)

  datatype Field = Field(name: string, value: Expr)

  datatype Expr =
    | EStr(s: string)
    | EQuasi(kind: QuasiKind, segs: seq<Seg>)
    | EVar(name: string)
    | EGrantDir(path: string, ops: List<string>)
    | EGrantSink(sink: string)
    | EGrantCmd(argv: seq<Seg>, fields: List<Field>)
    | EMethod(recv: Expr, name: string, args: List<Expr>)
    | ECall(name: string, args: List<Expr>)

  datatype ScopeKind = Confine | Spawn

  datatype Stmt =
    | SLet(name: string, value: Expr)
    | SExpr(value: Expr)
    | SScope(kind: ScopeKind, lbl: string, binds: List<Field>, body: List<Stmt>)

  type Program = List<Stmt>

  // ---- well-formed trees ----

  predicate IsIdStart(c: char) { 'a' <= c <= 'z' || 'A' <= c <= 'Z' || c == '_' }
  predicate IsId(c: char) { IsIdStart(c) || '0' <= c <= '9' || c == '-' }
  predicate AllId(s: string) { forall i :: 0 <= i < |s| ==> IsId(s[i]) }
  predicate LegalName(s: string) { s != "" && IsIdStart(s[0]) && AllId(s) }

  /** No interpolation opens inside the text. */
  predicate NoOpening(s: string) { forall i :: 0 <= i < |s| - 1 && s[i] == '$' ==> s[i + 1] != '{' }

  predicate WfLit(s: string) { s != "" && '`' !in s && NoOpening(s) }

  predicate WfSegAt(segs: seq<Seg>, i: nat)
    requires i < |segs|
  {
    match segs[i]
    case QLit(text) => WfLit(text) && (i + 1 < |segs| ==> segs[i + 1].QInterp?)
    case QInterp(name) => AllId(name)
  }

  /** Literals that are not empty, open nothing, and do not touch; interpolated names of name characters. */
  predicate WfSegs(segs: seq<Seg>) { forall i :: 0 <= i < |segs| ==> WfSegAt(segs, i) }

  predicate WfNames(names: List<string>)
  {
    match names
    case Nil => true
    case Cons(n, rest) => LegalName(n) && WfNames(rest)
  }

  predicate WfExpr(e: Expr)
  {
    match e
    case EStr(_) => true
    case EQuasi(_, segs) => WfSegs(segs)
    case EVar(name) => LegalName(name) && name != "grant"
    case EGrantDir(_, ops) => WfNames(ops)
    case EGrantSink(_) => true
    case EGrantCmd(argv, fields) => WfSegs(argv) && WfFields(fields)
    case EMethod(recv, name, args) => WfExpr(recv) && LegalName(name) && WfArgs(args)
    case ECall(name, args) => LegalName(name) && name != "grant" && WfArgs(args)
  }

  predicate WfArgs(args: List<Expr>)
  {
    match args
    case Nil => true
    case Cons(e, rest) => WfExpr(e) && WfArgs(rest)
  }

  predicate WfFields(fields: List<Field>)
  {
    match fields
    case Nil => true
    case Cons(Field(name, value), rest) => LegalName(name) && WfExpr(value) && WfFields(rest)
  }

  predicate WfStmt(s: Stmt)
  {
    match s
    case SLet(name, e) => LegalName(name) && WfExpr(e)
    case SExpr(e) => WfExpr(e)
    case SScope(_, _, binds, body) => WfFields(binds) && WfProgram(body)
  }

  predicate WfProgram(p: Program)
  {
    match p
    case Nil => true
    case Cons(s, rest) => WfStmt(s) && WfProgram(rest)
  }
}
