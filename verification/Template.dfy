/**
 Injection-free templates (`capsh/src/eval.ml`): command templates that become argument lists and
 path templates that become paths, both filled from an environment.
 */
module Template {
  import opened Text
  import opened Ast

  /** What a name is bound to: text, or something that is not data (a capability, unit). */
  datatype Value = Data(text: string) | NotData

  type Env = map<string, Value>

  /** `as_data (lookup env name)`: undefined names and values that are not data are errors. */
  function Lookup(env: Env, name: string): Option<string>
  {
    if name in env && env[name].Data? then Some(env[name].text) else None
  }

  // ---- a template without its environment ----

  /** One character of a literal, or one interpolation. */
  datatype Atom = Ch(c: char) | Hole(name: string)

  function LitAtoms(s: string): (a: seq<Atom>)
    ensures |a| == |s|
  {
    seq(|s|, i requires 0 <= i < |s| => Ch(s[i]))
  }

  function SegAtoms(g: Seg): seq<Atom> { match g case QLit(s) => LitAtoms(s) case QInterp(name) => [Hole(name)] }

  function Atoms(segs: seq<Seg>): seq<Atom>
  {
    if segs == [] then [] else SegAtoms(segs[0]) + Atoms(segs[1..])
  }

  predicate IsBlank(x: Atom) { x.Ch? && (x.c == ' ' || x.c == '\t' || x.c == '\n') }

  function Flush(word: seq<Atom>): seq<seq<Atom>> { if word == [] then [] else [word] }

  /** The words of a template: the runs of atoms between blanks. `word` is the one under way. */
  function Words(atoms: seq<Atom>, word: seq<Atom>): seq<seq<Atom>>
    decreases |atoms|
  {
    if atoms == [] then Flush(word)
    else if IsBlank(atoms[0]) then Flush(word) + Words(atoms[1..], [])
    else Words(atoms[1..], word + [atoms[0]])
  }

  // ---- filling it in ----

  function Fill(env: Env, x: Atom): string
  {
    match x
    case Ch(c) => [c]
    case Hole(name) => if Lookup(env, name).Some? then Lookup(env, name).value else ""
  }

  /** Every interpolation replaced by its value. */
  function Subst(env: Env, atoms: seq<Atom>): string
  {
    if atoms == [] then "" else Fill(env, atoms[0]) + Subst(env, atoms[1..])
  }

  function SubstAll(env: Env, words: seq<seq<Atom>>): (r: seq<string>)
    ensures |r| == |words|
  {
    seq(|words|, i requires 0 <= i < |words| => Subst(env, words[i]))
  }

  predicate AllData(env: Env, segs: seq<Seg>)
  {
    forall i :: 0 <= i < |segs| && segs[i].QInterp? ==> Lookup(env, segs[i].name).Some?
  }

  lemma {:induction false} SubstAppend(env: Env, a: seq<Atom>, b: seq<Atom>)
    ensures Subst(env, a + b) == Subst(env, a) + Subst(env, b)
  {
    if a == [] {
      assert a + b == b;
    } else {
      assert (a + b)[1..] == a[1..] + b;
      SubstAppend(env, a[1..], b);
    }
  }

  lemma SubstOne(env: Env, x: Atom)
    ensures Subst(env, [x]) == Fill(env, x)
  {
    assert [x][1..] == [];
    assert Fill(env, x) + "" == Fill(env, x);
  }

  lemma {:induction false} SubstSnoc(env: Env, a: seq<Atom>, x: Atom)
    ensures Subst(env, a + [x]) == Subst(env, a) + Fill(env, x)
  {
    hide Subst, Fill;
    SubstAppend(env, a, [x]);
    SubstOne(env, x);
  }

  lemma SubstAllAppend(env: Env, a: seq<seq<Atom>>, b: seq<seq<Atom>>)
    ensures SubstAll(env, a + b) == SubstAll(env, a) + SubstAll(env, b)
  {
  }

  // ---- command templates ----

  /** What `argv_of_sh` has still to produce: the finished arguments, then the words to come. */
  ghost function Pending(env: Env, args: seq<string>, atoms: seq<Atom>, word: seq<Atom>): seq<string>
  {
    args + SubstAll(env, Words(atoms, word))
  }

  lemma {:induction false} PendingBlank(env: Env, args: seq<string>, atoms: seq<Atom>, word: seq<Atom>)
    requires atoms != [] && IsBlank(atoms[0])
    ensures Pending(env, args, atoms, word)
         == Pending(env, if word == [] then args else args + [Subst(env, word)], atoms[1..], [])
  {
    hide Subst;
    SubstAllAppend(env, Flush(word), Words(atoms[1..], []));
    if word == [] {
      assert SubstAll(env, []) + SubstAll(env, Words(atoms[1..], [])) == SubstAll(env, Words(atoms[1..], []));
    } else {
      assert SubstAll(env, [word]) == [Subst(env, word)];
    }
  }

  lemma {:induction false} PendingEnd(env: Env, args: seq<string>, word: seq<Atom>)
    ensures Pending(env, args, [], word) == if word == [] then args else args + [Subst(env, word)]
  {
    hide Subst;
    if word == [] {
      assert args + SubstAll(env, []) == args;
    } else {
      assert SubstAll(env, [word]) == [Subst(env, word)];
    }
  }

  /** The inner loop of `argv_of_sh`: the characters of one literal; `rest` is what follows it. */
  method FeedLiteral(env: Env, s: string, args0: seq<string>, cur0: string, have0: bool, ghost word0: seq<Atom>,
                     ghost rest: seq<Atom>)
    returns (args: seq<string>, cur: string, have: bool, ghost word: seq<Atom>)
    requires cur0 == Subst(env, word0) && (have0 <==> word0 != [])
    ensures cur == Subst(env, word) && (have <==> word != [])
    ensures Pending(env, args, rest, word) == Pending(env, args0, LitAtoms(s) + rest, word0)
  {
    hide Words, Subst, Pending, SubstAll;
    args, cur, have, word := args0, cur0, have0, word0;
    var j := 0;
    assert s[0..] == s;
    while j < |s|
      invariant j <= |s| && cur == Subst(env, word) && (have <==> word != [])
      invariant Pending(env, args, LitAtoms(s[j..]) + rest, word) == Pending(env, args0, LitAtoms(s) + rest, word0)
    {
      ghost var atoms := LitAtoms(s[j..]) + rest;
      assert atoms[0] == Ch(s[j]) && atoms[1..] == LitAtoms(s[j + 1..]) + rest;
      if s[j] == ' ' || s[j] == '\t' || s[j] == '\n' {
        PendingBlank(env, args, atoms, word);
        NothingYet(env);
        if have { args, cur, have := args + [cur], "", false; }
        word := [];
      } else {
        PendingMore(env, args, atoms, word);
        SubstSnoc(env, word, atoms[0]);
        word := word + [atoms[0]];
        cur, have := cur + [s[j]], true;
      }
      j := j + 1;
    }
    assert LitAtoms(s[j..]) + rest == rest;
  }

  /** `argv_of_sh`: the words of the template, each filled in; the words do not depend on the environment. */
  method ArgvOfSh(env: Env, segs: seq<Seg>) returns (argv: Option<seq<string>>)
    ensures argv == if AllData(env, segs) then Some(SubstAll(env, Words(Atoms(segs), []))) else None
  {
    hide Words, SubstAll, Atoms, Subst, AllData;
    var args: seq<string>, cur, have := [], "", false;
    ghost var word: seq<Atom> := [];
    ghost var goal := SubstAll(env, Words(Atoms(segs), []));
    assert [] + goal == goal;
    NothingYet(env);
    var i := 0;
    assert segs[0..] == segs && segs[..0] == [];
    NoData(env);
    while i < |segs|
      invariant i <= |segs| && AllData(env, segs[..i])
      invariant cur == Subst(env, word) && (have <==> word != [])
      invariant Pending(env, args, Atoms(segs[i..]), word) == goal
    {
      hide Pending;
      ghost var rest := Atoms(segs[i + 1..]);
      FirstAtoms(segs, i);
      DataSnoc(env, segs, i);
      match segs[i] {
        case QLit(s) =>
          args, cur, have, word := FeedLiteral(env, s, args, cur, have, word, rest);
        case QInterp(name) =>
          var v := Lookup(env, name);
          if v == None {
            DataMissing(env, segs, i);
            return None;
          }
          ghost var atoms := [Hole(name)] + rest;
          assert atoms[1..] == rest;
          PendingMore(env, args, atoms, word);
          SubstSnoc(env, word, Hole(name));
          word := word + [Hole(name)];
          cur, have := cur + v.value, true;
      }
      i := i + 1;
    }
    assert segs[..i] == segs && segs[i..] == [];
    NoAtoms();
    PendingEnd(env, args, word);
    if have { args := args + [cur]; }
    argv := Some(args);
  }

  lemma NoData(env: Env)
    ensures AllData(env, [])
  {
  }

  lemma NoAtoms()
    ensures Atoms([]) == []
  {
  }

  lemma FirstAtoms(segs: seq<Seg>, i: nat)
    requires i < |segs|
    ensures Atoms(segs[i..]) == SegAtoms(segs[i]) + Atoms(segs[i + 1..])
  {
    assert segs[i..][0] == segs[i] && segs[i..][1..] == segs[i + 1..];
  }

  lemma NothingYet(env: Env)
    ensures Subst(env, []) == ""
  {
  }

  lemma PendingMore(env: Env, args: seq<string>, atoms: seq<Atom>, word: seq<Atom>)
    requires atoms != [] && !IsBlank(atoms[0])
    ensures Pending(env, args, atoms, word) == Pending(env, args, atoms[1..], word + [atoms[0]])
  {
  }

  lemma DataSnoc(env: Env, segs: seq<Seg>, i: nat)
    requires i < |segs|
    ensures AllData(env, segs[..i + 1]) <==>
      AllData(env, segs[..i]) && (segs[i].QInterp? ==> Lookup(env, segs[i].name).Some?)
  {
    assert segs[..i + 1] == segs[..i] + [segs[i]];
  }

  lemma DataMissing(env: Env, segs: seq<Seg>, i: nat)
    requires i < |segs| && segs[i].QInterp? && Lookup(env, segs[i].name) == None
    ensures !AllData(env, segs)
  {
  }

  // ---- what the words of a template are ----

  predicate Solid(atoms: seq<Atom>) { forall i :: 0 <= i < |atoms| ==> !IsBlank(atoms[i]) }

  /** A blank ends a word: what stands on either side of it is cut separately. */
  lemma {:induction false} WordsAtBlank(a: seq<Atom>, x: Atom, b: seq<Atom>, word: seq<Atom>)
    requires IsBlank(x)
    ensures Words(a + [x] + b, word) == Words(a, word) + Words(b, [])
    decreases |a|
  {
    var all := a + [x] + b;
    if a == [] {
      assert all[1..] == b;
    } else {
      assert all[1..] == a[1..] + [x] + b;
      if IsBlank(a[0]) {
        WordsAtBlank(a[1..], x, b, []);
      } else {
        WordsAtBlank(a[1..], x, b, word + [a[0]]);
      }
    }
  }

  /** Without a blank there is one word at most. */
  lemma {:induction false} WordsSolid(a: seq<Atom>, word: seq<Atom>)
    requires Solid(a)
    ensures Words(a, word) == Flush(word + a)
    decreases |a|
  {
    if a == [] {
      assert word + a == word;
    } else {
      WordsSolid(a[1..], word + [a[0]]);
      assert word + [a[0]] + a[1..] == word + a;
    }
  }

  function Flatten(words: seq<seq<Atom>>): seq<Atom>
  {
    if words == [] then [] else words[0] + Flatten(words[1..])
  }

  function NonBlank(atoms: seq<Atom>): seq<Atom>
  {
    if atoms == [] then [] else (if IsBlank(atoms[0]) then [] else [atoms[0]]) + NonBlank(atoms[1..])
  }

  predicate WordsOk(words: seq<seq<Atom>>) { forall i :: 0 <= i < |words| ==> words[i] != [] && Solid(words[i]) }

  /** Nothing is lost, repeated or reordered: the words hold the atoms that are not blank, one by one. */
  lemma {:induction false} WordsConserve(atoms: seq<Atom>, word: seq<Atom>)
    requires Solid(word)
    ensures Flatten(Words(atoms, word)) == word + NonBlank(atoms)
    ensures WordsOk(Words(atoms, word))
    decreases |atoms|
  {
    if atoms == [] {
      if word != [] { assert [word][1..] == []; }
      assert Flatten(Flush(word)) == word;
    } else if IsBlank(atoms[0]) {
      WordsConserve(atoms[1..], []);
      var more := Words(atoms[1..], []);
      if word == [] { assert [] + more == more; } else { assert ([word] + more)[1..] == more; }
    } else {
      WordsConserve(atoms[1..], word + [atoms[0]]);
    }
  }

  predicate Mentions(word: seq<Atom>, name: string) { Hole(name) in word }

  lemma {:induction false} SubstAgrees(e1: Env, e2: Env, word: seq<Atom>)
    requires forall name :: Mentions(word, name) ==> Lookup(e1, name) == Lookup(e2, name)
    ensures Subst(e1, word) == Subst(e2, word)
  {
    if word != [] {
      forall name | Mentions(word[1..], name) ensures Lookup(e1, name) == Lookup(e2, name) {
        assert Mentions(word, name);
      }
      SubstAgrees(e1, e2, word[1..]);
      if word[0].Hole? { assert Mentions(word, word[0].name); }
    }
  }

  /**
   Template non-interference: under any two environments a command template gives argument lists of
   equal length, each argument filled in from the same word; where the environments agree on the
   names of a word, its argument is the same.
   */
  lemma {:induction false} ArgvNonInterference(e1: Env, e2: Env, segs: seq<Seg>)
    ensures
      var words := Words(Atoms(segs), []);
      var a1, a2 := SubstAll(e1, words), SubstAll(e2, words);
      && |a1| == |a2|
      && forall i :: 0 <= i < |words| ==>
           && a1[i] == Subst(e1, words[i]) && a2[i] == Subst(e2, words[i])
           && ((forall name :: Mentions(words[i], name) ==> Lookup(e1, name) == Lookup(e2, name)) ==> a1[i] == a2[i])
  {
    hide Words, Subst, Lookup, Mentions;
    var words := Words(Atoms(segs), []);
    forall i | 0 <= i < |words| && forall name :: Mentions(words[i], name) ==> Lookup(e1, name) == Lookup(e2, name)
      ensures Subst(e1, words[i]) == Subst(e2, words[i])
    {
      SubstAgrees(e1, e2, words[i]);
    }
  }

  // ---- path templates ----

  /** One path component that goes nowhere but down. */
  predicate SafeSegment(s: string) { '/' !in s && s != "" && s != "." && s != ".." }

  predicate AllSafe(env: Env, segs: seq<Seg>)
  {
    forall i :: 0 <= i < |segs| && segs[i].QInterp? ==>
      Lookup(env, segs[i].name).Some? && SafeSegment(Lookup(env, segs[i].name).value)
  }

  predicate Fillable(env: Env, kind: QuasiKind, segs: seq<Seg>)
  {
    if kind == QPath then AllSafe(env, segs) else AllData(env, segs)
  }

  /** `eval_quasi`: literals and values joined; in a path every value must be one safe component. */
  method EvalQuasi(env: Env, kind: QuasiKind, segs: seq<Seg>) returns (r: Option<string>)
    ensures r == if Fillable(env, kind, segs) then Some(Subst(env, Atoms(segs))) else None
  {
    hide Subst, Atoms, Lookup, SafeSegment, Fillable;
    var buf := "";
    var i := 0;
    assert segs[0..] == segs && segs[..0] == [];
    NothingToFill(env, kind);
    assert "" + Subst(env, Atoms(segs)) == Subst(env, Atoms(segs));
    while i < |segs|
      invariant i <= |segs| && Fillable(env, kind, segs[..i])
      invariant buf + Subst(env, Atoms(segs[i..])) == Subst(env, Atoms(segs))
    {
      ghost var was, rest := buf, Subst(env, Atoms(segs[i + 1..]));
      FirstAtoms(segs, i);
      FillableSnoc(env, kind, segs, i);
      SubstAppend(env, SegAtoms(segs[i]), Atoms(segs[i + 1..]));
      match segs[i] {
        case QLit(s) =>
          SubstLit(env, s);
          buf := buf + s;
          assert buf + rest == was + (s + rest);
        case QInterp(name) =>
          var v := Lookup(env, name);
          if v == None { return None; }
          if kind == QPath && !SafeSegment(v.value) { return None; }
          SubstOne(env, Hole(name));
          buf := buf + v.value;
          assert buf + rest == was + (v.value + rest);
      }
      i := i + 1;
    }
    assert segs[..i] == segs && segs[i..] == [];
    NoAtoms();
    NothingYet(env);
    assert buf + "" == buf;
    r := Some(buf);
  }

  lemma NothingToFill(env: Env, kind: QuasiKind)
    ensures Fillable(env, kind, [])
  {
  }

  predicate FillableSeg(env: Env, kind: QuasiKind, g: Seg)
  {
    g.QInterp? ==> Lookup(env, g.name).Some? && (kind == QPath ==> SafeSegment(Lookup(env, g.name).value))
  }

  lemma {:induction false} FillableSnoc(env: Env, kind: QuasiKind, segs: seq<Seg>, i: nat)
    requires i < |segs|
    ensures Fillable(env, kind, segs[..i + 1]) <==> Fillable(env, kind, segs[..i]) && FillableSeg(env, kind, segs[i])
    ensures !FillableSeg(env, kind, segs[i]) ==> !Fillable(env, kind, segs)
  {
    hide Lookup, SafeSegment;
    assert segs[..i + 1] == segs[..i] + [segs[i]];
  }

  lemma {:induction false} SubstLit(env: Env, s: string)
    ensures Subst(env, LitAtoms(s)) == s
  {
    if s != "" {
      SubstLit(env, s[1..]);
      assert LitAtoms(s)[1..] == LitAtoms(s[1..]);
    }
  }

  /** The components of a template, cut at its own slashes. */
  function Cut(atoms: seq<Atom>): (parts: seq<seq<Atom>>)
    ensures |parts| >= 1
  {
    if atoms == [] then [[]]
    else
      var rest := Cut(atoms[1..]);
      if atoms[0] == Ch('/') then [[]] + rest else [[atoms[0]] + rest[0]] + rest[1..]
  }

  function Slashes(atoms: seq<Atom>): nat
  {
    if atoms == [] then 0 else (if atoms[0] == Ch('/') then 1 else 0) + Slashes(atoms[1..])
  }

  lemma {:induction false} CutCounts(atoms: seq<Atom>)
    ensures |Cut(atoms)| == Slashes(atoms) + 1
  {
    if atoms != [] { CutCounts(atoms[1..]); }
  }

  predicate SafeHoles(env: Env, atoms: seq<Atom>)
  {
    forall i :: 0 <= i < |atoms| && atoms[i].Hole? ==>
      Lookup(env, atoms[i].name).Some? && SafeSegment(Lookup(env, atoms[i].name).value)
  }

  /** The slashes of the result are the slashes of the template: its components are the template's, filled in. */
  lemma {:induction false} SplitIsCut(env: Env, atoms: seq<Atom>)
    requires SafeHoles(env, atoms)
    ensures Split(Subst(env, atoms), '/') == SubstAll(env, Cut(atoms))
  {
    if atoms == [] {
      assert SubstAll(env, [[]]) == [""];
    } else {
      assert forall i :: 0 <= i < |atoms[1..]| ==> atoms[1..][i] == atoms[i + 1];
      SplitIsCut(env, atoms[1..]);
      var rest := Cut(atoms[1..]);
      if atoms[0] == Ch('/') {
        SplitIsCutSlash(env, atoms);
      } else {
        var v := Fill(env, atoms[0]);
        assert '/' !in v;
        SplitPrefix(v, Subst(env, atoms[1..]), '/');
        CutFirst(env, atoms, v);
      }
    }
  }

  lemma {:induction false} SplitIsCutSlash(env: Env, atoms: seq<Atom>)
    requires atoms != [] && atoms[0] == Ch('/')
    requires Split(Subst(env, atoms[1..]), '/') == SubstAll(env, Cut(atoms[1..]))
    ensures Split(Subst(env, atoms), '/') == SubstAll(env, Cut(atoms))
  {
    var t := Subst(env, atoms[1..]);
    assert ("/" + t)[1..] == t;
    SubstAllAppend(env, [[]], Cut(atoms[1..]));
    assert SubstAll(env, [[]]) == [""];
  }

  lemma {:induction false} CutFirst(env: Env, atoms: seq<Atom>, v: string)
    requires atoms != [] && atoms[0] != Ch('/') && v == Fill(env, atoms[0])
    ensures
      var rest := Cut(atoms[1..]);
      SubstAll(env, Cut(atoms)) == [v + SubstAll(env, rest)[0]] + SubstAll(env, rest)[1..]
  {
    var rest := Cut(atoms[1..]);
    var first := [atoms[0]] + rest[0];
    assert first[1..] == rest[0];
    SubstAllAppend(env, [first], rest[1..]);
    assert SubstAll(env, rest)[1..] == SubstAll(env, rest[1..]);
    assert SubstAll(env, [first]) == [v + Subst(env, rest[0])];
  }

  lemma {:induction false} DotsHoldDots(pre: string, v: string, post: string)
    ensures
      var s := pre + v + post;
      s == "" || s == "." || s == ".." ==> v == "" || v == "." || v == ".."
  {
    var s := pre + v + post;
    if s == "" || s == "." || s == ".." {
      assert forall i :: 0 <= i < |s| ==> s[i] == '.';
      forall i | 0 <= i < |v| ensures v[i] == '.' {
        assert v[i] == s[|pre| + i];
      }
      FewDots(v);
    }
  }

  lemma FewDots(v: string)
    requires |v| <= 2 && forall i :: 0 <= i < |v| ==> v[i] == '.'
    ensures v == "" || v == "." || v == ".."
  {
    assert |v| == 0 ==> v == "";
    assert |v| == 1 ==> v == ".";
    assert |v| == 2 ==> v == "..";
  }

  /** Text that holds a safe component as a part is not "", "." or "..". */
  lemma AroundSafe(pre: string, v: string, post: string)
    requires SafeSegment(v)
    ensures var s := pre + v + post; s != "" && s != "." && s != ".."
  {
    DotsHoldDots(pre, v, post);
  }

  lemma {:induction false} HoleInside(env: Env, part: seq<Atom>, k: nat)
    requires k < |part| && part[k].Hole? && Lookup(env, part[k].name).Some?
    requires SafeSegment(Lookup(env, part[k].name).value)
    ensures Subst(env, part) != "" && Subst(env, part) != "." && Subst(env, part) != ".."
  {
    hide Subst, SafeSegment, Lookup;
    var a, b := part[..k], part[k + 1..];
    assert part == a + [part[k]] + b;
    SubstAppend(env, a + [part[k]], b);
    SubstSnoc(env, a, part[k]);
    AroundSafe(Subst(env, a), Lookup(env, part[k].name).value, Subst(env, b));
  }

  lemma {:induction false} CutHoles(env: Env, atoms: seq<Atom>, k: nat)
    requires SafeHoles(env, atoms) && k < |Cut(atoms)|
    ensures SafeHoles(env, Cut(atoms)[k])
  {
    hide Lookup, SafeSegment;
    if atoms != [] {
      var tail := atoms[1..];
      assert forall i :: 0 <= i < |tail| ==> tail[i] == atoms[i + 1];
      var rest := Cut(tail);
      CutHoles(env, tail, 0);
      if k > 0 { CutHoles(env, tail, if atoms[0] == Ch('/') then k - 1 else k); }
      if k == 0 && atoms[0] != Ch('/') {
        var part := [atoms[0]] + rest[0];
        assert forall i :: 0 < i < |part| ==> part[i] == rest[0][i - 1];
      }
    }
  }

  lemma {:induction false} SafeAtoms(env: Env, segs: seq<Seg>)
    requires AllSafe(env, segs)
    ensures SafeHoles(env, Atoms(segs))
  {
    hide Lookup, SafeSegment;
    if segs != [] {
      assert forall i :: 0 <= i < |segs[1..]| ==> segs[1..][i] == segs[i + 1];
      SafeAtoms(env, segs[1..]);
    }
  }

  /**
   A path template keeps its literal slashes and no others, whatever it is filled with; and a
   component that holds an interpolation is never empty, "." or "..".
   */
  lemma {:induction false} PathTemplateKeepsShape(env: Env, segs: seq<Seg>)
    requires Fillable(env, QPath, segs)
    ensures
      var parts := Cut(Atoms(segs));
      var got := Split(Subst(env, Atoms(segs)), '/');
      && got == SubstAll(env, parts) && |got| == Slashes(Atoms(segs)) + 1
      && forall k :: 0 <= k < |parts| && (exists name :: Mentions(parts[k], name)) ==>
           got[k] != "" && got[k] != "." && got[k] != ".."
  {
    hide Subst, Cut, Slashes, SafeSegment, Lookup, Split, Atoms;
    var atoms := Atoms(segs);
    var parts := Cut(atoms);
    SafeAtoms(env, segs);
    SplitIsCut(env, atoms);
    CutCounts(atoms);
    forall k | 0 <= k < |parts| && exists name :: Mentions(parts[k], name)
      ensures Subst(env, parts[k]) != "" && Subst(env, parts[k]) != "." && Subst(env, parts[k]) != ".."
    {
      var name :| Mentions(parts[k], name);
      var j :| 0 <= j < |parts[k]| && parts[k][j] == Hole(name);
      CutHoles(env, atoms, k);
      HoleInside(env, parts[k], j);
    }
  }
}
