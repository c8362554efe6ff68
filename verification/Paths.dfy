/**
 Lexical paths under a capability (`safe_join`, `is_secret_path` in `lib.rs`): joining never
 leaves the root, and the secrecy of a read does not depend on where the path was cut.
 */
module Paths {
  import opened Text
  import opened Target

  function TrimEndSlashes(s: string): string
  {
    if s != "" && s[|s| - 1] == '/' then TrimEndSlashes(s[..|s| - 1]) else s
  }

  /** Drops the components that name nothing. */
  function Clean(parts: seq<string>): seq<string>
  {
    if parts == [] then []
    else (if parts[0] == "" || parts[0] == "." then [] else [parts[0]]) + Clean(parts[1..])
  }

  predicate Absolute(s: string) { s != "" && s[0] == '/' }

  predicate Climbs(rel: string) { ".." in Split(rel, '/') }

  /** `parts` below `root`, textually. */
  function Under(root: string, parts: seq<string>): string
  {
    if parts == [] then root else TrimEndSlashes(root) + "/" + Join(parts, "/")
  }

  /** `safe_join`. */
  function SafeJoin(root: string, rel: string): Option<string>
  {
    if Absolute(rel) || Climbs(rel) then None else Some(Under(root, Clean(Split(rel, '/'))))
  }

  predicate AllProper(parts: seq<string>) { forall i :: 0 <= i < |parts| ==> Proper(parts[i]) }

  lemma {:induction false} CleanProper(parts: seq<string>)
    requires ".." !in parts && forall i :: 0 <= i < |parts| ==> '/' !in parts[i]
    ensures AllProper(Clean(parts))
  {
    if parts != [] { CleanProper(parts[1..]); }
  }

  lemma {:induction false} CleanAppend(a: seq<string>, b: seq<string>)
    ensures Clean(a + b) == Clean(a) + Clean(b)
  {
    if a == [] {
      assert a + b == b;
    } else {
      assert (a + b)[1..] == a[1..] + b;
      CleanAppend(a[1..], b);
    }
  }

  lemma {:induction false} JoinLast(parts: seq<string>)
    requires parts != [] && AllProper(parts)
    ensures Join(parts, "/") != "" && Join(parts, "/")[|Join(parts, "/")| - 1] != '/'
  {
    if |parts| == 1 {
      assert parts[0][|parts[0]| - 1] in parts[0];
    } else {
      JoinLast(parts[1..]);
    }
  }

  /** Going below twice is going below once. */
  lemma {:induction false} UnderUnder(root: string, p: seq<string>, q: seq<string>)
    requires AllProper(p) && AllProper(q)
    ensures Under(Under(root, p), q) == Under(root, p + q)
  {
    if p == [] {
      assert p + q == q;
    } else if q == [] {
      assert p + q == p;
    } else {
      JoinLast(p);
      var r := Under(root, p);
      assert TrimEndSlashes(r) == r;
      JoinAppend(p, q, "/");
    }
  }

  // ---- associativity of safe_join ----

  lemma {:induction false} ComponentsOf(a: string, b: string)
    ensures Split(a + "/" + b, '/') == Split(a, '/') + Split(b, '/')
    ensures Climbs(a + "/" + b) <==> Climbs(a) || Climbs(b)
    ensures Absolute(a + "/" + b) <==> a == "" || Absolute(a)
  {
    SplitAt(a, '/', b);
  }

  /**
   Joining in two steps is joining once, `safe_join(safe_join(root, a), b) = safe_join(root, a/b)`,
   exactly when `b` climbs (both refuse), or `a` is empty just when `b` is absolute.
   */
  lemma {:induction false} JoinTwice(root: string, a: string, b: string)
    requires SafeJoin(root, a).Some?
    ensures SafeJoin(SafeJoin(root, a).value, b) == SafeJoin(root, a + "/" + b)
       <==> Climbs(b) || (a == "" <==> Absolute(b))
  {
    hide Split, Clean, Under;
    ComponentsOf(a, b);
    if !Climbs(b) && a != "" && !Absolute(b) {
      var p, q := Clean(Split(a, '/')), Clean(Split(b, '/'));
      CleanProper(Split(a, '/'));
      CleanProper(Split(b, '/'));
      CleanAppend(Split(a, '/'), Split(b, '/'));
      UnderUnder(root, p, q);
    }
  }

  // ---- at or below a workspace ----

  /** `root` is lexically at or below `top`. */
  ghost predicate AtOrBelow(top: string, root: string)
  {
    exists parts :: AllProper(parts) && root == Under(top, parts)
  }

  lemma {:induction false} TopIsBelowItself(top: string)
    ensures AtOrBelow(top, top)
  {
    assert AllProper([]) && top == Under(top, []);
  }

  /** Joining keeps what is below the workspace below it. */
  lemma {:induction false} JoinStaysBelow(top: string, root: string, rel: string)
    requires AtOrBelow(top, root) && SafeJoin(root, rel).Some?
    ensures AtOrBelow(top, SafeJoin(root, rel).value)
  {
    hide Under, Split, Clean;
    var p :| AllProper(p) && root == Under(top, p);
    var q := Clean(Split(rel, '/'));
    CleanProper(Split(rel, '/'));
    UnderUnder(top, p, q);
    assert AllProper(p + q);
  }

  // ---- secrecy ----

  predicate OccursAt(s: string, m: string, i: int)
  {
    0 <= i <= |s| - |m| && s[i..i + |m|] == m
  }

  /** `str::contains`. */
  predicate Contains(s: string, m: string)
  {
    exists i :: 0 <= i <= |s| && OccursAt(s, m, i)
  }

  const Markers: seq<string> :=
    [".ssh", ".aws", ".gnupg", ".env", "secret", "vault", "id_rsa", "id_ed25519", "credential", ".pem"]

  /** `is_secret_path`. */
  predicate IsSecretPath(p: string)
  {
    exists k :: 0 <= k < |Markers| && Contains(p, Markers[k])
  }

  /** The words that make a path secret, one by one. */
  lemma {:induction false} SecretWords(p: string)
    ensures IsSecretPath(p) <==>
      || Contains(p, ".ssh") || Contains(p, ".aws") || Contains(p, ".gnupg") || Contains(p, ".env")
      || Contains(p, "secret") || Contains(p, "vault") || Contains(p, "id_rsa") || Contains(p, "id_ed25519")
      || Contains(p, "credential") || Contains(p, ".pem")
  {
    hide Contains;
    assert |Markers| == 10;
    assert Markers[0] == ".ssh" && Markers[1] == ".aws" && Markers[2] == ".gnupg" && Markers[3] == ".env";
    assert Markers[4] == "secret" && Markers[5] == "vault" && Markers[6] == "id_rsa" && Markers[7] == "id_ed25519";
    assert Markers[8] == "credential" && Markers[9] == ".pem";
  }

  /** A text that cannot straddle a slash and does not fit in "" or ".". */
  predicate Marker(m: string) { |m| >= 2 && '/' !in m }

  lemma MarkersAreMarkers(k: nat)
    requires k < |Markers|
    ensures Marker(Markers[k])
  {
  }

  lemma OccursOneSide(a: string, b: string, m: string, i: int)
    requires Marker(m)
    ensures OccursAt(a + "/" + b, m, i) ==> i + |m| <= |a| || i > |a|
  {
    var s := a + "/" + b;
    if OccursAt(s, m, i) && i <= |a| < i + |m| { Straddles(a, b, m, i); }
  }

  lemma Straddles(a: string, b: string, m: string, i: int)
    requires OccursAt(a + "/" + b, m, i) && i <= |a| < i + |m|
    ensures '/' in m
  {
    var s := a + "/" + b;
    assert m[|a| - i] == s[|a|] == '/';
  }

  lemma OccursLeft(a: string, b: string, m: string, i: int)
    requires 0 <= i && i + |m| <= |a|
    ensures OccursAt(a + "/" + b, m, i) <==> OccursAt(a, m, i)
  {
    assert (a + "/" + b)[i..i + |m|] == a[i..i + |m|];
  }

  lemma OccursRight(a: string, b: string, m: string, j: int)
    requires 0 <= j && j + |m| <= |b|
    ensures OccursAt(a + "/" + b, m, j + |a| + 1) <==> OccursAt(b, m, j)
  {
    var i := j + |a| + 1;
    assert (a + "/" + b)[i..i + |m|] == b[j..j + |m|];
  }

  /** A marker lives inside one component. */
  lemma {:induction false} ContainsSlash(a: string, b: string, m: string)
    requires Marker(m)
    ensures Contains(a + "/" + b, m) <==> Contains(a, m) || Contains(b, m)
  {
    var s := a + "/" + b;
    if Contains(s, m) {
      var i :| 0 <= i <= |s| && OccursAt(s, m, i);
      OccursOneSide(a, b, m, i);
      if i <= |a| {
        OccursLeft(a, b, m, i);
      } else {
        OccursRight(a, b, m, i - |a| - 1);
      }
    }
    if Contains(a, m) {
      var i :| 0 <= i <= |a| && OccursAt(a, m, i);
      OccursLeft(a, b, m, i);
    }
    if Contains(b, m) {
      var j :| 0 <= j <= |b| && OccursAt(b, m, j);
      OccursRight(a, b, m, j);
    }
  }

  /** The secrecy of a path is the secrecy of its two halves. */
  lemma {:induction false} SecretSlash(a: string, b: string)
    ensures IsSecretPath(a + "/" + b) <==> IsSecretPath(a) || IsSecretPath(b)
  {
    hide Contains, Marker;
    forall k | 0 <= k < |Markers|
      ensures Contains(a + "/" + b, Markers[k]) <==> Contains(a, Markers[k]) || Contains(b, Markers[k])
    {
      MarkersAreMarkers(k);
      ContainsSlash(a, b, Markers[k]);
    }
  }

  lemma NothingIsPlain(s: string)
    requires |s| <= 1
    ensures !IsSecretPath(s)
  {
    forall k | 0 <= k < |Markers| ensures !Contains(s, Markers[k]) { MarkersAreMarkers(k); }
  }

  /** Some component is secret. */
  predicate AnySecret(parts: seq<string>)
  {
    if parts == [] then false else IsSecretPath(parts[0]) || AnySecret(parts[1..])
  }

  lemma {:induction false} SecretJoin(parts: seq<string>)
    ensures IsSecretPath(Join(parts, "/")) <==> AnySecret(parts)
  {
    hide IsSecretPath;
    if parts == [] {
      NothingIsPlain("");
    } else if |parts| == 1 {
      assert parts[1..] == [];
    } else {
      SecretJoin(parts[1..]);
      SecretSlash(parts[0], Join(parts[1..], "/"));
    }
  }

  lemma {:induction false} AnySecretClean(parts: seq<string>)
    ensures AnySecret(Clean(parts)) <==> AnySecret(parts)
  {
    hide IsSecretPath;
    if parts != [] {
      AnySecretClean(parts[1..]);
      if parts[0] == "" || parts[0] == "." {
        NothingIsPlain(parts[0]);
        assert [] + Clean(parts[1..]) == Clean(parts[1..]);
      } else {
        assert ([parts[0]] + Clean(parts[1..]))[1..] == Clean(parts[1..]);
      }
    }
  }

  lemma {:induction false} SecretTrim(s: string)
    ensures IsSecretPath(TrimEndSlashes(s)) <==> IsSecretPath(s)
  {
    hide IsSecretPath;
    if s != "" && s[|s| - 1] == '/' {
      var t := s[..|s| - 1];
      SecretTrim(t);
      SecretSlash(t, "");
      NothingIsPlain("");
      assert s == t + "/" + "";
    }
  }

  /** A joined path is secret when its root or the joined part is. */
  lemma {:induction false} SecretSafeJoin(root: string, rel: string)
    requires SafeJoin(root, rel).Some?
    ensures IsSecretPath(SafeJoin(root, rel).value) <==> IsSecretPath(root) || IsSecretPath(rel)
  {
    hide IsSecretPath, Split, Clean, TrimEndSlashes;
    var parts := Split(rel, '/');
    var q := Clean(parts);
    JoinSplit(rel, '/');
    SecretJoin(parts);
    AnySecretClean(parts);
    if q != [] {
      SecretJoin(q);
      SecretSlash(TrimEndSlashes(root), Join(q, "/"));
      SecretTrim(root);
    }
  }

  // ---- taint does not depend on the cut ----

  /** The root reached by a chain of `derive_sub`. */
  function ChainRoot(root: string, segs: seq<string>): Option<string>
    decreases |segs|
  {
    if segs == [] then Some(root)
    else
      var next := SafeJoin(root, segs[0]);
      if next == None then None else ChainRoot(next.value, segs[1..])
  }

  lemma {:induction false} SecretChain(root: string, segs: seq<string>)
    requires ChainRoot(root, segs).Some?
    ensures IsSecretPath(ChainRoot(root, segs).value) <==> IsSecretPath(root) || AnySecret(segs)
    decreases |segs|
  {
    hide IsSecretPath, SafeJoin;
    if segs != [] {
      SecretSafeJoin(root, segs[0]);
      SecretChain(SafeJoin(root, segs[0]).value, segs[1..]);
    }
  }

  /**
   Reading `rel` through any chain of sub-capabilities is exactly as secret as reading the whole
   joined path through the top capability.
   */
  lemma {:induction false} TaintIndependentOfCut(root: string, segs: seq<string>, rel: string)
    requires segs != [] && ChainRoot(root, segs).Some?
    ensures IsSecretPath(ChainRoot(root, segs).value + "/" + rel)
       <==> IsSecretPath(root + "/" + (Join(segs, "/") + "/" + rel))
  {
    hide IsSecretPath, ChainRoot, Join;
    SecretChain(root, segs);
    SecretSlash(ChainRoot(root, segs).value, rel);
    SecretSlash(root, Join(segs, "/") + "/" + rel);
    SecretSlash(Join(segs, "/"), rel);
    SecretJoin(segs);
  }

  /** On nonempty relative segments the chain reaches the root of the joined path. */
  lemma {:induction false} ChainIsOneJoin(root: string, segs: seq<string>)
    requires segs != [] && forall i :: 0 <= i < |segs| ==> segs[i] != "" && !Absolute(segs[i])
    ensures ChainRoot(root, segs) == SafeJoin(root, Join(segs, "/"))
    decreases |segs|
  {
    hide SafeJoin;
    if |segs| == 1 {
      assert segs[1..] == [];
    } else {
      var rest := Join(segs[1..], "/");
      assert !Absolute(rest) && rest != "" by { assert segs[1..][0] == segs[1]; }
      assert Join(segs, "/") == segs[0] + "/" + rest;
      RefusedFirst(root, segs[0], rest);
      if SafeJoin(root, segs[0]).Some? {
        ChainIsOneJoin(SafeJoin(root, segs[0]).value, segs[1..]);
        JoinTwice(root, segs[0], rest);
      }
    }
  }

  lemma {:induction false} RefusedFirst(root: string, a: string, b: string)
    ensures SafeJoin(root, a) == None ==> SafeJoin(root, a + "/" + b) == None
  {
    hide Split;
    ComponentsOf(a, b);
  }
}
