/** What the verdict of ValidateConnections depends on, and what it does not. */
module ConnectionTheorems {
  import opened Wrappers
  import opened Text
  import opened HostPort
  import opened Names
  import opened Config
  import opened Connections

  // ----- The verdict is about single connections and pairs of connections -----

  predicate Apart(a: seq<Bind>, b: seq<Bind>) {
    forall i, j :: 0 <= i < |a| && 0 <= j < |b| ==> !Conflict(a[i], b[j])
  }

  /** The connection is acceptable by itself next to the health endpoint. */
  predicate Alone(spec: ConnectionSpec, info: string) {
    SpecOk(spec) && ConflictFree(SpecBinds(spec)) && Apart(InfoBinds(info), SpecBinds(spec))
  }

  predicate Compatible(a: ConnectionSpec, b: ConnectionSpec, env: Env) {
    !Clash(a, b, env) && Apart(SpecBinds(a), SpecBinds(b))
  }

  ghost predicate PairwiseValid(specs: seq<ConnectionSpec>, info: string, env: Env) {
    && (info != "" ==> SplitHostPort(info).Ok?)
    && (forall i :: 0 <= i < |specs| ==> Alone(specs[i], info))
    && (forall i, j :: 0 <= i < j < |specs| ==> Compatible(specs[i], specs[j], env))
  }

  lemma ConflictFreeAppend(a: seq<Bind>, b: seq<Bind>)
    ensures ConflictFree(a + b) <==> ConflictFree(a) && ConflictFree(b) && Apart(a, b)
  {
    var c := a + b;
    if ConflictFree(c) {
      forall i, j | 0 <= i < j < |a| ensures !Conflict(a[i], a[j]) {
        assert !Conflict(c[i], c[j]);
      }
      forall i, j | 0 <= i < j < |b| ensures !Conflict(b[i], b[j]) {
        assert !Conflict(c[|a|+i], c[|a|+j]);
      }
      forall i, j | 0 <= i < |a| && 0 <= j < |b| ensures !Conflict(a[i], b[j]) {
        assert !Conflict(c[i], c[|a|+j]);
      }
    }
  }

  lemma ApartAppend(a: seq<Bind>, b: seq<Bind>, c: seq<Bind>)
    ensures Apart(a + b, c) <==> Apart(a, c) && Apart(b, c)
  {
    if Apart(a + b, c) {
      forall i, j | 0 <= i < |a| && 0 <= j < |c| ensures !Conflict(a[i], c[j]) {
        assert !Conflict((a + b)[i], c[j]);
      }
      forall i, j | 0 <= i < |b| && 0 <= j < |c| ensures !Conflict(b[i], c[j]) {
        assert !Conflict((a + b)[|a|+i], c[j]);
      }
    }
  }

  function Flat(first: seq<Bind>, lists: seq<seq<Bind>>): seq<Bind> {
    if lists == [] then first else Flat(first, lists[..|lists|-1]) + lists[|lists|-1]
  }

  predicate EachApart(lists: seq<seq<Bind>>, b: seq<Bind>) {
    forall i :: 0 <= i < |lists| ==> Apart(lists[i], b)
  }

  lemma {:induction false} FlatApart(first: seq<Bind>, lists: seq<seq<Bind>>, b: seq<Bind>)
    ensures Apart(Flat(first, lists), b) <==> Apart(first, b) && EachApart(lists, b)
  {
    if lists != [] {
      var n := |lists| - 1;
      FlatApart(first, lists[..n], b);
      ApartAppend(Flat(first, lists[..n]), lists[n], b);
    }
  }

  predicate ListsPairwise(first: seq<Bind>, lists: seq<seq<Bind>>) {
    && (forall i :: 0 <= i < |lists| ==> ConflictFree(lists[i]) && Apart(first, lists[i]))
    && (forall i, j :: 0 <= i < j < |lists| ==> Apart(lists[i], lists[j]))
  }

  lemma {:induction false} FlatPairwise(first: seq<Bind>, lists: seq<seq<Bind>>)
    ensures ConflictFree(Flat(first, lists)) <==> ConflictFree(first) && ListsPairwise(first, lists)
  {
    if lists != [] {
      var n := |lists| - 1;
      FlatPairwise(first, lists[..n]);
      ConflictFreeAppend(Flat(first, lists[..n]), lists[n]);
      FlatApart(first, lists[..n], lists[n]);
      assert ListsPairwise(first, lists) <==>
             ListsPairwise(first, lists[..n]) && ConflictFree(lists[n]) && Apart(first, lists[n]) && EachApart(lists[..n], lists[n]);
    }
  }

  function BindLists(specs: seq<ConnectionSpec>): (r: seq<seq<Bind>>)
    ensures |r| == |specs| && forall i :: 0 <= i < |specs| ==> r[i] == SpecBinds(specs[i])
  {
    seq(|specs|, i requires 0 <= i < |specs| => SpecBinds(specs[i]))
  }

  lemma {:induction false} AllBindsIsFlat(specs: seq<ConnectionSpec>, info: string)
    ensures AllBinds(specs, info) == Flat(InfoBinds(info), BindLists(specs))
  {
    if specs != [] {
      var n := |specs| - 1;
      AllBindsIsFlat(specs[..n], info);
      assert BindLists(specs)[..n] == BindLists(specs[..n]);
    }
  }

  /** A list is valid exactly when each connection is acceptable alone and every two are compatible. */
  lemma ValidIffPairwise(specs: seq<ConnectionSpec>, info: string, env: Env)
    ensures ValidSpecs(specs, info, env) <==> PairwiseValid(specs, info, env)
  {
    AllBindsIsFlat(specs, info);
    FlatPairwise(InfoBinds(info), BindLists(specs));
    var lists := BindLists(specs);
    if ValidSpecs(specs, info, env) {
      forall i | 0 <= i < |specs| ensures Alone(specs[i], info) {
        assert ConflictFree(lists[i]);
      }
      forall i, j | 0 <= i < j < |specs| ensures Compatible(specs[i], specs[j], env) {
        assert Apart(lists[i], lists[j]);
      }
    } else if PairwiseValid(specs, info, env) {
      forall i | 0 <= i < |specs| ensures SpecOk(specs[i]) && ConflictFree(lists[i]) && Apart(InfoBinds(info), lists[i]) {
        assert Alone(specs[i], info);
      }
      forall i, j | 0 <= i < j < |specs| ensures Apart(lists[i], lists[j]) && !Clash(specs[i], specs[j], env) {
        assert Compatible(specs[i], specs[j], env);
      }
    }
  }

  // ----- Reordering and leaving out -----

  lemma Cancel<T>(a: multiset<T>, b: multiset<T>, c: multiset<T>)
    requires a + c <= b + c
    ensures a <= b
  {
    forall y | y in a ensures a[y] <= b[y] {
      assert (a + c)[y] <= (b + c)[y];
    }
  }

  /** The last element of t has a counterpart in s, and the rest of t fits into the rest of s. */
  lemma Match<T>(t: seq<T>, s: seq<T>) returns (k: nat)
    requires t != [] && multiset(t) <= multiset(s)
    ensures k < |s| && s[k] == t[|t|-1]
    ensures multiset(t[..|t|-1]) <= multiset(s[..k] + s[k+1..])
  {
    var n := |t| - 1;
    assert t == t[..n] + [t[n]];
    assert t[n] in multiset(s);
    k :| 0 <= k < |s| && s[k] == t[n];
    assert s == s[..k] + [s[k]] + s[k+1..];
    Cancel(multiset(t[..n]), multiset(s[..k] + s[k+1..]), multiset{t[n]});
  }

  /** Every element of t can be found at its own position of s. */
  lemma {:induction false} Embedding<T>(t: seq<T>, s: seq<T>) returns (f: seq<nat>)
    requires multiset(t) <= multiset(s)
    ensures |f| == |t|
    ensures forall i :: 0 <= i < |f| ==> f[i] < |s| && t[i] == s[f[i]]
    ensures forall i, j :: 0 <= i < j < |f| ==> f[i] != f[j]
  {
    f := [];
    if t != [] {
      var n := |t| - 1;
      var k := Match(t, s);
      var g := Embedding(t[..n], s[..k] + s[k+1..]);
      f := seq(n, i requires 0 <= i < n => if g[i] < k then g[i] else g[i] + 1) + [k];
    }
  }

  lemma CompatibleSymmetric(a: ConnectionSpec, b: ConnectionSpec, env: Env)
    requires Compatible(a, b, env)
    ensures Compatible(b, a, env)
  {}

  /** Any selection of a valid list, in any order, is valid: a sub-list, a permutation, or both. */
  lemma ValidSelection(s: seq<ConnectionSpec>, t: seq<ConnectionSpec>, info: string, env: Env)
    requires ValidSpecs(s, info, env) && multiset(t) <= multiset(s)
    ensures ValidSpecs(t, info, env)
  {
    ValidIffPairwise(s, info, env);
    ValidIffPairwise(t, info, env);
    var f := Embedding(t, s);
    forall i | 0 <= i < |t| ensures Alone(t[i], info) {
      assert Alone(s[f[i]], info);
    }
    forall i, j | 0 <= i < j < |t| ensures Compatible(t[i], t[j], env) {
      if f[i] < f[j] {
        assert Compatible(s[f[i]], s[f[j]], env);
      } else {
        CompatibleSymmetric(s[f[j]], s[f[i]], env);
      }
    }
  }

  /** The verdict does not depend on the order in which the connections are listed. */
  lemma OrderIrrelevant(s: seq<ConnectionSpec>, t: seq<ConnectionSpec>, info: string, env: Env)
    requires multiset(s) == multiset(t)
    ensures ValidSpecs(s, info, env) <==> ValidSpecs(t, info, env)
  {
    if ValidSpecs(s, info, env) {
      ValidSelection(s, t, info, env);
    }
    if ValidSpecs(t, info, env) {
      ValidSelection(t, s, info, env);
    }
  }

  // ----- State directories -----

  /** Connections with different well-formed names and no explicit state directory never collide on one. */
  lemma DerivedStateDirsNeverClash(a: ConnectionSpec, b: ConnectionSpec, env: Env)
    requires a.name != b.name && MatchesPattern(a.name) && MatchesPattern(b.name)
    requires a.conf.tailscale.Some? && a.conf.tailscale.value.stateDir == ""
    requires b.conf.tailscale.Some? && b.conf.tailscale.value.stateDir == ""
    ensures !Same(StateDir(a, env), StateDir(b, env))
  {
    DerivedStateDirsDiffer(a.conf.tailscale.value, b.conf.tailscale.value, a.name, b.name, env);
  }
}
