/** Emitting the routines of a connection in canonical order: a stable sort of its routine sections. */
module Emission {
  import opened Wrappers
  import opened Names
  import opened Config
  import opened Grouping
  import opened Sorting
  import Text

  /** The section types of routineParsers, in order. */
  const PARSERS: seq<string> :=
    ["tcpclienttunnel", "stdiotunnel", "tcpservertunnel", "socks5", "http", "sni", "udpproxytunnel"]

  /** The section parsers, by type; None is a parse error. */
  type Parser = (string, Section) -> Option<Routine>

  // ----- appendRoutines -----

  function ParseAll(parse: Parser, t: string, sections: seq<Section>): Option<seq<Routine>> {
    if sections == [] then Some([])
    else
      var n := |sections| - 1;
      match (ParseAll(parse, t, sections[..n]), parse(t, sections[n]))
      case (Some(rs), Some(r)) => Some(rs + [r])
      case _ => None
  }

  /** The routines of the first k section types. */
  function Emit(parse: Parser, routines: map<string, seq<Section>>, k: nat): Option<seq<Routine>>
    requires k <= |PARSERS|
  {
    if k == 0 then Some([])
    else
      match (Emit(parse, routines, k - 1), ParseAll(parse, PARSERS[k-1], Get(routines, PARSERS[k-1])))
      case (Some(a), Some(b)) => Some(a + b)
      case _ => None
  }

  predicate KnownTypes(routines: map<string, seq<Section>>) {
    forall t :: t in routines ==> t in PARSERS
  }

  method ParseSections(parse: Parser, t: string, sections: seq<Section>) returns (r: Option<seq<Routine>>)
    ensures r == ParseAll(parse, t, sections)
  {
    var out: seq<Routine> := [];
    for n := 0 to |sections|
      invariant ParseAll(parse, t, sections[..n]) == Some(out)
    {
      assert sections[..n+1][..n] == sections[..n];
      match parse(t, sections[n]) {
        case None =>
          ParsePrefix(parse, t, sections, n + 1);
          return None;
        case Some(routine) =>
          out := out + [routine];
      }
    }
    assert sections[..|sections|] == sections;
    return Some(out);
  }

  lemma {:induction false} ParsePrefix(parse: Parser, t: string, sections: seq<Section>, n: nat)
    requires n <= |sections| && ParseAll(parse, t, sections[..n]).None?
    ensures ParseAll(parse, t, sections).None?
    decreases |sections|
  {
    if n == |sections| {
      assert sections[..n] == sections;
    } else {
      assert sections[..|sections|-1][..n] == sections[..n];
      ParsePrefix(parse, t, sections[..|sections|-1], n);
    }
  }

  lemma {:induction false} EmitPrefix(parse: Parser, routines: map<string, seq<Section>>, j: nat, k: nat)
    requires j <= k <= |PARSERS| && Emit(parse, routines, j).None?
    ensures Emit(parse, routines, k).None?
  {
    if j < k {
      EmitPrefix(parse, routines, j, k - 1);
    }
  }

  /** Known types in canonical order first; afterwards any type without a parser is an error. */
  method AppendRoutines(parse: Parser, routines: map<string, seq<Section>>) returns (r: Option<seq<Routine>>)
    ensures r == if KnownTypes(routines) then Emit(parse, routines, |PARSERS|) else None
  {
    var parsed: set<string> := {};
    var out: seq<Routine> := [];
    for k := 0 to |PARSERS|
      invariant parsed == set j | 0 <= j < k :: PARSERS[j]
      invariant Emit(parse, routines, k) == Some(out)
    {
      parsed := parsed + {PARSERS[k]};
      var more := ParseSections(parse, PARSERS[k], Get(routines, PARSERS[k]));
      if more.None? {
        EmitPrefix(parse, routines, k + 1, |PARSERS|);
        return None;
      }
      out := out + more.value;
    }
    var types := routines.Keys;
    while types != {}
      invariant types <= routines.Keys
      invariant forall t :: t in routines && t !in types ==> t in PARSERS
      decreases types
    {
      var t :| t in types;
      if t !in parsed {
        return None;
      }
      types := types - {t};
    }
    return Some(out);
  }

  // ----- The order of the emitted routines -----

  /** The place of a word in a table, or the length of the table. */
  function Place(t: string, table: seq<string>): nat {
    if table == [] || table[0] == t then 0 else 1 + Place(t, table[1..])
  }

  lemma {:induction false} PlaceIs(t: string, table: seq<string>)
    ensures Place(t, table) <= |table|
    ensures Place(t, table) < |table| ==> table[Place(t, table)] == t
    ensures forall j :: 0 <= j < Place(t, table) ==> table[j] != t
  {
    if table != [] && table[0] != t {
      PlaceIs(t, table[1..]);
      assert forall j :: 1 <= j < |table| ==> table[j] == table[1..][j-1];
    }
  }

  /** The place of a section type in routineParsers. */
  function Rank(t: string): nat {
    Place(t, PARSERS)
  }

  lemma ParsersDiffer(j: nat, k: nat)
    requires j < k < |PARSERS|
    ensures PARSERS[j] != PARSERS[k]
  {
    assert PARSERS[0][3] != PARSERS[2][3];
  }

  lemma RankIff(t: string, k: nat)
    requires k < |PARSERS|
    ensures Rank(t) == k <==> t == PARSERS[k]
  {
    PlaceIs(t, PARSERS);
    if t == PARSERS[k] && Rank(t) < k {
      ParsersDiffer(Rank(t), k);
    }
  }

  predicate IsRoutine(file: seq<Filed>, group: string, i: nat) {
    i < |file| && file[i].key.Some? && file[i].key.value.group == group && file[i].key.value.slot.Routines?
  }

  function TypeAt(file: seq<Filed>, i: nat): string {
    if i < |file| && file[i].key.Some? && file[i].key.value.slot.Routines? then file[i].key.value.slot.sectionType else ""
  }

  /** Earlier section type, or the same type and earlier in the file. */
  predicate Before(file: seq<Filed>, i: nat, j: nat) {
    Rank(TypeAt(file, i)) < Rank(TypeAt(file, j)) || (Rank(TypeAt(file, i)) == Rank(TypeAt(file, j)) && i < j)
  }

  /** The file positions of a connection's routine sections of the first k types, type by type. */
  function Order(file: seq<Filed>, group: string, k: nat): seq<nat>
    requires k <= |PARSERS|
  {
    if k == 0 then [] else Order(file, group, k - 1) + Positions(file, Key(group, Routines(PARSERS[k-1])))
  }

  /** `rs` are the connection's routine sections, each parsed once, sorted by type and stable in the file order. */
  ghost predicate StableSorted(parse: Parser, file: seq<Filed>, group: string, at: seq<nat>, rs: seq<Routine>) {
    && |rs| == |at|
    && (forall j :: 0 <= j < |at| ==> IsRoutine(file, group, at[j]) && parse(TypeAt(file, at[j]), file[at[j]].section) == Some(rs[j]))
    && (forall a, b :: 0 <= a < b < |at| ==> Before(file, at[a], at[b]))
    && (forall i :: IsRoutine(file, group, i) ==> i in at)
  }

  lemma {:induction false} PositionsIs(file: seq<Filed>, key: Key)
    ensures var p := Positions(file, key);
            && (forall i :: 0 <= i < |p| ==> p[i] < |file|)
            && (forall a, b :: 0 <= a < b < |p| ==> p[a] < p[b])
            && (forall i :: i in p <==> 0 <= i < |file| && file[i].key == Some(key))
            && |Members(file, key)| == |p|
            && (forall a :: 0 <= a < |p| ==> Members(file, key)[a] == file[p[a]].section)
  {
    if file != [] {
      PositionsIs(file[..|file|-1], key);
    }
  }

  lemma {:induction false} OrderIs(file: seq<Filed>, group: string, k: nat)
    requires k <= |PARSERS|
    ensures var o := Order(file, group, k);
            && (forall i :: i in o <==> IsRoutine(file, group, i) && Rank(TypeAt(file, i)) < k)
            && (forall a, b :: 0 <= a < b < |o| ==> Before(file, o[a], o[b]))
  {
    if k > 0 {
      var o, p := Order(file, group, k - 1), Positions(file, Key(group, Routines(PARSERS[k-1])));
      OrderIs(file, group, k - 1);
      PositionsIs(file, Key(group, Routines(PARSERS[k-1])));
      forall i | IsRoutine(file, group, i)
        ensures i in p <==> Rank(TypeAt(file, i)) == k - 1
      {
        RankIff(TypeAt(file, i), k - 1);
      }
    }
  }

  /** `e` are all the values, provided there are values everywhere. */
  ghost predicate Sums<T>(os: seq<Option<T>>, e: Option<seq<T>>) {
    && (e.Some? <==> forall j :: 0 <= j < |os| ==> os[j].Some?)
    && (e.Some? ==> |e.value| == |os| && forall j :: 0 <= j < |os| ==> os[j] == Some(e.value[j]))
  }

  lemma SumsAppend<T>(p: seq<Option<T>>, a: Option<seq<T>>, q: seq<Option<T>>, b: Option<seq<T>>)
    requires Sums(p, a) && Sums(q, b)
    ensures Sums(p + q, if a.Some? && b.Some? then Some(a.value + b.value) else None)
  {
    if a.Some? && b.None? {
      var j :| 0 <= j < |q| && q[j].None?;
      assert (p + q)[|p|+j] == q[j];
    } else if a.None? {
      var j :| 0 <= j < |p| && p[j].None?;
      assert (p + q)[j] == p[j];
    }
  }

  function Each(parse: Parser, t: string, sections: seq<Section>): (r: seq<Option<Routine>>)
    ensures |r| == |sections| && forall i :: 0 <= i < |r| ==> r[i] == parse(t, sections[i])
  {
    seq(|sections|, i requires 0 <= i < |sections| => parse(t, sections[i]))
  }

  lemma {:induction false} ParseAllIs(parse: Parser, t: string, sections: seq<Section>)
    ensures Sums(Each(parse, t, sections), ParseAll(parse, t, sections))
  {
    if sections != [] {
      var n := |sections| - 1;
      ParseAllIs(parse, t, sections[..n]);
      var last := parse(t, sections[n]);
      assert [last][0] == last;
      SumsAppend(Each(parse, t, sections[..n]), ParseAll(parse, t, sections[..n]), [last], if last.Some? then Some([last.value]) else None);
      assert Each(parse, t, sections) == Each(parse, t, sections[..n]) + [last];
    }
  }

  predicate ParsesAt(parse: Parser, file: seq<Filed>, i: nat)
    requires i < |file|
  {
    OutcomeAt(parse, file, i).Some?
  }

  function OutcomeAt(parse: Parser, file: seq<Filed>, i: nat): Option<Routine>
    requires i < |file|
  {
    parse(TypeAt(file, i), file[i].section)
  }

  predicate InFile(file: seq<Filed>, at: seq<nat>) {
    forall j :: 0 <= j < |at| ==> at[j] < |file|
  }

  function Outcomes(parse: Parser, file: seq<Filed>, at: seq<nat>): (r: seq<Option<Routine>>)
    requires InFile(file, at)
    ensures |r| == |at| && forall j :: 0 <= j < |r| ==> r[j] == OutcomeAt(parse, file, at[j])
  {
    seq(|at|, j requires 0 <= j < |at| => OutcomeAt(parse, file, at[j]))
  }

  /** `e` is what parsing the sections at the given positions, one by one, comes to. */
  ghost predicate Agrees(parse: Parser, file: seq<Filed>, at: seq<nat>, e: Option<seq<Routine>>) {
    InFile(file, at) && Sums(Outcomes(parse, file, at), e)
  }

  lemma AgreesAppend(parse: Parser, file: seq<Filed>, p: seq<nat>, a: Option<seq<Routine>>, q: seq<nat>, b: Option<seq<Routine>>)
    requires Agrees(parse, file, p, a) && Agrees(parse, file, q, b)
    ensures Agrees(parse, file, p + q, if a.Some? && b.Some? then Some(a.value + b.value) else None)
  {
    assert Outcomes(parse, file, p + q) == Outcomes(parse, file, p) + Outcomes(parse, file, q);
    SumsAppend(Outcomes(parse, file, p), a, Outcomes(parse, file, q), b);
  }

  lemma PositionsOutcomes(parse: Parser, file: seq<Filed>, group: string, t: string)
    ensures var p := Positions(file, Key(group, Routines(t)));
            InFile(file, p) && Outcomes(parse, file, p) == Each(parse, t, Members(file, Key(group, Routines(t))))
  {
    var key := Key(group, Routines(t));
    var p := Positions(file, key);
    PositionsIs(file, key);
    assert forall a :: 0 <= a < |p| ==> p[a] in p;
    assert forall a :: 0 <= a < |p| ==> TypeAt(file, p[a]) == t && file[p[a]].section == Members(file, key)[a];
  }

  lemma BlockAgrees(parse: Parser, b: Buckets, file: seq<Filed>, group: string, t: string)
    requires Holds(group, b, file)
    ensures Agrees(parse, file, Positions(file, Key(group, Routines(t))), ParseAll(parse, t, Get(b.routines, t)))
  {
    PositionsOutcomes(parse, file, group, t);
    assert b.At(Routines(t)) == Members(file, Key(group, Routines(t)));
    ParseAllIs(parse, t, Get(b.routines, t));
  }

  lemma {:induction false} EmitAgrees(parse: Parser, b: Buckets, file: seq<Filed>, group: string, k: nat)
    requires Holds(group, b, file) && k <= |PARSERS|
    ensures Agrees(parse, file, Order(file, group, k), Emit(parse, b.routines, k))
  {
    if k > 0 {
      var t := PARSERS[k-1];
      EmitAgrees(parse, b, file, group, k - 1);
      BlockAgrees(parse, b, file, group, t);
      AgreesAppend(parse, file, Order(file, group, k - 1), Emit(parse, b.routines, k - 1),
                   Positions(file, Key(group, Routines(t))), ParseAll(parse, t, Get(b.routines, t)));
    }
  }

  lemma KnownTypesIff(b: Buckets, file: seq<Filed>, group: string)
    requires Holds(group, b, file)
    ensures KnownTypes(b.routines) <==> forall i :: IsRoutine(file, group, i) ==> Rank(TypeAt(file, i)) < |PARSERS|
  {
    forall i | IsRoutine(file, group, i)
      ensures TypeAt(file, i) in b.routines
    {
      var key := Key(group, Routines(TypeAt(file, i)));
      PositionsIs(file, key);
      assert i in Positions(file, key);
      assert b.At(key.slot) == Members(file, key) != [];
    }
    forall t | t in b.routines
      ensures exists i :: IsRoutine(file, group, i) && TypeAt(file, i) == t
    {
      var key := Key(group, Routines(t));
      PositionsIs(file, key);
      assert b.At(key.slot) == Members(file, key) != [];
      var i := Positions(file, key)[0];
      assert i in Positions(file, key);
      assert IsRoutine(file, group, i) && TypeAt(file, i) == t;
    }
    forall t ensures t in PARSERS <==> Rank(t) < |PARSERS| {
      if Rank(t) < |PARSERS| {
        RankIff(t, Rank(t));
      } else if t in PARSERS {
        var k :| 0 <= k < |PARSERS| && PARSERS[k] == t;
        RankIff(t, k);
      }
    }
  }

  /** Emission succeeds exactly when every routine section of the connection has a known type and parses. */
  predicate AllParse(parse: Parser, file: seq<Filed>, group: string) {
    forall i :: 0 <= i < |file| && IsRoutine(file, group, i) ==> Rank(TypeAt(file, i)) < |PARSERS| && ParsesAt(parse, file, i)
  }

  lemma AllParseIff(parse: Parser, file: seq<Filed>, group: string, o: seq<nat>)
    requires InFile(file, o) && forall i :: i in o <==> IsRoutine(file, group, i) && Rank(TypeAt(file, i)) < |PARSERS|
    requires forall i :: IsRoutine(file, group, i) ==> Rank(TypeAt(file, i)) < |PARSERS|
    ensures AllParse(parse, file, group) <==> forall j :: 0 <= j < |o| ==> Outcomes(parse, file, o)[j].Some?
  {
    if AllParse(parse, file, group) {
      assert forall j :: 0 <= j < |o| ==> o[j] in o && ParsesAt(parse, file, o[j]);
    } else {
      var i :| 0 <= i < |file| && IsRoutine(file, group, i) && !ParsesAt(parse, file, i);
      assert i in o;
      var j :| 0 <= j < |o| && o[j] == i;
      assert Outcomes(parse, file, o)[j].None?;
    }
  }

  lemma EmissionIsStableSort(parse: Parser, b: Buckets, file: seq<Filed>, group: string)
    requires Holds(group, b, file)
    ensures var e := if KnownTypes(b.routines) then Emit(parse, b.routines, |PARSERS|) else None;
            && (e.Some? <==> AllParse(parse, file, group))
            && (e.Some? ==> StableSorted(parse, file, group, Order(file, group, |PARSERS|), e.value))
  {
    var o := Order(file, group, |PARSERS|);
    EmitAgrees(parse, b, file, group, |PARSERS|);
    OrderIs(file, group, |PARSERS|);
    KnownTypesIff(b, file, group);
    assert forall j :: 0 <= j < |o| ==> o[j] in o;
    if KnownTypes(b.routines) {
      AllParseIff(parse, file, group, o);
    }
  }

  /** There is only one such list, so these clauses fix the emitted routines completely. */
  lemma StableSortIsUnique(parse: Parser, file: seq<Filed>, group: string, at: seq<nat>, rs: seq<Routine>, at': seq<nat>, rs': seq<Routine>)
    requires StableSorted(parse, file, group, at, rs) && StableSorted(parse, file, group, at', rs')
    ensures at == at' && rs == rs'
  {
    var less := (i: nat, j: nat) => Before(file, i, j);
    assert forall i :: i in at ==> IsRoutine(file, group, i);
    assert forall i :: i in at' ==> IsRoutine(file, group, i);
    SortedUnique(at, at', less);
  }

  /** The order of the section types, written out: of two emitted routines of known types the first has the earlier
      type, or the same type and the earlier section. */
  lemma {:induction false} EmittedInOrder(parse: Parser, file: seq<Filed>, group: string, at: seq<nat>, rs: seq<Routine>, a: nat, b: nat, x: nat, y: nat)
    requires StableSorted(parse, file, group, at, rs) && a < b < |at| && x < 7 && y < 7
    requires TypeAt(file, at[a]) == ["tcpclienttunnel", "stdiotunnel", "tcpservertunnel", "socks5", "http", "sni", "udpproxytunnel"][x]
    requires TypeAt(file, at[b]) == ["tcpclienttunnel", "stdiotunnel", "tcpservertunnel", "socks5", "http", "sni", "udpproxytunnel"][y]
    ensures x < y || (x == y && at[a] < at[b])
  {
    RankIff(TypeAt(file, at[a]), x);
    RankIff(TypeAt(file, at[b]), y);
    assert Before(file, at[a], at[b]);
  }

  // ----- parseConfigSource -----

  datatype Parsed = Parsed(name: string, routines: seq<Routine>)

  /** Parsing of the four structural buckets of a connection, interface, peer, tailscale and resolve sections, which may
      depend on the group's name too: only the unnamed group can get its interface from the root WGConfig key. */
  type Backend = (string, seq<Section>, seq<Section>, seq<Section>, seq<Section>) -> bool

  predicate BackendOk(backend: Backend, file: seq<Filed>, group: string) {
    backend(group, Members(file, Key(group, Interface)), Members(file, Key(group, Peer)),
            Members(file, Key(group, TailscaleNode)), Members(file, Key(group, Resolve)))
  }

  /** A group's own name, else the root Name key, else the stem of the file name; always sanitized. */
  function ConnName(group: string, rootName: Option<string>, stem: string): string {
    if group != "" then group
    else if rootName.Some? then Sanitize(rootName.value)
    else Sanitize(stem)
  }

  predicate GroupOk(backend: Backend, parse: Parser, file: seq<Filed>, group: string) {
    BackendOk(backend, file, group) && AllParse(parse, file, group)
  }

  /** The connection that a group of the file becomes. */
  ghost predicate IsConnection(spec: Parsed, parse: Parser, file: seq<Filed>, group: string, rootName: Option<string>, stem: string) {
    && spec.name == ConnName(group, rootName, stem)
    && StableSorted(parse, file, group, Order(file, group, |PARSERS|), spec.routines)
  }

  function FromBuckets(group: string, b: Buckets, backend: Backend, parse: Parser): Option<seq<Routine>> {
    if backend(group, b.iface, b.peers, b.tailscale, b.resolve) && KnownTypes(b.routines) then Emit(parse, b.routines, |PARSERS|) else None
  }

  lemma FromBucketsIs(b: Buckets, backend: Backend, parse: Parser, file: seq<Filed>, group: string)
    requires Holds(group, b, file)
    ensures FromBuckets(group, b, backend, parse).Some? <==> GroupOk(backend, parse, file, group)
    ensures FromBuckets(group, b, backend, parse).Some? ==>
              StableSorted(parse, file, group, Order(file, group, |PARSERS|), FromBuckets(group, b, backend, parse).value)
  {
    assert b.iface == b.At(Interface) && b.peers == b.At(Peer) && b.tailscale == b.At(TailscaleNode) && b.resolve == b.At(Resolve);
    EmissionIsStableSort(parse, b, file, group);
  }

  /** The body of the loop over the groups; `file` is the file the group was made from. */
  method ParseConnection(g: ConnGroup, rootName: Option<string>, stem: string, backend: Backend, parse: Parser, ghost file: seq<Filed>)
    returns (r: Option<Parsed>)
    requires (rootName.Some? ==> Sanitize(rootName.value) != "") && Holds(g.name, g.View(), file)
    ensures Becomes(r, backend, parse, file, g.name, rootName, stem)
  {
    FromBucketsIs(g.View(), backend, parse, file, g.name);
    if !backend(g.name, g.iface, g.peers, g.tailscale, g.resolve) {
      return None;
    }
    var routines := AppendRoutines(parse, g.routines);
    if routines.None? {
      return None;
    }
    var name := g.name;
    if name == "" {
      if rootName.Some? {
        name := Sanitize(rootName.value);
      } else {
        name := Sanitize(stem);
      }
    }
    return Some(Parsed(name, routines.value));
  }

  /** The result for one group of the file. */
  ghost predicate Becomes(r: Option<Parsed>, backend: Backend, parse: Parser, file: seq<Filed>, group: string, rootName: Option<string>, stem: string) {
    && (r.Some? <==> GroupOk(backend, parse, file, group))
    && (r.Some? ==> IsConnection(r.value, parse, file, group, rootName, stem))
  }

  method ParseConnections(groups: seq<ConnGroup>, rootName: Option<string>, stem: string, backend: Backend, parse: Parser, ghost file: seq<Filed>)
    returns (r: Option<seq<Parsed>>)
    requires (rootName.Some? ==> Sanitize(rootName.value) != "") && AllHold(groups, file)
    ensures r.Some? ==> |r.value| == |groups| && forall i :: 0 <= i < |groups| ==> Becomes(Some(r.value[i]), backend, parse, file, groups[i].name, rootName, stem)
    ensures r.None? ==> exists i :: 0 <= i < |groups| && !GroupOk(backend, parse, file, groups[i].name)
  {
    var specs: seq<Parsed> := [];
    for n := 0 to |groups|
      invariant |specs| == n
      invariant forall i :: 0 <= i < n ==> Becomes(Some(specs[i]), backend, parse, file, groups[i].name, rootName, stem)
    {
      var spec := ParseConnection(groups[n], rootName, stem, backend, parse, file);
      if spec.None? {
        return None;
      }
      specs := specs + [spec.value];
    }
    return Some(specs);
  }

  predicate SourceOk(sections: seq<Section>, rootName: Option<string>, backend: Backend, parse: Parser) {
    var names := GroupNames(FileAll(sections));
    && WellFormed(FileAll(sections))
    && (rootName.Some? ==> Sanitize(rootName.value) != "")
    && names != []
    && (forall i :: 0 <= i < |names| ==> GroupOk(backend, parse, FileAll(sections), names[i]))
  }

  lemma {:induction false} GroupNamesAreSanitized(file: seq<Filed>, g: string)
    requires g in GroupNames(file) && forall i :: 0 <= i < |file| ==> file[i] == FileOf(file[i].section)
    ensures g == "" || MatchesPattern(g)
  {
    var m := |file| - 1;
    if g in GroupNames(file[..m]) {
      GroupNamesAreSanitized(file[..m], g);
    } else {
      assert file[m] == FileOf(file[m].section);
      var cut := Text.Cut(file[m].section.name, '.');
      if cut.Some? {
        SanitizedMatches(cut.value.0);
      }
    }
  }

  /** On the names of parsed connections the pattern check of validation rejects exactly the empty one. */
  lemma PatternRejectsOnlyEmpty(sections: seq<Section>, rootName: Option<string>, stem: string, i: nat)
    requires i < |GroupNames(FileAll(sections))|
    ensures var n := ConnName(GroupNames(FileAll(sections))[i], rootName, stem); MatchesPattern(n) <==> n != ""
  {
    forall k | 0 <= k < |sections| ensures FileAll(sections)[k] == FileOf(sections[k]) {
      FileAllAt(sections, k);
    }
    GroupNamesAreSanitized(FileAll(sections), GroupNames(FileAll(sections))[i]);
    SanitizedMatches(stem);
    if rootName.Some? {
      SanitizedMatches(rootName.value);
    }
  }

  /** The part of the section name before the first dot sanitizes to nothing. */
  ghost predicate Nameless(name: string) {
    exists prefix, t :: Text.Lacks(prefix, '.') && name == prefix + ['.'] + t && Sanitize(prefix) == ""
  }

  /** A routine section of an unknown type, or one that does not parse. */
  predicate Unparsed(s: Section, parse: Parser) {
    var key := FileOf(s).key;
    && key.Some? && key.value.slot.Routines?
    && var t := key.value.slot.sectionType;
       || t !in ["tcpclienttunnel", "stdiotunnel", "tcpservertunnel", "socks5", "http", "sni", "udpproxytunnel"]
       || parse(t, s).None?
  }

  /** Why a file can be refused: a section without a connection name, an empty root name, no connection at all, a
      connection whose structural sections are not accepted, or a routine section that is unknown or does not parse. */
  ghost predicate Refused(sections: seq<Section>, rootName: Option<string>, backend: Backend, parse: Parser) {
    || (exists k :: 0 <= k < |sections| && Nameless(sections[k].name))
    || (rootName.Some? && Sanitize(rootName.value) == "")
    || (forall k :: 0 <= k < |sections| ==> IsRoot(sections[k].name))
    || (exists g :: g in GroupNames(FileAll(sections)) && !BackendOk(backend, FileAll(sections), g))
    || (exists k :: 0 <= k < |sections| && Unparsed(sections[k], parse))
  }

  lemma NamelessIff(s: Section)
    ensures Nameless(s.name) <==> Malformed(FileOf(s))
  {
    var cut := Text.Cut(s.name, '.');
    if Nameless(s.name) {
      var prefix, t :| Text.Lacks(prefix, '.') && s.name == prefix + ['.'] + t && Sanitize(prefix) == "";
      Text.CutIs(prefix, '.', t);
      assert s.name[|prefix|] == '.';
      DottedIsNotRoot(s.name);
    }
    if Malformed(FileOf(s)) {
      assert s.name == cut.value.0 + ['.'] + cut.value.1;
    }
  }

  lemma {:induction false} WellFormedIff(sections: seq<Section>)
    ensures WellFormed(FileAll(sections)) <==> forall k :: 0 <= k < |sections| ==> !Nameless(sections[k].name)
  {
    forall k | 0 <= k < |sections|
      ensures Malformed(FileAll(sections)[k]) <==> Nameless(sections[k].name)
    {
      FileAllAt(sections, k);
      NamelessIff(sections[k]);
    }
  }

  /** A connection is named exactly if some section belongs to it. */
  lemma {:induction false} NamedIff(file: seq<Filed>, g: string)
    ensures g in GroupNames(file) <==> exists k :: 0 <= k < |file| && Of(file[k], g)
  {
    GroupsByFirstAppearance(file);
    var r := FirstAt(file, g);
    assert r < |file| ==> Of(file[r], g);
  }

  lemma {:induction false} NoNamesIff(file: seq<Filed>)
    ensures GroupNames(file) == [] <==> forall k :: 0 <= k < |file| ==> file[k].key.None?
  {
    if k :| 0 <= k < |file| && file[k].key.Some? {
      NamedIff(file, file[k].key.value.group);
      assert Of(file[k], file[k].key.value.group);
    } else if GroupNames(file) != [] {
      NamedIff(file, GroupNames(file)[0]);
    }
  }

  lemma {:induction false} NoGroupsIff(sections: seq<Section>)
    requires WellFormed(FileAll(sections))
    ensures GroupNames(FileAll(sections)) == [] <==> forall k :: 0 <= k < |sections| ==> IsRoot(sections[k].name)
  {
    NoNamesIff(FileAll(sections));
    forall k | 0 <= k < |sections| ensures FileAll(sections)[k].key.None? <==> IsRoot(sections[k].name) {
      FileAllAt(sections, k);
      assert !Malformed(FileAll(sections)[k]);
    }
  }

  lemma KnownIff(t: string)
    ensures t in ["tcpclienttunnel", "stdiotunnel", "tcpservertunnel", "socks5", "http", "sni", "udpproxytunnel"] <==> Rank(t) < |PARSERS|
  {
    if Rank(t) < |PARSERS| {
      RankIff(t, Rank(t));
    } else if t in PARSERS {
      var k :| 0 <= k < |PARSERS| && PARSERS[k] == t;
      RankIff(t, k);
    }
  }

  lemma {:induction false} UnparsedIff(sections: seq<Section>, parse: Parser, k: nat, group: string)
    requires k < |sections| && IsRoutine(FileAll(sections), group, k)
    ensures Unparsed(sections[k], parse) <==>
              !(Rank(TypeAt(FileAll(sections), k)) < |PARSERS| && ParsesAt(parse, FileAll(sections), k))
  {
    FileAllAt(sections, k);
    KnownIff(TypeAt(FileAll(sections), k));
  }

  lemma {:induction false} AllParseEverywhere(sections: seq<Section>, parse: Parser)
    ensures (forall g :: g in GroupNames(FileAll(sections)) ==> AllParse(parse, FileAll(sections), g)) <==>
              forall k :: 0 <= k < |sections| ==> !Unparsed(sections[k], parse)
  {
    var file := FileAll(sections);
    if k :| 0 <= k < |sections| && Unparsed(sections[k], parse) {
      FileAllAt(sections, k);
      var g := file[k].key.value.group;
      assert Of(file[k], g) && IsRoutine(file, g, k);
      NamedIff(file, g);
      UnparsedIff(sections, parse, k, g);
      assert !AllParse(parse, file, g);
    }
    if g :| g in GroupNames(file) && !AllParse(parse, file, g) {
      var k :| 0 <= k < |file| && IsRoutine(file, g, k) && !(Rank(TypeAt(file, k)) < |PARSERS| && ParsesAt(parse, file, k));
      UnparsedIff(sections, parse, k, g);
    }
  }

  lemma {:induction false} RefusedIff(sections: seq<Section>, rootName: Option<string>, backend: Backend, parse: Parser)
    ensures SourceOk(sections, rootName, backend, parse) <==> !Refused(sections, rootName, backend, parse)
  {
    var names := GroupNames(FileAll(sections));
    WellFormedIff(sections);
    AllParseEverywhere(sections, parse);
    if WellFormed(FileAll(sections)) {
      NoGroupsIff(sections);
    }
    assert forall i :: 0 <= i < |names| ==> names[i] in names;
    assert (forall i :: 0 <= i < |names| ==> GroupOk(backend, parse, FileAll(sections), names[i])) <==>
           (forall g :: g in names ==> GroupOk(backend, parse, FileAll(sections), g));
  }

  /** A prefixed connection has the name of its group, whatever else is given. The unprefixed one has the root name,
      whatever the file is called, and without a root name that of the file; both as they are if they are clean, and
      always in their sanitized form. */
  predicate NamedAfter(name: string, group: string, rootName: Option<string>, stem: string) {
    && (group != "" ==> name == group)
    && (group == "" && rootName.Some? ==> name == Sanitize(rootName.value) && (IsClean(rootName.value) ==> name == rootName.value))
    && (group == "" && rootName.None? ==> name == Sanitize(stem) && (IsClean(stem) ==> name == stem))
  }

  lemma ConnNameIs(group: string, rootName: Option<string>, stem: string)
    ensures NamedAfter(ConnName(group, rootName, stem), group, rootName, stem)
  {
    SanitizeFixedPoints(stem);
    if rootName.Some? {
      SanitizeFixedPoints(rootName.value);
    }
  }

  /** One connection per group, in order of first appearance, or an error. */
  method ParseConfigSource(sections: seq<Section>, rootName: Option<string>, stem: string, backend: Backend, parse: Parser)
    returns (r: Option<seq<Parsed>>)
    ensures r.Some? <==> SourceOk(sections, rootName, backend, parse)
    ensures r.None? <==> Refused(sections, rootName, backend, parse)
    ensures r.Some? ==>
              var names := GroupNames(FileAll(sections));
              && |r.value| == |names|
              && forall i :: 0 <= i < |names| ==> IsConnection(r.value[i], parse, FileAll(sections), names[i], rootName, stem)
    ensures r.Some? ==> forall i :: 0 <= i < |r.value| ==> (MatchesPattern(r.value[i].name) <==> r.value[i].name != "")
    ensures r.Some? ==> forall i :: 0 <= i < |r.value| ==> NamedAfter(r.value[i].name, GroupNames(FileAll(sections))[i], rootName, stem)
  {
    RefusedIff(sections, rootName, backend, parse);
    var groups, err := SplitIntoGroups(sections);
    if err || (rootName.Some? && Sanitize(rootName.value) == "") {
      return None;
    }
    r := ParseConnections(groups, rootName, stem, backend, parse, FileAll(sections));
    if r == Some([]) {
      return None;
    }
    if r.Some? {
      forall i | 0 <= i < |r.value| ensures MatchesPattern(r.value[i].name) <==> r.value[i].name != "" {
        assert Becomes(Some(r.value[i]), backend, parse, FileAll(sections), groups[i].name, rootName, stem);
        PatternRejectsOnlyEmpty(sections, rootName, stem, i);
      }
      forall i | 0 <= i < |r.value| ensures NamedAfter(r.value[i].name, groups[i].name, rootName, stem) {
        assert Becomes(Some(r.value[i]), backend, parse, FileAll(sections), groups[i].name, rootName, stem);
        ConnNameIs(groups[i].name, rootName, stem);
      }
    }
  }
}
