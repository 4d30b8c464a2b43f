/** Grouping configuration sections into connections: a stable partition of the file. */
module Grouping {
  import opened Wrappers
  import opened Text
  import opened Names

  /** A named ini section; names are lower case already. */
  datatype Section = Section(name: string, body: string)

  /** Where a group keeps a section of a given type. */
  datatype Slot = Interface | Peer | TailscaleNode | Resolve | Routines(sectionType: string)

  datatype Key = Key(group: string, slot: Slot)

  /** The section types that are not routines. */
  const STRUCTURAL: seq<(string, Slot)> :=
    [("interface", Interface), ("peer", Peer), ("tailscale", TailscaleNode), ("resolve", Resolve)]

  function SlotIn(sectionType: string, table: seq<(string, Slot)>): Slot {
    if table == [] then Routines(sectionType)
    else if table[0].0 == sectionType then table[0].1
    else SlotIn(sectionType, table[1..])
  }

  function SlotOf(sectionType: string): Slot {
    SlotIn(sectionType, STRUCTURAL)
  }

  /** The DEFAULT section, which holds root keys. */
  predicate IsRoot(name: string) {
    name == "" || EqualFold(name, "default")
  }

  /** strings.EqualFold against a lower-case word. */
  predicate EqualFold(name: string, word: string) {
    |name| == |word| && (name == [] || (Lower(name[0]) == word[0] && EqualFold(name[1..], word[1..])))
  }

  /** The connection and slot a section name stands for; None when the connection name sanitizes to nothing. */
  function KeyOf(name: string): Option<Key> {
    match Cut(name, '.')
    case None => Some(Key("", SlotOf(name)))
    case Some((prefix, rest)) =>
      if Sanitize(prefix) == "" then None else Some(Key(Sanitize(prefix), SlotOf(rest)))
  }

  /** A section with the key it is filed under; the root section has none, and neither has a malformed one. */
  datatype Filed = Filed(key: Option<Key>, root: bool, section: Section)

  function FileOf(s: Section): Filed {
    Filed(if IsRoot(s.name) then None else KeyOf(s.name), IsRoot(s.name), s)
  }

  function FileAll(sections: seq<Section>): (r: seq<Filed>)
    ensures |r| == |sections|
  {
    if sections == [] then [] else FileAll(sections[..|sections|-1]) + [FileOf(sections[|sections|-1])]
  }

  lemma {:induction false} FileAllAt(sections: seq<Section>, i: nat)
    requires i < |sections|
    ensures FileAll(sections)[i] == FileOf(sections[i])
  {
    if i < |sections| - 1 {
      FileAllAt(sections[..|sections|-1], i);
    }
  }

  predicate Malformed(f: Filed) {
    f.key.None? && !f.root
  }

  predicate WellFormed(file: seq<Filed>) {
    forall i :: 0 <= i < |file| ==> !Malformed(file[i])
  }

  // ----- The partition -----

  /** The connections in the order in which they first appear. */
  function GroupNames(file: seq<Filed>): seq<string> {
    if file == [] then []
    else
      var names, last := GroupNames(file[..|file|-1]), file[|file|-1];
      if last.key.None? || last.key.value.group in names then names else names + [last.key.value.group]
  }

  /** The sections filed under the key, in file order. */
  function Members(file: seq<Filed>, key: Key): seq<Section> {
    if file == [] then []
    else
      var n := |file| - 1;
      Members(file[..n], key) + if file[n].key == Some(key) then [file[n].section] else []
  }

  /** Their positions in the file. */
  function Positions(file: seq<Filed>, key: Key): seq<nat> {
    if file == [] then []
    else
      var n := |file| - 1;
      Positions(file[..n], key) + if file[n].key == Some(key) then [n] else []
  }

  // ----- The loop of splitIntoGroups -----

  function Get(m: map<string, seq<Section>>, t: string): seq<Section> {
    if t in m then m[t] else []
  }

  /** The sections of one connection, by slot. */
  datatype Buckets = Buckets(
    iface: seq<Section>,
    peers: seq<Section>,
    tailscale: seq<Section>,
    resolve: seq<Section>,
    routines: map<string, seq<Section>>)
  {
    function At(slot: Slot): seq<Section> {
      match slot
      case Interface => iface
      case Peer => peers
      case TailscaleNode => tailscale
      case Resolve => resolve
      case Routines(t) => Get(routines, t)
    }
  }

  class ConnGroup {
    const name: string
    var iface: seq<Section>
    var peers: seq<Section>
    var tailscale: seq<Section>
    var resolve: seq<Section>
    var routines: map<string, seq<Section>>

    ghost function View(): Buckets
      reads this
    {
      Buckets(iface, peers, tailscale, resolve, routines)
    }

    constructor (name: string)
      ensures this.name == name && View() == Buckets([], [], [], [], map[])
    {
      this.name := name;
      iface, peers, tailscale, resolve, routines := [], [], [], [], map[];
    }

    method Add(slot: Slot, section: Section)
      modifies this
      ensures Extends(old(View()), View(), slot, section)
    {
      match slot
      case Interface => iface := iface + [section];
      case Peer => peers := peers + [section];
      case TailscaleNode => tailscale := tailscale + [section];
      case Resolve => resolve := resolve + [section];
      case Routines(t) => routines := routines[t := Get(routines, t) + [section]];
    }
  }

  /** b' is b with the section appended to one slot and to no other. */
  ghost predicate Extends(b: Buckets, b': Buckets, slot: Slot, section: Section) {
    && (forall u :: b'.At(u) == b.At(u) + if u == slot then [section] else [])
    && b'.routines.Keys == b.routines.Keys + if slot.Routines? then {slot.sectionType} else {}
  }

  /** The buckets hold, for every slot, exactly the connection's own sections of the file, in file order. */
  ghost predicate Holds(name: string, b: Buckets, file: seq<Filed>) {
    && (forall slot :: b.At(slot) == Members(file, Key(name, slot)))
    && (forall t :: t in b.routines ==> b.At(Routines(t)) != [])
  }

  lemma HoldsMore(name: string, b: Buckets, b': Buckets, file: seq<Filed>, key: Key, section: Section)
    requires Holds(name, b, file)
    requires if name == key.group then Extends(b, b', key.slot, section) else b' == b
    ensures Holds(name, b', file + [Filed(Some(key), false, section)])
  {
    FileOneMore(file, Filed(Some(key), false, section));
    var file' := file + [Filed(Some(key), false, section)];
    forall slot ensures b'.At(slot) == Members(file', Key(name, slot)) {
      assert b'.At(slot) == b.At(slot) + if Key(name, slot) == key then [section] else [];
    }
  }

  /** `groups` carry the given names, and the index finds each of them. */
  ghost predicate Indexed(groups: seq<ConnGroup>, byName: map<string, ConnGroup>, names: seq<string>) {
    && |groups| == |names|
    && (forall i :: 0 <= i < |groups| ==> groups[i].name == names[i])
    && (forall i :: 0 <= i < |groups| ==> names[i] in byName && byName[names[i]] == groups[i])
    && (forall g :: g in byName ==> g in names)
  }

  ghost predicate AllHold(groups: seq<ConnGroup>, file: seq<Filed>)
    reads groups
  {
    forall i :: 0 <= i < |groups| ==> Holds(groups[i].name, groups[i].View(), file)
  }

  lemma NewGroupHolds(name: string, file: seq<Filed>)
    requires name !in GroupNames(file)
    ensures Holds(name, Buckets([], [], [], [], map[]), file)
  {
    forall slot ensures Members(file, Key(name, slot)) == [] {
      AbsentIsEmpty(file, Key(name, slot));
    }
  }

  /** Find the group of that name or make a new one at the end. */
  method GroupFor(groups: seq<ConnGroup>, byName: map<string, ConnGroup>, name: string, ghost file: seq<Filed>)
    returns (g: ConnGroup, groups': seq<ConnGroup>, byName': map<string, ConnGroup>)
    requires Indexed(groups, byName, GroupNames(file)) && AllHold(groups, file)
    ensures g in groups' && forall i :: 0 <= i < |groups'| ==> groups'[i] in groups || fresh(groups'[i])
    ensures groups' == if name in GroupNames(file) then groups else groups + [g]
    ensures Indexed(groups', byName', if name in GroupNames(file) then GroupNames(file) else GroupNames(file) + [name])
    ensures AllHold(groups', file)
    ensures forall i :: 0 <= i < |groups'| ==> (groups'[i].name == name <==> groups'[i] == g)
  {
    if name in byName {
      g, groups', byName' := byName[name], groups, byName;
    } else {
      g := new ConnGroup(name);
      byName' := byName[name := g];
      groups' := groups + [g];
      NewGroupHolds(name, file);
    }
  }

  lemma {:induction false} AbsentIsEmpty(file: seq<Filed>, key: Key)
    requires key.group !in GroupNames(file)
    ensures Members(file, key) == []
  {
    if file != [] {
      AbsentIsEmpty(file[..|file|-1], key);
    }
  }

  lemma FileOneMore(file: seq<Filed>, f: Filed)
    ensures forall key :: Members(file + [f], key) == Members(file, key) + if f.key == Some(key) then [f.section] else []
    ensures GroupNames(file + [f]) ==
            if f.key.None? || f.key.value.group in GroupNames(file) then GroupNames(file) else GroupNames(file) + [f.key.value.group]
  {
    assert (file + [f])[..|file|] == file;
  }

  method AddTo(g: ConnGroup, key: Key, section: Section, groups: seq<ConnGroup>, ghost file: seq<Filed>)
    requires AllHold(groups, file)
    requires forall i :: 0 <= i < |groups| ==> (groups[i].name == key.group <==> groups[i] == g)
    modifies g
    ensures AllHold(groups, file + [Filed(Some(key), false, section)])
  {
    g.Add(key.slot, section);
    forall i | 0 <= i < |groups| ensures Holds(groups[i].name, groups[i].View(), file + [Filed(Some(key), false, section)]) {
      HoldsMore(groups[i].name, old(groups[i].View()), groups[i].View(), file, key, section);
    }
  }

  /** Find or make the group of the section and put the section into its slot. */
  method FileSection(key: Key, section: Section, groups: seq<ConnGroup>, byName: map<string, ConnGroup>, ghost file: seq<Filed>)
    returns (groups': seq<ConnGroup>, byName': map<string, ConnGroup>)
    requires Indexed(groups, byName, GroupNames(file)) && AllHold(groups, file)
    modifies groups
    ensures Indexed(groups', byName', GroupNames(file + [Filed(Some(key), false, section)]))
    ensures AllHold(groups', file + [Filed(Some(key), false, section)])
    ensures forall i :: 0 <= i < |groups'| ==> groups'[i] in groups || fresh(groups'[i])
  {
    var g;
    FileOneMore(file, Filed(Some(key), false, section));
    g, groups', byName' := GroupFor(groups, byName, key.group, file);
    AddTo(g, key, section, groups', file);
  }

  lemma RootChangesNothing(groups: seq<ConnGroup>, file: seq<Filed>, root: Filed)
    requires root.key.None? && AllHold(groups, file)
    ensures AllHold(groups, file + [root]) && GroupNames(file + [root]) == GroupNames(file)
  {
    FileOneMore(file, root);
  }

  /** The body of the loop over the sections. */
  method FileNext(section: Section, groups: seq<ConnGroup>, byName: map<string, ConnGroup>, ghost file: seq<Filed>)
    returns (groups': seq<ConnGroup>, byName': map<string, ConnGroup>, err: bool)
    requires Indexed(groups, byName, GroupNames(file)) && AllHold(groups, file)
    modifies groups
    ensures err <==> Malformed(FileOf(section))
    ensures !err ==> Indexed(groups', byName', GroupNames(file + [FileOf(section)])) && AllHold(groups', file + [FileOf(section)])
    ensures !err ==> forall i :: 0 <= i < |groups'| ==> groups'[i] in groups || fresh(groups'[i])
  {
    groups', byName', err := groups, byName, false;
    if IsRoot(section.name) {
      RootChangesNothing(groups, file, FileOf(section));
      return;
    }
    var key := KeyOf(section.name);
    if key.None? {
      err := true;
      return;
    }
    groups', byName' := FileSection(key.value, section, groups, byName, file);
  }

  lemma FileAllNext(sections: seq<Section>, n: nat)
    requires n < |sections|
    ensures FileAll(sections[..n+1]) == FileAll(sections[..n]) + [FileOf(sections[n])]
  {
    assert sections[..n+1][..n] == sections[..n];
  }

  method SplitIntoGroups(sections: seq<Section>) returns (groups: seq<ConnGroup>, err: bool)
    ensures err <==> !WellFormed(FileAll(sections))
    ensures !err ==> |groups| == |GroupNames(FileAll(sections))|
    ensures !err ==> forall i :: 0 <= i < |groups| ==> fresh(groups[i]) && groups[i].name == GroupNames(FileAll(sections))[i]
    ensures !err ==> AllHold(groups, FileAll(sections))
  {
    groups, err := [], false;
    var byName: map<string, ConnGroup> := map[];
    ghost var file: seq<Filed> := [];
    for n := 0 to |sections|
      invariant !err && file == FileAll(sections[..n]) && WellFormed(file)
      invariant Indexed(groups, byName, GroupNames(file)) && AllHold(groups, file)
      invariant forall i :: 0 <= i < |groups| ==> fresh(groups[i])
    {
      groups, byName, err := FileNext(sections[n], groups, byName, file);
      if err {
        FileAllAt(sections, n);
        return;
      }
      FileAllNext(sections, n);
      file := file + [FileOf(sections[n])];
    }
    assert sections[..|sections|] == sections;
  }

  // ----- First-appearance order -----

  predicate Of(f: Filed, group: string) {
    f.key.Some? && f.key.value.group == group
  }

  /** The position of the first section of a connection, or the length of the file. */
  function FirstAt(file: seq<Filed>, group: string): (r: nat)
    ensures r <= |file| && (r < |file| ==> Of(file[r], group))
    ensures forall i :: 0 <= i < r ==> !Of(file[i], group)
  {
    if file == [] || Of(file[0], group) then 0
    else
      var r := FirstAt(file[1..], group);
      assert forall i :: 1 <= i < r + 1 ==> file[i] == file[1..][i-1];
      r + 1
  }

  lemma FirstAtPrefix(file: seq<Filed>, n: nat, group: string)
    requires n <= |file| && FirstAt(file[..n], group) < n
    ensures FirstAt(file, group) == FirstAt(file[..n], group)
  {
    var r := FirstAt(file[..n], group);
    assert Of(file[r], group) && forall i :: 0 <= i < r ==> file[i] == file[..n][i];
  }

  lemma FirstAtSnoc(file: seq<Filed>, n: nat, g: string)
    requires |file| == n + 1
    ensures FirstAt(file, g) == if FirstAt(file[..n], g) < n then FirstAt(file[..n], g) else if Of(file[n], g) then n else n + 1
  {
    if FirstAt(file[..n], g) < n {
      FirstAtPrefix(file, n, g);
    } else {
      assert forall i :: 0 <= i < n ==> file[i] == file[..n][i];
    }
  }

  /** The names are those with a first position below n, in the order of these positions. */
  ghost predicate ByFirst(names: seq<string>, first: string -> nat, n: nat) {
    && (forall g :: g in names <==> first(g) < n)
    && (forall a, b :: 0 <= a < b < |names| ==> first(names[a]) < first(names[b]))
  }

  lemma {:induction false} ByFirstSnoc(names: seq<string>, first: string -> nat, first': string -> nat, n: nat, last: Option<string>)
    requires ByFirst(names, first, n)
    requires forall g :: first'(g) == if first(g) < n then first(g) else if last == Some(g) then n else n + 1
    ensures ByFirst(if last.None? || last.value in names then names else names + [last.value], first', n + 1)
  {
    assert forall a :: 0 <= a < |names| ==> names[a] in names && first'(names[a]) == first(names[a]);
  }

  function GroupOf(f: Filed): Option<string> {
    if f.key.None? then None else Some(f.key.value.group)
  }

  lemma {:induction false} GroupsByFirst(file: seq<Filed>)
    ensures ByFirst(GroupNames(file), g => FirstAt(file, g), |file|)
  {
    if file != [] {
      var n := |file| - 1;
      GroupsByFirst(file[..n]);
      forall g ensures FirstAt(file, g) == if FirstAt(file[..n], g) < n then FirstAt(file[..n], g) else if GroupOf(file[n]) == Some(g) then n else n + 1 {
        FirstAtSnoc(file, n, g);
      }
      ByFirstSnoc(GroupNames(file[..n]), g => FirstAt(file[..n], g), g => FirstAt(file, g), n, GroupOf(file[n]));
    }
  }

  /** The connections are exactly the ones named in the file, each once, in the order of their first sections. */
  lemma {:induction false} GroupsByFirstAppearance(file: seq<Filed>)
    ensures var names := GroupNames(file);
            && (forall g :: g in names <==> FirstAt(file, g) < |file|)
            && (forall a, b :: 0 <= a < b < |names| ==> FirstAt(file, names[a]) < FirstAt(file, names[b]))
  {
    GroupsByFirst(file);
    var first := (g: string) => FirstAt(file, g);
    assert forall g :: first(g) == FirstAt(file, g);
  }

  // ----- Section names as they are written -----

  lemma {:induction false} EqualFoldIff(name: string, word: string)
    ensures EqualFold(name, word) <==> |name| == |word| && forall i :: 0 <= i < |name| ==> Lower(name[i]) == word[i]
  {
    if |name| == |word| && name != [] {
      EqualFoldIff(name[1..], word[1..]);
      assert forall i :: 1 <= i < |name| ==> name[i] == name[1..][i-1] && word[i] == word[1..][i-1];
    }
  }

  lemma DottedIsNotRoot(name: string)
    requires '.' in name
    ensures !IsRoot(name)
  {
    EqualFoldIff(name, "default");
    if |name| == |"default"| {
      var i :| 0 <= i < |name| && name[i] == '.';
      assert "default"[i] != '.';
    }
  }

  lemma SlotTexts(t: string)
    ensures SlotOf("interface") == Interface && SlotOf("peer") == Peer
    ensures SlotOf("tailscale") == TailscaleNode && SlotOf("resolve") == Resolve
    ensures t !in ["interface", "peer", "tailscale", "resolve"] ==> SlotOf(t) == Routines(t)
  {
    var a, b, c, d := STRUCTURAL, STRUCTURAL[1..], STRUCTURAL[2..], STRUCTURAL[3..];
    assert a[1..] == b && b[1..] == c && c[1..] == d && d[1..] == [];
    assert "peer"[0] != "interface"[0] && "tailscale"[0] != "interface"[0] && "resolve"[0] != "interface"[0];
    assert "tailscale"[0] != "peer"[0] && "resolve"[0] != "peer"[0] && "resolve"[0] != "tailscale"[0];
    if t !in ["interface", "peer", "tailscale", "resolve"] {
      assert SlotIn(t, d) == Routines(t);
      assert SlotIn(t, c) == Routines(t);
      assert SlotIn(t, b) == Routines(t);
    }
  }

  /** A section [group.type] with a clean group name belongs to that connection, whatever follows the first dot. */
  lemma DottedSection(group: string, t: string, body: string)
    requires Lacks(group, '.') && IsClean(group) && group != ""
    ensures FileOf(Section(group + ['.'] + t, body)).key == Some(Key(group, SlotOf(t)))
  {
    CutIs(group, '.', t);
    SanitizeFixedPoints(group);
    assert (group + ['.'] + t)[|group|] == '.';
    DottedIsNotRoot(group + ['.'] + t);
  }

  /** A section [type] belongs to the unnamed connection; the DEFAULT section, in any case, to none. */
  lemma PlainSection(t: string, body: string)
    requires Lacks(t, '.')
    ensures FileOf(Section(t, body)).key == if IsRoot(t) then None else Some(Key("", SlotOf(t)))
    ensures FileOf(Section(t, body)).root <==> t == "" || (|t| == |"default"| && forall i :: 0 <= i < |t| ==> Lower(t[i]) == "default"[i])
  {
    EqualFoldIff(t, "default");
  }
}
