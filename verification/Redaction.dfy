/** writeRedactedIpc: the device dump of /metrics with its keys hidden. */
module Redaction {
  import opened Wrappers
  import opened Text

  const REDACTED := "REDACTED"

  predicate IsSecret(key: string) {
    key == "private_key" || key == "preshared_key"
  }

  /** A key=value line with the value of a secret key replaced. */
  function Hide(key: string, value: string): string {
    key + ['='] + (if IsSecret(key) then REDACTED else value)
  }

  /** What is written for one line of the dump: lines without '=' lose their newline. */
  function Written(line: string): string {
    match Cut(line, '=')
    case None => line
    case Some((key, value)) => Hide(key, value) + ['\n']
  }

  function WrittenAll(lines: seq<string>): string {
    if lines == [] then "" else Written(lines[0]) + WrittenAll(lines[1..])
  }

  function Redact(ipc: string): string {
    WrittenAll(Split(ipc, '\n'))
  }

  lemma {:induction false} WrittenSnoc(lines: seq<string>, line: string)
    ensures WrittenAll(lines + [line]) == WrittenAll(lines) + Written(line)
  {
    if lines == [] {
      assert lines + [line] == [line];
    } else {
      assert (lines + [line])[1..] == lines[1..] + [line];
      WrittenSnoc(lines[1..], line);
    }
  }

  lemma WrittenNext(lines: seq<string>, n: nat)
    requires n < |lines|
    ensures WrittenAll(lines[..n+1]) == WrittenAll(lines[..n]) + Written(lines[n])
  {
    WrittenSnoc(lines[..n], lines[n]);
    assert lines[..n] + [lines[n]] == lines[..n+1];
  }

  /** The body of the loop over the lines. */
  method WriteLine(buf: string, line: string) returns (buf': string)
    ensures buf' == buf + Written(line)
  {
    match Cut(line, '=')
    case None =>
      buf' := buf + line;
    case Some((key, value)) =>
      var shown := value;
      if key == "private_key" || key == "preshared_key" {
        shown := REDACTED;
      }
      buf' := buf + (key + ['='] + shown + ['\n']);
  }

  /** writeRedactedIpc appends to the buffer it is given. */
  method WriteRedactedIpc(buf: string, ipc: string) returns (buf': string)
    ensures buf' == buf + Redact(ipc)
  {
    var lines := Split(ipc, '\n');
    buf' := buf;
    for n := 0 to |lines|
      invariant buf' == buf + WrittenAll(lines[..n])
    {
      buf' := WriteLine(buf', lines[n]);
      AppendAssoc(buf, WrittenAll(lines[..n]), Written(lines[n]));
      WrittenNext(lines, n);
    }
    assert lines[..|lines|] == lines;
  }

  // ----- The output does not depend on the secrets -----

  /** The two lines differ at most in the value of a secret key. */
  predicate SameButSecret(a: string, b: string) {
    a == b || (Cut(a, '=').Some? && Cut(b, '=').Some? && Cut(a, '=').value.0 == Cut(b, '=').value.0 && IsSecret(Cut(a, '=').value.0))
  }

  predicate SameButSecrets(a: seq<string>, b: seq<string>) {
    |a| == |b| && forall i :: 0 <= i < |a| ==> SameButSecret(a[i], b[i])
  }

  lemma {:induction false} WrittenIgnoresSecrets(a: seq<string>, b: seq<string>)
    requires SameButSecrets(a, b)
    ensures WrittenAll(a) == WrittenAll(b)
  {
    if a != [] {
      assert SameButSecret(a[0], b[0]);
      WrittenIgnoresSecrets(a[1..], b[1..]);
    }
  }

  /** Dumps that differ only in the values of secret keys are redacted to the same text. */
  lemma SecretsDoNotMatter(a: string, b: string)
    requires SameButSecrets(Split(a, '\n'), Split(b, '\n'))
    ensures Redact(a) == Redact(b)
  {
    WrittenIgnoresSecrets(Split(a, '\n'), Split(b, '\n'));
  }

  // ----- The shape of the output -----

  /** A key=value line of the dump together with the text of the lines without '=' that run into it. */
  datatype Glued = Glued(run: string, key: string, value: string)

  /** The key=value lines of a dump, each with the run of other lines before it, and the run left at the end. */
  function Glue(lines: seq<string>, run: string): (seq<Glued>, string) {
    if lines == [] then ([], run)
    else match Cut(lines[0], '=')
         case None => Glue(lines[1..], run + lines[0])
         case Some((key, value)) =>
           var (gs, rest) := Glue(lines[1..], "");
           ([Glued(run, key, value)] + gs, rest)
  }

  function LineOf(g: Glued): string {
    g.run + Hide(g.key, g.value)
  }

  function LinesOf(gs: seq<Glued>): (r: seq<string>)
    ensures |r| == |gs| && forall i :: 0 <= i < |r| ==> r[i] == LineOf(gs[i])
  {
    seq(|gs|, i requires 0 <= i < |gs| => LineOf(gs[i]))
  }

  predicate Plain(s: string) {
    Lacks(s, '=') && Lacks(s, '\n')
  }

  predicate GluedOk(g: Glued) {
    Plain(g.run) && Plain(g.key) && Lacks(g.value, '\n')
  }

  /** The output is the glued lines, each redacted by its own key, and the run left at the end. */
  lemma {:induction false} GlueIsOutput(lines: seq<string>, run: string)
    ensures run + WrittenAll(lines) == Unlines(LinesOf(Glue(lines, run).0)) + Glue(lines, run).1
  {
    if lines != [] {
      match Cut(lines[0], '=') {
        case None =>
          GlueIsOutput(lines[1..], run + lines[0]);
          AppendAssoc(run, lines[0], WrittenAll(lines[1..]));
        case Some((key, value)) =>
          var (gs, rest) := Glue(lines[1..], "");
          GlueIsOutput(lines[1..], "");
          assert "" + WrittenAll(lines[1..]) == WrittenAll(lines[1..]);
          GlueStep(run, key, value, gs, rest);
      }
    }
  }

  lemma GlueStep(run: string, key: string, value: string, gs: seq<Glued>, rest: string)
    ensures run + (Hide(key, value) + ['\n'] + (Unlines(LinesOf(gs)) + rest)) == Unlines(LinesOf([Glued(run, key, value)] + gs)) + rest
  {
    var g := Glued(run, key, value);
    var h, u := Hide(key, value), Unlines(LinesOf(gs));
    assert LinesOf([g] + gs) == [LineOf(g)] + LinesOf(gs);
    assert LinesOf([g] + gs)[1..] == LinesOf(gs);
    assert Unlines(LinesOf([g] + gs)) == run + h + ['\n'] + u;
  }

  lemma {:induction false} GlueIsPlain(lines: seq<string>, run: string)
    requires Plain(run) && forall i :: 0 <= i < |lines| ==> Lacks(lines[i], '\n')
    ensures Plain(Glue(lines, run).1) && forall i :: 0 <= i < |Glue(lines, run).0| ==> GluedOk(Glue(lines, run).0[i])
  {
    if lines != [] {
      assert Lacks(lines[0], '\n');
      match Cut(lines[0], '=') {
        case None =>
          GlueIsPlain(lines[1..], run + lines[0]);
        case Some((key, value)) =>
          GlueIsPlain(lines[1..], "");
      }
    }
  }

  function Lines(ipc: string): seq<string> {
    Split(ipc, '\n')
  }

  function Parts(ipc: string): seq<Glued> {
    Glue(Lines(ipc), "").0
  }

  function Rest(ipc: string): string {
    Glue(Lines(ipc), "").1
  }

  lemma PartsOk(ipc: string)
    ensures Plain(Rest(ipc)) && forall i :: 0 <= i < |Parts(ipc)| ==> GluedOk(Parts(ipc)[i])
  {
    forall i | 0 <= i < |Lines(ipc)| ensures Lacks(Lines(ipc)[i], '\n') {
      SplitParts(ipc, '\n', i);
    }
    GlueIsPlain(Lines(ipc), "");
  }

  /** What is shown as the value of a glued line. */
  function Shown(g: Glued): string {
    if IsSecret(g.key) then REDACTED else g.value
  }

  lemma GluedLine(g: Glued)
    requires GluedOk(g)
    ensures Cut(LineOf(g), '=') == Some((g.run + g.key, Shown(g))) && Lacks(LineOf(g), '\n')
  {
    assert LineOf(g) == (g.run + g.key) + ['='] + Shown(g);
    CutIs(g.run + g.key, '=', Shown(g));
  }

  /** The lines of the redacted dump. */
  lemma RedactedLines(ipc: string)
    ensures Redact(ipc) == Unlines(LinesOf(Parts(ipc))) + Rest(ipc)
    ensures Lines(Redact(ipc)) == LinesOf(Parts(ipc)) + [Rest(ipc)]
  {
    var gs, rest := Parts(ipc), Rest(ipc);
    PartsOk(ipc);
    GlueIsOutput(Lines(ipc), "");
    assert "" + WrittenAll(Lines(ipc)) == Redact(ipc);
    forall l | l in LinesOf(gs) ensures Lacks(l, '\n') {
      var i :| 0 <= i < |gs| && LinesOf(gs)[i] == l;
      GluedLine(gs[i]);
    }
    SplitUnlines(LinesOf(gs), rest);
    assert Split(rest, '\n') == [rest];
  }

  /** A line that only becomes a secret one because lines without '=' were glued in front of it. */
  predicate Exposed(g: Glued) {
    IsSecret(g.run + g.key) && !IsSecret(g.key) && g.value != REDACTED
  }

  predicate Exposing(ipc: string) {
    AnyExposed(Parts(ipc))
  }

  predicate LineHides(line: string) {
    Cut(line, '=').Some? && IsSecret(Cut(line, '=').value.0) ==> Cut(line, '=').value.1 == REDACTED
  }

  predicate AllHide(lines: seq<string>) {
    forall i :: 0 <= i < |lines| ==> LineHides(lines[i])
  }

  /** No line of the text shows the value of a secret key. */
  predicate HidesSecrets(text: string) {
    AllHide(Lines(text))
  }

  lemma AllHideSnoc(lines: seq<string>, last: string)
    requires '=' !in last
    ensures AllHide(lines + [last]) <==> AllHide(lines)
  {
    var more := lines + [last];
    assert forall i :: 0 <= i < |lines| ==> more[i] == lines[i];
  }

  lemma GluedLineHides(g: Glued)
    requires GluedOk(g)
    ensures LineHides(LineOf(g)) <==> !Exposed(g)
  {
    GluedLine(g);
  }

  predicate AnyExposed(gs: seq<Glued>) {
    exists i :: 0 <= i < |gs| && Exposed(gs[i])
  }

  lemma GluedLinesHide(gs: seq<Glued>)
    requires forall i :: 0 <= i < |gs| ==> GluedOk(gs[i])
    ensures AllHide(LinesOf(gs)) <==> !AnyExposed(gs)
  {
    var lines := LinesOf(gs);
    forall i | 0 <= i < |gs| ensures LineHides(lines[i]) <==> !Exposed(gs[i]) {
      GluedLineHides(gs[i]);
    }
  }

  /** The redacted dump hides every secret exactly when no stray line turns a key into a secret one. */
  lemma RedactHidesIff(ipc: string)
    ensures HidesSecrets(Redact(ipc)) <==> !Exposing(ipc)
  {
    PartsOk(ipc);
    RedactedLines(ipc);
    AllHideSnoc(LinesOf(Parts(ipc)), Rest(ipc));
    GluedLinesHide(Parts(ipc));
  }

  // ----- Dumps of key=value lines -----

  /** Every line is empty or has a '='; what follows the last newline may be anything. */
  predicate KeyValueLines(lines: seq<string>) {
    forall i :: 0 <= i < |lines| - 1 ==> lines[i] == "" || '=' in lines[i]
  }

  lemma {:induction false} NoRuns(lines: seq<string>)
    requires KeyValueLines(lines)
    ensures forall i :: 0 <= i < |Glue(lines, "").0| ==> Glue(lines, "").0[i].run == ""
  {
    if |lines| > 1 {
      NoRuns(lines[1..]);
      assert "" + lines[0] == lines[0];
    } else if |lines| == 1 {
      assert lines[1..] == [];
    }
  }

  /** Such a dump has nothing for stray lines to expose, so all its secrets are hidden. */
  lemma DumpHidesSecrets(ipc: string)
    requires KeyValueLines(Lines(ipc))
    ensures !Exposing(ipc) && HidesSecrets(Redact(ipc))
  {
    NoRuns(Lines(ipc));
    forall i | 0 <= i < |Parts(ipc)| ensures !Exposed(Parts(ipc)[i]) {
      var g := Parts(ipc)[i];
      assert g.run + g.key == g.key;
    }
    RedactHidesIff(ipc);
  }

  /** The key=value lines of a dump, in order, each as it is shown. */
  function ShownLines(lines: seq<string>): seq<string> {
    if lines == [] then []
    else match Cut(lines[0], '=')
         case None => ShownLines(lines[1..])
         case Some((key, value)) => [Hide(key, value)] + ShownLines(lines[1..])
  }

  lemma LinesOfCons(g: Glued, gs: seq<Glued>)
    ensures LinesOf([g] + gs) == [LineOf(g)] + LinesOf(gs)
  {}

  lemma {:induction false} GlueShows(lines: seq<string>)
    requires forall i :: 0 <= i < |lines| ==> lines[i] == "" || '=' in lines[i]
    ensures LinesOf(Glue(lines, "").0) == ShownLines(lines) && Glue(lines, "").1 == ""
  {
    if lines != [] {
      GlueShows(lines[1..]);
      match Cut(lines[0], '=') {
        case None =>
          assert "" + lines[0] == "";
        case Some((key, value)) =>
          LinesOfCons(Glued("", key, value), Glue(lines[1..], "").0);
          assert LineOf(Glued("", key, value)) == Hide(key, value);
      }
    }
  }

  /** The redacted dump is its key=value lines in their order, only the secret values replaced. */
  lemma DumpKeepsLines(ipc: string)
    requires forall i :: 0 <= i < |Lines(ipc)| ==> Lines(ipc)[i] == "" || '=' in Lines(ipc)[i]
    ensures Lines(Redact(ipc)) == ShownLines(Lines(ipc)) + [""]
  {
    GlueShows(Lines(ipc));
    RedactedLines(ipc);
  }

  // ----- Redacting twice -----

  lemma {:induction false} HidingLinesAreFixed(lines: seq<string>)
    requires forall i :: 0 <= i < |lines| ==> '=' in lines[i] && LineHides(lines[i])
    ensures WrittenAll(lines) == Unlines(lines)
  {
    if lines != [] {
      HidingLinesAreFixed(lines[1..]);
      var key, value := Cut(lines[0], '=').value.0, Cut(lines[0], '=').value.1;
      assert Hide(key, value) == lines[0];
    }
  }

  lemma RedactedIsKeyValue(ipc: string)
    ensures KeyValueLines(Lines(Redact(ipc)))
    ensures forall i :: 0 <= i < |Parts(ipc)| ==> '=' in LinesOf(Parts(ipc))[i]
  {
    var gs := Parts(ipc);
    PartsOk(ipc);
    RedactedLines(ipc);
    forall i | 0 <= i < |gs| ensures '=' in LinesOf(gs)[i] {
      GluedLine(gs[i]);
    }
  }

  lemma HiddenIsFixed(ipc: string)
    requires !Exposing(ipc)
    ensures Redact(Redact(ipc)) == Redact(ipc)
  {
    var lines := LinesOf(Parts(ipc));
    PartsOk(ipc);
    GluedLinesHide(Parts(ipc));
    RedactedIsKeyValue(ipc);
    RedactedLines(ipc);
    HidingLinesAreFixed(lines);
    WrittenSnoc(lines, Rest(ipc));
  }

  /** Redacting is idempotent exactly on the dumps it does not expose. */
  lemma RedactTwiceIff(ipc: string)
    ensures Redact(Redact(ipc)) == Redact(ipc) <==> !Exposing(ipc)
  {
    RedactedIsKeyValue(ipc);
    DumpHidesSecrets(Redact(ipc));
    RedactHidesIff(ipc);
    if !Exposing(ipc) {
      HiddenIsFixed(ipc);
    }
  }

  lemma GlueTwo(run: string, key: string, value: string)
    requires Plain(run) && Plain(key)
    ensures Glue([run, key + ['='] + value], "").0 == [Glued(run, key, value)]
  {
    var line := key + ['='] + value;
    CutIs(key, '=', value);
    assert [run, line][1..] == [line] && [line][1..] == [];
    assert "" + run == run;
    assert Glue([line], run).0 == [Glued(run, key, value)];
  }

  /** A line without '=' can complete the name of a secret key, and then its value is shown. */
  lemma StrayLineExposes(run: string, key: string, value: string)
    requires Plain(run) && Plain(key) && Lacks(value, '\n')
    requires IsSecret(run + key) && !IsSecret(key) && value != REDACTED
    ensures !HidesSecrets(Redact(run + ['\n'] + (key + ['='] + value)))
  {
    var line := key + ['='] + value;
    var ipc := run + ['\n'] + line;
    SplitFirst(run, '\n', line);
    assert Split(line, '\n') == [line];
    assert Lines(ipc) == [run, line];
    GlueTwo(run, key, value);
    assert Exposed(Parts(ipc)[0]);
    RedactHidesIff(ipc);
  }

  // ----- The keys, written out -----

  /** The lines that are not empty, in order. */
  function Filled(lines: seq<string>): seq<string> {
    if lines == [] then [] else (if lines[0] == "" then [] else [lines[0]]) + Filled(lines[1..])
  }

  /** How a line is to be shown. */
  predicate ShownAs(line: string, shown: string) {
    if "private_key=" <= line then shown == "private_key=REDACTED"
    else if "preshared_key=" <= line then shown == "preshared_key=REDACTED"
    else shown == line
  }

  lemma CutAfter(key: string, line: string)
    requires Lacks(key, '=') && key + ['='] <= line
    ensures Cut(line, '=') == Some((key, line[|key|+1..]))
  {
    CutIs(key, '=', line[|key|+1..]);
    assert line == key + ['='] + line[|key|+1..];
  }

  lemma CutBefore(line: string)
    requires Cut(line, '=').Some?
    ensures Cut(line, '=').value.0 + ['='] <= line && line == Cut(line, '=').value.0 + ['='] + Cut(line, '=').value.1
  {}

  lemma KeyTexts()
    ensures "private_key" + ['='] == "private_key=" && "preshared_key" + ['='] == "preshared_key="
    ensures "private_key=" + "REDACTED" == "private_key=REDACTED" && "preshared_key=" + "REDACTED" == "preshared_key=REDACTED"
  {}

  lemma ShownIs(line: string)
    requires Cut(line, '=').Some?
    ensures ShownAs(line, Hide(Cut(line, '=').value.0, Cut(line, '=').value.1))
  {
    KeyTexts();
    CutBefore(line);
    if "private_key=" <= line {
      CutAfter("private_key", line);
    } else if "preshared_key=" <= line {
      CutAfter("preshared_key", line);
    }
  }

  /** Line by line. */
  predicate AllShownAs(lines: seq<string>, shown: seq<string>) {
    |lines| == |shown| && forall i :: 0 <= i < |lines| ==> ShownAs(lines[i], shown[i])
  }

  lemma ShownCons(x: string, y: string, lines: seq<string>, shown: seq<string>)
    requires ShownAs(x, y) && AllShownAs(lines, shown)
    ensures AllShownAs([x] + lines, [y] + shown)
  {
    var a, b := [x] + lines, [y] + shown;
    forall i | 0 <= i < |a| ensures ShownAs(a[i], b[i]) {
      if i > 0 {
        assert a[i] == lines[i-1] && b[i] == shown[i-1];
      }
    }
  }

  lemma {:induction false} FilledShown(lines: seq<string>)
    requires forall i :: 0 <= i < |lines| ==> lines[i] == "" || '=' in lines[i]
    ensures AllShownAs(Filled(lines), ShownLines(lines))
  {
    if lines != [] {
      FilledShown(lines[1..]);
      if lines[0] != "" {
        ShownIs(lines[0]);
        ShownCons(lines[0], Hide(Cut(lines[0], '=').value.0, Cut(lines[0], '=').value.1), Filled(lines[1..]), ShownLines(lines[1..]));
      }
    }
  }

  /** The redaction of a dump of key=value lines has the lines of the dump in their places, except that every line that
      begins with "private_key=" or "preshared_key=" ends in REDACTED instead of the key. Empty lines are dropped. */
  lemma DumpIsShown(ipc: string)
    requires forall i :: 0 <= i < |Lines(ipc)| ==> Lines(ipc)[i] == "" || '=' in Lines(ipc)[i]
    ensures |Lines(Redact(ipc))| == |Filled(Lines(ipc))| + 1 && Lines(Redact(ipc))[|Filled(Lines(ipc))|] == ""
    ensures forall i :: 0 <= i < |Filled(Lines(ipc))| ==> ShownAs(Filled(Lines(ipc))[i], Lines(Redact(ipc))[i])
  {
    DumpKeepsLines(ipc);
    FilledShown(Lines(ipc));
  }

  /** The lines are the same, or they begin with the same one of the two key texts. */
  predicate SameBeforeKey(a: string, b: string) {
    || a == b
    || ("private_key=" <= a && "private_key=" <= b)
    || ("preshared_key=" <= a && "preshared_key=" <= b)
  }

  lemma SameBeforeKeyIs(a: string, b: string)
    requires SameBeforeKey(a, b)
    ensures SameButSecret(a, b)
  {
    KeyTexts();
    if "private_key=" <= a && "private_key=" <= b {
      CutAfter("private_key", a);
      CutAfter("private_key", b);
    } else if "preshared_key=" <= a && "preshared_key=" <= b {
      CutAfter("preshared_key", a);
      CutAfter("preshared_key", b);
    }
  }

  /** Any two dumps that differ only after "private_key=" or "preshared_key=" are redacted alike. */
  lemma KeysDoNotMatter(a: string, b: string)
    requires |Lines(a)| == |Lines(b)| && forall i :: 0 <= i < |Lines(a)| ==> SameBeforeKey(Lines(a)[i], Lines(b)[i])
    ensures Redact(a) == Redact(b)
  {
    forall i | 0 <= i < |Lines(a)| ensures SameButSecret(Lines(a)[i], Lines(b)[i]) {
      SameBeforeKeyIs(Lines(a)[i], Lines(b)[i]);
    }
    SecretsDoNotMatter(a, b);
  }
}
