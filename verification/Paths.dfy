/** filepath.Join and filepath.Clean on slash-separated paths. */
module Paths {
  import opened Text

  /** Drop empty and "." elements and let ".." take back the element before it. */
  function Resolve(elems: seq<string>, rooted: bool): seq<string> {
    if elems == [] then []
    else
      var m := |elems| - 1;
      var done := Resolve(elems[..m], rooted);
      if elems[m] == "" || elems[m] == "." then done
      else if elems[m] != ".." then done + [elems[m]]
      else if done != [] && done[|done|-1] != ".." then done[..|done|-1]
      else if rooted then done
      else done + [".."]
  }

  function WithSlash(elems: seq<string>): string {
    if elems == [] then "" else WithSlash(elems[..|elems|-1]) + elems[|elems|-1] + ['/']
  }

  function Slashed(elems: seq<string>): string {
    if elems == [] then "" else WithSlash(elems[..|elems|-1]) + elems[|elems|-1]
  }

  predicate IsRooted(path: string) {
    path != "" && path[0] == '/'
  }

  function Clean(path: string): string {
    var rooted := IsRooted(path);
    var text := Slashed(Resolve(Split(path, '/'), rooted));
    if rooted then "/" + text else if text == "" then "." else text
  }

  /** Leading empty elements do not count. */
  function Join(elems: seq<string>): string {
    if elems == [] then ""
    else if elems[0] == "" then Join(elems[1..])
    else Clean(Slashed(elems))
  }

  /** A path element that stands for a file of that name. */
  predicate IsName(s: string) {
    s != "" && s != "." && s != ".." && Lacks(s, '/')
  }

  lemma {:induction false} SplitAppend(a: string, sep: char, b: string)
    ensures Split(a + [sep] + b, sep) == Split(a, sep) + Split(b, sep)
    decreases |a|
  {
    var i := IndexOf(a, sep);
    if i < 0 {
      SplitFirst(a, sep, b);
    } else {
      assert a == a[..i] + [sep] + a[i+1..];
      SplitAppend(a[i+1..], sep, b);
      SplitAfter(a[..i], sep, a[i+1..], b);
    }
  }

  lemma SplitAfter(line: string, sep: char, tail: string, b: string)
    requires Lacks(line, sep) && Split(tail + [sep] + b, sep) == Split(tail, sep) + Split(b, sep)
    ensures Split(line + [sep] + tail + [sep] + b, sep) == Split(line + [sep] + tail, sep) + Split(b, sep)
  {
    assert line + [sep] + tail + [sep] + b == line + [sep] + (tail + [sep] + b);
    SplitFirst(line, sep, tail);
    SplitFirst(line, sep, tail + [sep] + b);
    AppendAssoc([line], Split(tail, sep), Split(b, sep));
  }

  lemma ResolveSnoc(elems: seq<string>, rooted: bool, name: string)
    requires IsName(name)
    ensures Resolve(elems + [name], rooted) == Resolve(elems, rooted) + [name]
  {
    assert (elems + [name])[..|elems|] == elems;
  }

  /** What Clean makes of a directory in front of a file name. */
  function Prefix(dir: string): string {
    var rooted := IsRooted(dir);
    (if rooted then "/" else "") + WithSlash(Resolve(Split(dir, '/'), rooted))
  }

  /** A tail that comes down to one more file name. */
  lemma CleanTail(dir: string, tail: string, name: string)
    requires dir != "" && name != ""
    requires Resolve(Split(dir, '/') + Split(tail, '/'), IsRooted(dir)) == Resolve(Split(dir, '/'), IsRooted(dir)) + [name]
    ensures Clean(dir + ['/'] + tail) == Prefix(dir) + name
  {
    SplitAppend(dir, '/', tail);
    var r := Resolve(Split(dir, '/'), IsRooted(dir));
    assert (r + [name])[..|r|] == r;
    AppendAssoc("/", WithSlash(r), name);
  }

  lemma CleanName(dir: string, name: string)
    requires dir != "" && IsName(name)
    ensures Clean(dir + ['/'] + name) == Prefix(dir) + name
  {
    assert Split(name, '/') == [name];
    ResolveSnoc(Split(dir, '/'), IsRooted(dir), name);
    CleanTail(dir, name, name);
  }

  lemma ResolveDotName(elems: seq<string>, rooted: bool, name: string)
    requires IsName(name)
    ensures Resolve(elems + [".", name], rooted) == Resolve(elems, rooted) + [name]
  {
    assert elems + [".", name] == (elems + ["."]) + [name];
    ResolveSnoc(elems + ["."], rooted, name);
    assert (elems + ["."])[..|elems|] == elems;
  }

  /** A leading "./" is cleaned away. */
  lemma CleanDotName(dir: string, name: string)
    requires dir != "" && IsName(name)
    ensures Clean(dir + ['/'] + ("." + ['/'] + name)) == Prefix(dir) + name
  {
    SplitFirst(".", '/', name);
    assert Split(name, '/') == [name];
    ResolveDotName(Split(dir, '/'), IsRooted(dir), name);
    assert ["."] + [name] == [".", name];
    CleanTail(dir, "." + ['/'] + name, name);
  }

  /** The directory that Join puts in front of the last element. */
  function DirOf(base: string, mid: string, sub: string): string {
    if base == "" then mid + ['/'] + sub else base + ['/'] + mid + ['/'] + sub
  }

  lemma JoinFour(base: string, mid: string, sub: string, last: string)
    requires mid != ""
    ensures Join([base, mid, sub, last]) == Clean(DirOf(base, mid, sub) + ['/'] + last)
  {
    var three, four := [mid, sub, last], [base, mid, sub, last];
    assert four[1..] == three;
    assert three[..2] == [mid, sub] && [mid, sub][..1] == [mid] && [mid][..0] == [];
    assert four[..3] == [base, mid, sub] && [base, mid, sub][..2] == [base, mid] && [base, mid][..1] == [base] && [base][..0] == [];
    assert WithSlash([mid]) == mid + ['/'];
    assert WithSlash([mid, sub]) == mid + ['/'] + sub + ['/'];
    assert WithSlash([base]) == base + ['/'];
    assert WithSlash([base, mid]) == base + ['/'] + mid + ['/'];
    assert WithSlash([base, mid, sub]) == base + ['/'] + mid + ['/'] + sub + ['/'];
  }
}
