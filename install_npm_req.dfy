/**
 * src/install_npm_req.ts: `InstallNpmRequirements`, which reads a provider's `npm_requirements`
 * file and installs each listed package that is not already a dependency.
 *
 * The three commands and the file read are inputs: what `npm list --depth=0 --json` printed (or
 * that it failed), the text of the requirements file (or that reading it failed), and whether
 * `npm install <name>@<version> --save-dev` succeeds for a given name and version. The model
 * records the installs it asks for, in order, and how the function ends.
 */
module NpmRequirements {
  import opened Wrappers
  import opened JsValues

  /** `npm install <name>@<version> --save-dev`, as asked for. */
  datatype Install = Install(name: string, version: string)

  /** How the function ends: it returns, it calls `process.exit`, or it throws. */
  datatype Ending = Completed | Exited(code: int) | Threw

  datatype NpmRun = NpmRun(installs: seq<Install>, ending: Ending)

  /** The run `r` preceded by the installs `xs`. */
  function Prepend(xs: seq<Install>, r: NpmRun): NpmRun {
    NpmRun(xs + r.installs, r.ending)
  }

  /** What `npm list --depth=0 --json` gave: a failure, or its output read by `JSON.parse`. */
  datatype Listing = ListFailed | Listed(json: Parsed)

  // ---------------------------------------------------------------------------------------------
  // Splitting the file into lines
  // ---------------------------------------------------------------------------------------------

  /** Index of the first '\n' of `s`, or `|s|`. */
  function LineEnd(s: string): (j: nat)
    ensures j <= |s|
    ensures forall i :: 0 <= i < j ==> s[i] != '\n'
    ensures j < |s| ==> s[j] == '\n'
  {
    if s == [] || s[0] == '\n' then 0 else 1 + LineEnd(s[1..])
  }

  /**
   * `s.split(/\r\n|\n/g)`: the leftmost separator is the first '\n', together with a '\r' just
   * before it when there is one.
   */
  function SplitLines(s: string): (r: seq<string>)
    ensures |r| >= 1
    ensures forall i :: 0 <= i < |r| ==> '\n' !in r[i]
    decreases |s|
  {
    var j := LineEnd(s);
    if j == |s| then [s]
    else
      var line := if j > 0 && s[j - 1] == '\r' then s[..j - 1] else s[..j];
      assert forall c :: c in line ==> c in s[..j];
      [line] + SplitLines(s[j + 1..])
  }

  /** The lines joined back with '\n'. */
  function JoinLines(ls: seq<string>): string
    requires |ls| >= 1
  {
    if |ls| == 1 then ls[0] else ls[0] + "\n" + JoinLines(ls[1..])
  }

  function NewlineCount(s: string): nat {
    if s == [] then 0 else (if s[0] == '\n' then 1 else 0) + NewlineCount(s[1..])
  }

  /** Counting newlines across a concatenation. */
  lemma {:induction false} NewlineCountAppend(a: string, b: string)
    ensures NewlineCount(a + b) == NewlineCount(a) + NewlineCount(b)
  {
    if a == [] {
      assert a + b == b;
    } else {
      assert (a + b)[0] == a[0] && (a + b)[1..] == a[1..] + b;
      NewlineCountAppend(a[1..], b);
    }
  }

  lemma {:induction false} NoNewlineCount(s: string)
    requires forall i :: 0 <= i < |s| ==> s[i] != '\n'
    ensures NewlineCount(s) == 0
  {
    if s != [] {
      NoNewlineCount(s[1..]);
    }
  }

  /** There is one more line than there are '\n' characters. */
  lemma {:induction false} LineCount(s: string)
    ensures |SplitLines(s)| == NewlineCount(s) + 1
    decreases |s|
  {
    var j := LineEnd(s);
    NoNewlineCount(s[..j]);
    if j < |s| {
      assert s == s[..j] + ([s[j]] + s[j + 1..]);
      NewlineCountAppend(s[..j], [s[j]] + s[j + 1..]);
      NewlineCountAppend([s[j]], s[j + 1..]);
      LineCount(s[j + 1..]);
    } else {
      assert s[..j] == s;
    }
  }

  /** Without '\r', splitting loses nothing: joining the lines gives the text back. */
  lemma {:induction false} SplitJoin(s: string)
    requires '\r' !in s
    ensures JoinLines(SplitLines(s)) == s
    decreases |s|
  {
    var j := LineEnd(s);
    if j < |s| {
      var rest := s[j + 1..];
      SplitFirstLine(s);
      var ls := SplitLines(s);
      assert |ls| >= 2 && ls[0] == s[..j] && ls[1..] == SplitLines(rest);
      SplitJoin(rest);
      assert JoinLines(ls) == s[..j] + "\n" + rest;
      assert s == s[..j] + "\n" + rest;
    } else {
      assert SplitLines(s) == [s];
    }
  }

  /** Without '\r', the first line is everything before the first '\n'. */
  lemma SplitFirstLine(s: string)
    requires '\r' !in s && LineEnd(s) < |s|
    ensures '\r' !in s[LineEnd(s) + 1..]
    ensures SplitLines(s) == [s[..LineEnd(s)]] + SplitLines(s[LineEnd(s) + 1..])
  {
    var j := LineEnd(s);
    assert j > 0 ==> s[j - 1] != '\r' by {
      if j > 0 {
        assert s[j - 1] in s;
      }
    }
    assert forall c :: c in s[j + 1..] ==> c in s;
  }

  // ---------------------------------------------------------------------------------------------
  // One line
  // ---------------------------------------------------------------------------------------------

  /**
   * What `String.prototype.trim` removes: the white space and line terminators of section
   * 12.2 and 12.3 of ECMA-262 (Unicode category Zs included).
   */
  predicate JsWhitespace(c: char) {
    var x := c as int;
    || x == 0x09 || x == 0x0B || x == 0x0C || x == 0x20 || x == 0xA0 || x == 0xFEFF
    || x == 0x1680 || (0x2000 <= x <= 0x200A) || x == 0x202F || x == 0x205F || x == 0x3000
    || x == 0x0A || x == 0x0D || x == 0x2028 || x == 0x2029
  }

  /** `line.trim() == ""`. */
  predicate Blank(line: string) {
    forall i :: 0 <= i < |line| ==> JsWhitespace(line[i])
  }

  /** `line.lastIndexOf("@")`. */
  function LastAt(s: string): (r: int)
    ensures -1 <= r < |s|
    ensures r == -1 <==> '@' !in s
    ensures r >= 0 ==> s[r] == '@' && '@' !in s[r + 1..]
  {
    if s == [] then -1
    else if s[|s| - 1] == '@' then |s| - 1
    else
      var r := LastAt(s[..|s| - 1]);
      assert s == s[..|s| - 1] + [s[|s| - 1]];
      if r >= 0 then
        assert s[r + 1..] == s[..|s| - 1][r + 1..] + [s[|s| - 1]];
        r
      else r
  }

  /** The characters the source strips: C0 controls, DEL and ``;&|`$<>(){}[]``. */
  predicate Forbidden(c: char) {
    || c as int < 0x20 || c as int == 0x7F
    || c == ';' || c == '&' || c == '|' || c == '`' || c == '$' || c == '<' || c == '>'
    || c == '(' || c == ')' || c == '{' || c == '}' || c == '[' || c == ']'
  }

  /** No forbidden character occurs in `s`. */
  predicate Clean(s: string) {
    forall i :: 0 <= i < |s| ==> !Forbidden(s[i])
  }

  lemma CleanAppend(a: string, b: string)
    requires Clean(a) && Clean(b)
    ensures Clean(a + b)
  {
    forall i | 0 <= i < |a + b|
      ensures !Forbidden((a + b)[i])
    {
      if i >= |a| {
        assert (a + b)[i] == b[i - |a|];
      }
    }
  }

  /** `replaceAll(/[\x00-\x1F\x7F;&|`$<>(){}[\]]/g, "")`. */
  function Sanitize(s: string): (r: string)
    ensures Clean(r) && |r| <= |s|
  {
    if s == [] then [] else (if Forbidden(s[0]) then [] else [s[0]]) + Sanitize(s[1..])
  }

  /** Sanitising works character by character: it maps concatenation to concatenation. */
  lemma {:induction false} SanitizeAppend(a: string, b: string)
    ensures Sanitize(a + b) == Sanitize(a) + Sanitize(b)
  {
    if a == [] {
      assert a + b == b;
    } else {
      var head: string := if Forbidden(a[0]) then [] else [a[0]];
      assert (a + b)[0] == a[0] && (a + b)[1..] == a[1..] + b;
      assert Sanitize(a + b) == head + Sanitize(a[1..] + b);
      SanitizeAppend(a[1..], b);
      assert head + (Sanitize(a[1..]) + Sanitize(b)) == (head + Sanitize(a[1..])) + Sanitize(b);
    }
  }

  /** A forbidden character is removed; any other character is kept as it is. */
  lemma SanitizeChar(c: char)
    ensures Sanitize([c]) == if Forbidden(c) then [] else [c]
  {
    assert [c][1..] == [];
  }

  /** A string free of forbidden characters is left unchanged. */
  lemma {:induction false} SanitizeClean(s: string)
    requires Clean(s)
    ensures Sanitize(s) == s
  {
    if s != [] {
      SanitizeClean(s[1..]);
    }
  }

  /** Sanitising twice is sanitising once. */
  lemma SanitizeIdempotent(s: string)
    ensures Sanitize(Sanitize(s)) == Sanitize(s)
  {
    SanitizeClean(Sanitize(s));
  }

  /** A requirement as the loop reads it, after sanitising. */
  datatype Requirement = Requirement(name: string, version: string)

  /**
   * Lines 63-77: split at the last '@', then sanitise both halves; a line with no '@' is
   * rejected.
   */
  function ParseLine(line: string): (r: Option<Requirement>)
    ensures r.None? <==> '@' !in line
  {
    var at := LastAt(line);
    if at == -1 then None else Some(Requirement(Sanitize(line[..at]), Sanitize(line[at + 1..])))
  }

  /**
   * The split is at the last '@': the version part holds no '@', and for a line without
   * forbidden characters the name, an '@' and the version rebuild the line.
   */
  lemma {:induction false} SplitAtLastAt(line: string)
    requires '@' in line
    ensures var at := LastAt(line); line == line[..at] + "@" + line[at + 1..] && '@' !in line[at + 1..]
    ensures Clean(line) ==> var r := ParseLine(line).value; r.name + "@" + r.version == line
  {
    var at := LastAt(line);
    assert line == line[..at] + "@" + line[at + 1..];
    if Clean(line) {
      assert Clean(line[..at]) by {
        forall i | 0 <= i < at ensures !Forbidden(line[..at][i]) {
          assert line[..at][i] == line[i];
        }
      }
      assert Clean(line[at + 1..]) by {
        var v := line[at + 1..];
        forall j | 0 <= j < |v| ensures !Forbidden(v[j]) {
          assert v[j] == line[at + 1 + j];
        }
      }
      SanitizeClean(line[..at]);
      SanitizeClean(line[at + 1..]);
    }
  }

  /**
   * Any clean name, '@' included as in `@scope/pkg`, and clean version without '@' are read back
   * from `name@version`.
   */
  lemma {:induction false} NameAtVersion(name: string, version: string)
    requires Clean(name) && Clean(version) && '@' !in version
    ensures ParseLine(name + "@" + version) == Some(Requirement(name, version))
  {
    var line := name + "@" + version;
    var at := LastAt(line);
    assert line[|name|] == '@';
    assert line[|name| + 1..] == version;
    assert at == |name|;
    assert line[..at] == name;
    SanitizeClean(name);
    SanitizeClean(version);
  }

  /** The command line the install runs. */
  function InstallCommand(name: string, version: string): string {
    "npm install " + name + "@" + version + " --save-dev"
  }

  /**
   * The command built from a parsed line holds none of the characters the source strips. Spaces,
   * quotes, backslashes and other characters a shell acts on are kept, so a line can still add flags.
   */
  lemma CommandIsClean(line: string)
    requires '@' in line
    ensures var r := ParseLine(line).value; Clean(InstallCommand(r.name, r.version))
  {
    var r := ParseLine(line).value;
    assert Clean("npm install ") && Clean("@") && Clean(" --save-dev");
    CleanAppend("npm install ", r.name);
    CleanAppend("npm install " + r.name, "@");
    CleanAppend("npm install " + r.name + "@", r.version);
    CleanAppend("npm install " + r.name + "@" + r.version, " --save-dev");
  }

  // ---------------------------------------------------------------------------------------------
  // The loop over lines
  // ---------------------------------------------------------------------------------------------

  /**
   * Lines 59-105 as a definition: blank lines and installed names are skipped, a line without
   * '@' or a failed install ends the process with exit code 1, and the rest are installed in
   * order. `installed` is never extended, so a package listed twice is installed twice.
   */
  function ProcessLines(lines: seq<string>, installed: set<string>, succeeds: (string, string) -> bool): (r: NpmRun)
    ensures r.ending == Completed || r.ending == Exited(1)
  {
    if lines == [] then NpmRun([], Completed)
    else HandleLine(lines[0], ProcessLines(lines[1..], installed, succeeds), installed, succeeds)
  }

  /** One iteration of the loop, followed by the run `rest` of the later lines. */
  function HandleLine(line: string, rest: NpmRun, installed: set<string>, succeeds: (string, string) -> bool): NpmRun {
    if Blank(line) then rest
    else
      match ParseLine(line)
      case None => NpmRun([], Exited(1))
      case Some(req) =>
        if req.name in installed then rest
        else if !succeeds(req.name, req.version) then NpmRun([Install(req.name, req.version)], Exited(1))
        else Prepend([Install(req.name, req.version)], rest)
  }

  lemma PrependTwice(xs: seq<Install>, ys: seq<Install>, r: NpmRun)
    ensures Prepend(xs, Prepend(ys, r)) == Prepend(xs + ys, r)
  {
    assert xs + (ys + r.installs) == (xs + ys) + r.installs;
  }

  /**
   * Lines are handled in order, and the first failure ends the run: the lines after it are never
   * looked at.
   */
  lemma {:induction false} ProcessConcat(a: seq<string>, b: seq<string>, installed: set<string>,
                                         succeeds: (string, string) -> bool)
    ensures var ra := ProcessLines(a, installed, succeeds);
            ProcessLines(a + b, installed, succeeds) ==
              if ra.ending == Completed then Prepend(ra.installs, ProcessLines(b, installed, succeeds))
              else ra
  {
    if a == [] {
      assert a + b == b;
    } else {
      assert (a + b)[0] == a[0] && (a + b)[1..] == a[1..] + b;
      ProcessConcat(a[1..], b, installed, succeeds);
    }
  }

  /**
   * Every install asked for is of a name not already installed, with name and version free of
   * forbidden characters.
   */
  lemma {:induction false} InstallsAreNewAndClean(lines: seq<string>, installed: set<string>,
                                                  succeeds: (string, string) -> bool)
    ensures forall x :: x in ProcessLines(lines, installed, succeeds).installs ==>
              x.name !in installed && Clean(x.name) && Clean(x.version)
  {
    if lines != [] {
      InstallsAreNewAndClean(lines[1..], installed, succeeds);
    }
  }

  /** The run ends with `process.exit(1)` exactly when some line fails. */
  predicate LineFails(line: string, installed: set<string>, succeeds: (string, string) -> bool) {
    !Blank(line) &&
    match ParseLine(line)
    case None => true
    case Some(req) => req.name !in installed && !succeeds(req.name, req.version)
  }

  lemma {:induction false} ExitsIffSomeLineFails(lines: seq<string>, installed: set<string>,
                                                 succeeds: (string, string) -> bool)
    ensures ProcessLines(lines, installed, succeeds).ending == Exited(1) <==>
              exists i :: 0 <= i < |lines| && LineFails(lines[i], installed, succeeds)
  {
    if lines != [] {
      ExitsIffSomeLineFails(lines[1..], installed, succeeds);
      if LineFails(lines[0], installed, succeeds) {
        assert LineFails(lines[0], installed, succeeds);
      } else {
        if exists i :: 0 <= i < |lines| && LineFails(lines[i], installed, succeeds) {
          var i :| 0 <= i < |lines| && LineFails(lines[i], installed, succeeds);
          assert lines[1..][i - 1] == lines[i];
        }
        if exists i :: 0 <= i < |lines[1..]| && LineFails(lines[1..][i], installed, succeeds) {
          var i :| 0 <= i < |lines[1..]| && LineFails(lines[1..][i], installed, succeeds);
          assert lines[i + 1] == lines[1..][i];
        }
      }
    }
  }

  /** The loop at lines 59-105: `installedDeps.includes`, `continue`, and `process.exit(1)`. */
  method InstallLines(lines: seq<string>, installedDeps: seq<string>, succeeds: (string, string) -> bool)
    returns (r: NpmRun)
    ensures r == ProcessLines(lines, (set n | n in installedDeps), succeeds)
  {
    ghost var installed := set n | n in installedDeps;
    var installs: seq<Install> := [];
    var i := 0;
    while i < |lines|
      invariant 0 <= i <= |lines|
      invariant ProcessLines(lines, installed, succeeds) ==
                Prepend(installs, ProcessLines(lines[i..], installed, succeeds))
    {
      var line := lines[i];
      ghost var later := ProcessLines(lines[i + 1..], installed, succeeds);
      assert lines[i..][0] == line && lines[i..][1..] == lines[i + 1..];
      assert ProcessLines(lines[i..], installed, succeeds) == HandleLine(line, later, installed, succeeds);
      if Blank(line) {
        i := i + 1;
        continue;
      }
      var at := LastAt(line);
      if at == -1 {
        return NpmRun(installs, Exited(1));
      }
      var packageName := Sanitize(line[..at]);
      var packageVersion := Sanitize(line[at + 1..]);
      if packageName in installedDeps {
        i := i + 1;
        continue;
      }
      if !succeeds(packageName, packageVersion) {
        return NpmRun(installs + [Install(packageName, packageVersion)], Exited(1));
      }
      PrependTwice(installs, [Install(packageName, packageVersion)], later);
      installs := installs + [Install(packageName, packageVersion)];
      i := i + 1;
    }
    assert lines[i..] == [];
    assert installs + [] == installs;
    r := NpmRun(installs, Completed);
  }

  // ---------------------------------------------------------------------------------------------
  // The installed dependencies and the whole function
  // ---------------------------------------------------------------------------------------------

  /**
   * The keys `Object.entries(installedDepsJson["dependencies"])` yields: reading a property of
   * null or undefined, or taking the entries of either, throws (None); an object gives its own
   * keys, a string or an array its indices, and anything else none.
   */
  function DependencyKeys(listing: JsValue): (r: Option<set<string>>)
    ensures r.None? <==> IsNullish(listing) || IsNullish(Member(listing, "dependencies").value)
  {
    match Member(listing, "dependencies")
    case None => None
    case Some(deps) =>
      match deps
      case JUndefined => None
      case JNull => None
      case JObj(fields) => Some(fields.Keys)
      case JStr(s) => Some(set i | 0 <= i < |s| :: Decimal(i))
      case JArr(a) => Some(set i | 0 <= i < |a| :: Decimal(i))
      case _ => Some({})
  }

  /** The entries loop of lines 50-55, over the keys of an object in some order. */
  method ObjectKeys(fields: map<string, JsValue>) returns (keys: seq<string>)
    ensures forall k :: k in keys <==> k in fields
    ensures forall i, j :: 0 <= i < j < |keys| ==> keys[i] != keys[j]
  {
    keys := [];
    var rest := fields.Keys;
    while rest != {}
      invariant forall k :: k in fields <==> k in keys || k in rest
      invariant forall k :: k in keys ==> k !in rest
      invariant forall i, j :: 0 <= i < j < |keys| ==> keys[i] != keys[j]
      decreases |rest|
    {
      var k :| k in rest;
      keys := keys + [k];
      rest := rest - {k};
    }
  }

  /** The entries loop of lines 50-55, over the indices of a string or an array. */
  method IndexKeys(n: nat) returns (keys: seq<string>)
    ensures |keys| == n
    ensures forall i :: 0 <= i < n ==> keys[i] == Decimal(i)
  {
    keys := [];
    for i := 0 to n
      invariant |keys| == i
      invariant forall j :: 0 <= j < i ==> keys[j] == Decimal(j)
    {
      keys := keys + [Decimal(i)];
    }
  }

  /** `installedDeps` after lines 50-55, or None when they throw. */
  method InstalledDeps(listing: JsValue) returns (r: Option<seq<string>>)
    ensures r.None? <==> DependencyKeys(listing).None?
    ensures r.Some? ==> (set n | n in r.value) == DependencyKeys(listing).value
  {
    var deps := Member(listing, "dependencies");
    if deps.None? || IsNullish(deps.value) {
      return None;
    }
    match deps.value
    case JObj(fields) =>
      var keys := ObjectKeys(fields);
      r := Some(keys);
    case JStr(s) =>
      var keys := IndexKeys(|s|);
      r := Some(keys);
    case JArr(a) =>
      var keys := IndexKeys(|a|);
      r := Some(keys);
    case _ =>
      r := Some([]);
  }

  /**
   * `InstallNpmRequirements`: a failed listing, unparsable listing or unreadable file exits with
   * code 1; dependencies that cannot be enumerated throw; otherwise the lines are processed.
   */
  function Run(listing: Listing, requirements: Option<string>, succeeds: (string, string) -> bool): (r: NpmRun)
    ensures (listing.ListFailed? || listing.json.Unparsable? || requirements.None?) ==> r == NpmRun([], Exited(1))
  {
    if listing.ListFailed? || listing.json.Unparsable? || requirements.None? then NpmRun([], Exited(1))
    else
      match DependencyKeys(listing.json.value)
      case None => NpmRun([], Threw)
      case Some(installed) => ProcessLines(SplitLines(requirements.value), installed, succeeds)
  }

  method InstallNpmRequirements(listing: Listing, requirements: Option<string>, succeeds: (string, string) -> bool)
    returns (r: NpmRun)
    ensures r == Run(listing, requirements, succeeds)
  {
    if listing.ListFailed? || listing.json.Unparsable? || requirements.None? {
      return NpmRun([], Exited(1));
    }
    var installedDeps := InstalledDeps(listing.json.value);
    if installedDeps.None? {
      return NpmRun([], Threw);
    }
    var lines := SplitLines(requirements.value);
    r := InstallLines(lines, installedDeps.value, succeeds);
  }
}
