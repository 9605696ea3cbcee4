/** Editor detection for `plandex models custom`: detectEditors in
    app/cli/cmd/models.go. A fixed list of well-known editor launchers is
    checked against PATH; when the JetBrains universal launcher `jb` is on
    PATH the per-IDE JetBrains launchers are dropped unless preferred; the
    commands named by VISUAL and EDITOR are added when missing; preferred
    entries are moved to the front and at most five are kept.

    PATH lookup is the predicate `onPath`; the command names parsed from
    VISUAL and EDITOR are the sequence `pref`, in the (unspecified) order a
    Go map iteration visits them. */
module Editors {
  import opened Common

  datatype EditorCandidate = EditorCandidate(name: string, cmd: string, args: seq<string>, isJetBrains: bool)

  const MaxEditorOpts: nat := 5

  /** The universal JetBrains launcher. */
  const JbCmd: string := "jb"

  function Plain(name: string, cmd: string): EditorCandidate {
    EditorCandidate(name, cmd, [], false)
  }

  function JetBrains(name: string, cmd: string): EditorCandidate {
    EditorCandidate(name, cmd, [], true)
  }

  /** Popular non-JetBrains launchers, tried first. */
  const Popular: seq<EditorCandidate> := [
    Plain("VS Code", "code"),
    Plain("Cursor", "cursor"),
    Plain("Zed", "zed"),
    Plain("Neovim", "nvim")]

  /** The JetBrains IDE-specific launchers. */
  const PerIde: seq<EditorCandidate> := [
    JetBrains("IntelliJ IDEA", "idea"),
    JetBrains("GoLand", "goland"),
    JetBrains("PyCharm", "pycharm"),
    JetBrains("CLion", "clion"),
    JetBrains("WebStorm", "webstorm"),
    JetBrains("PhpStorm", "phpstorm"),
    JetBrains("DataGrip", "datagrip"),
    JetBrains("RubyMine", "rubymine"),
    JetBrains("Rider", "rider"),
    JetBrains("DataSpell", "dataspell")]

  /** The universal JetBrains launcher, itself marked JetBrains. */
  const JbLauncher: EditorCandidate := EditorCandidate("JetBrains (jb)", JbCmd, ["open"], true)

  /** Terminal and other editors, tried last. */
  const Others: seq<EditorCandidate> := [
    Plain("Vim", "vim"),
    Plain("Nano", "nano"),
    Plain("Helix", "hx"),
    Plain("Micro", "micro"),
    Plain("Sublime Text", "subl"),
    Plain("TextMate", "mate"),
    Plain("Kakoune", "kak"),
    Plain("Emacs", "emacs"),
    Plain("Kate", "kate")]

  /** The launchers tried, in order. */
  const Guess: seq<EditorCandidate> := Popular + PerIde + [JbLauncher] + Others

  /** The commands of a candidate list, in order. */
  function Cmds(cs: seq<EditorCandidate>): (r: seq<string>)
    ensures |r| == |cs| && forall i :: 0 <= i < |cs| ==> r[i] == cs[i].cmd
  {
    seq(|cs|, i requires 0 <= i < |cs| => cs[i].cmd)
  }

  /** No command appears twice. */
  ghost predicate DistinctCmds(cs: seq<EditorCandidate>) {
    forall i, j :: 0 <= i < j < |cs| ==> cs[i].cmd != cs[j].cmd
  }

  /** The preferred commands are a duplicate-free enumeration of at most
      two names (VISUAL's and EDITOR's). */
  ghost predicate PrefKeys(pref: seq<string>) {
    |pref| <= 2 && forall i, j :: 0 <= i < j < |pref| ==> pref[i] != pref[j]
  }

  // ----- Specification -----

  /** A guessed launcher is kept when it is on PATH, except a JetBrains
      launcher that is not preferred while `jb` is on PATH. */
  predicate Keep(c: EditorCandidate, onPath: string -> bool, pref: seq<string>, jb: bool) {
    onPath(c.cmd) && !(jb && c.isJetBrains && c.cmd !in pref)
  }

  function Keeper(onPath: string -> bool, pref: seq<string>): EditorCandidate -> bool {
    c => Keep(c, onPath, pref, onPath(JbCmd))
  }

  function Scanned(onPath: string -> bool, pref: seq<string>): seq<EditorCandidate> {
    Filter(Guess, Keeper(onPath, pref))
  }

  /** A bare candidate for a preferred command not in the list. */
  function Bare(cmd: string): EditorCandidate {
    EditorCandidate(cmd, cmd, [], false)
  }

  /** The preferred commands on PATH appended, in `pref` order, unless an
      entry with that command is already there. */
  function AppendPreferred(found: seq<EditorCandidate>, pref: seq<string>, onPath: string -> bool): seq<EditorCandidate> {
    if |pref| == 0 then found
    else
      var f := AppendPreferred(found, pref[..|pref| - 1], onPath);
      var cmd := pref[|pref| - 1];
      if onPath(cmd) && cmd !in Cmds(f) then f + [Bare(cmd)] else f
  }

  /** The stable sort by "is preferred", preferred first: a stable
      partition. */
  function PreferredFirst(found: seq<EditorCandidate>, pref: seq<string>): seq<EditorCandidate> {
    Filter(found, IsPreferred(pref)) + Filter(found, NotPreferred(pref))
  }

  function IsPreferred(pref: seq<string>): EditorCandidate -> bool {
    (c: EditorCandidate) => c.cmd in pref
  }

  function NotPreferred(pref: seq<string>): EditorCandidate -> bool {
    (c: EditorCandidate) => c.cmd !in pref
  }

  function Truncate(found: seq<EditorCandidate>): (r: seq<EditorCandidate>)
    ensures |r| <= MaxEditorOpts
  {
    if |found| > MaxEditorOpts then found[..MaxEditorOpts] else found
  }

  /** The candidates before the final truncation. */
  function Candidates(onPath: string -> bool, pref: seq<string>): seq<EditorCandidate> {
    PreferredFirst(AppendPreferred(Scanned(onPath, pref), pref, onPath), pref)
  }

  function EditorsSpec(onPath: string -> bool, pref: seq<string>): seq<EditorCandidate> {
    Truncate(Candidates(onPath, pref))
  }

  // ----- The method -----

  /** Whether some entry of `found` has command `cmd`, as the inner loop
      with `break` decides it. */
  method Listed(found: seq<EditorCandidate>, cmd: string) returns (already: bool)
    ensures already <==> cmd in Cmds(found)
  {
    already := false;
    var i := 0;
    while i < |found|
      invariant 0 <= i <= |found|
      invariant !already && cmd !in Cmds(found)[..i]
    {
      if found[i].cmd == cmd {
        already := true;
        assert Cmds(found)[i] == cmd;
        return;
      }
      assert Cmds(found)[..i + 1] == Cmds(found)[..i] + [found[i].cmd];
      i := i + 1;
    }
    assert Cmds(found)[..i] == Cmds(found);
  }

  /** The scan of the launcher list: a launcher not on PATH is skipped,
      and so is a JetBrains launcher that is not preferred while `jb` is
      on PATH. */
  method Scan(guess: seq<EditorCandidate>, onPath: string -> bool, pref: seq<string>) returns (found: seq<EditorCandidate>)
    ensures found == Filter(guess, Keeper(onPath, pref))
  {
    var jbOnPath := onPath(JbCmd);
    found := [];
    for k := 0 to |guess|
      invariant found == Filter(guess[..k], Keeper(onPath, pref))
    {
      var c := guess[k];
      FilterAppend(guess[..k], [c], Keeper(onPath, pref));
      assert guess[..k + 1] == guess[..k] + [c];
      if !onPath(c.cmd) {
        continue;
      }
      if jbOnPath && c.isJetBrains && c.cmd !in pref {
        continue;
      }
      found := found + [c];
    }
    assert guess[..|guess|] == guess;
  }

  /** The preferred commands on PATH that the scan did not list are added
      as bare candidates, in order. */
  method AddPreferred(scanned: seq<EditorCandidate>, onPath: string -> bool, pref: seq<string>) returns (found: seq<EditorCandidate>)
    ensures found == AppendPreferred(scanned, pref, onPath)
  {
    found := scanned;
    for k := 0 to |pref|
      invariant found == AppendPreferred(scanned, pref[..k], onPath)
    {
      var cmd := pref[k];
      assert pref[..k + 1][..k] == pref[..k];
      if onPath(cmd) {
        var already := Listed(found, cmd);
        if !already {
          found := found + [Bare(cmd)];
        }
      }
    }
    assert pref[..|pref|] == pref;
  }

  method DetectEditors(onPath: string -> bool, pref: seq<string>) returns (found: seq<EditorCandidate>)
    ensures found == EditorsSpec(onPath, pref)
  {
    found := Scan(Guess, onPath, pref);
    found := AddPreferred(found, onPath, pref);
    found := PreferredFirst(found, pref);
    if |found| > MaxEditorOpts {
      found := found[..MaxEditorOpts];
    }
  }

  // ----- Properties -----

  /** At most five candidates, each on PATH. */
  lemma OfferedOnPath(onPath: string -> bool, pref: seq<string>)
    ensures var r := EditorsSpec(onPath, pref);
      |r| <= MaxEditorOpts && forall i :: 0 <= i < |r| ==> onPath(r[i].cmd)
  {
    var s := Scanned(onPath, pref);
    var f := AppendPreferred(s, pref, onPath);
    AppendedOnPath(s, pref, onPath);
    var a, b := Filter(f, IsPreferred(pref)), Filter(f, NotPreferred(pref));
    var c := Candidates(onPath, pref);
    assert c == a + b;
    forall i | 0 <= i < |c|
      ensures onPath(c[i].cmd)
    {
      if i < |a| {
        assert c[i] == a[i] && a[i] in f;
      } else {
        assert c[i] == b[i - |a|] && b[i - |a|] in f;
      }
    }
  }

  lemma {:induction false} AppendedOnPath(found: seq<EditorCandidate>, pref: seq<string>, onPath: string -> bool)
    requires forall e :: e in found ==> onPath(e.cmd)
    ensures forall e :: e in AppendPreferred(found, pref, onPath) ==> onPath(e.cmd)
  {
    if |pref| > 0 {
      AppendedOnPath(found, pref[..|pref| - 1], onPath);
    }
  }

  /** Appending preferred commands only adds at the end, and only bare
      entries for preferred commands. */
  lemma {:induction false} AppendedShape(found: seq<EditorCandidate>, pref: seq<string>, onPath: string -> bool)
    ensures var f := AppendPreferred(found, pref, onPath);
      && |found| <= |f| && f[..|found|] == found
      && forall i :: |found| <= i < |f| ==> f[i] == Bare(f[i].cmd) && f[i].cmd in pref
  {
    if |pref| > 0 {
      AppendedShape(found, pref[..|pref| - 1], onPath);
    }
  }

  /** With `jb` on PATH, every JetBrains entry offered is a preferred one. */
  lemma JetBrainsOnlyIfPreferred(onPath: string -> bool, pref: seq<string>)
    requires onPath(JbCmd)
    ensures var r := EditorsSpec(onPath, pref);
      forall i :: 0 <= i < |r| && r[i].isJetBrains ==> r[i].cmd in pref
  {
    var s := Scanned(onPath, pref);
    var f := AppendPreferred(s, pref, onPath);
    AppendedShape(s, pref, onPath);
    forall i | 0 <= i < |f| && f[i].isJetBrains
      ensures f[i].cmd in pref
    {
      if i < |s| {
        assert f[i] == s[i];
      }
    }
    var c := Candidates(onPath, pref);
    var a, b := Filter(f, IsPreferred(pref)), Filter(f, NotPreferred(pref));
    assert c == a + b;
    forall i | 0 <= i < |c|
      ensures c[i] in f
    {
      if i < |a| {
        assert c[i] == a[i];
      } else {
        assert c[i] == b[i - |a|];
      }
    }
  }

  /** Filtering keeps commands distinct. */
  lemma {:induction false} FilterDistinct(cs: seq<EditorCandidate>, p: EditorCandidate -> bool)
    requires DistinctCmds(cs)
    ensures DistinctCmds(Filter(cs, p))
  {
    if |cs| > 0 {
      FilterDistinct(cs[1..], p);
      var rest := Filter(cs[1..], p);
      assert forall j :: 0 <= j < |rest| ==> rest[j] in cs[1..];
      forall j | 0 <= j < |rest|
        ensures rest[j].cmd != cs[0].cmd
      {
        var k :| 0 <= k < |cs[1..]| && cs[1..][k] == rest[j];
        assert cs[k + 1] == rest[j];
      }
    }
  }

  /** The stable partition keeps commands distinct: the two halves are
      distinct on their own, and a command's half depends on the command
      only. */
  lemma PreferredFirstDistinct(found: seq<EditorCandidate>, pref: seq<string>)
    requires DistinctCmds(found)
    ensures DistinctCmds(PreferredFirst(found, pref))
  {
    var a := Filter(found, IsPreferred(pref));
    var b := Filter(found, NotPreferred(pref));
    FilterDistinct(found, IsPreferred(pref));
    FilterDistinct(found, NotPreferred(pref));
    var ab := a + b;
    forall i, j | 0 <= i < j < |ab|
      ensures ab[i].cmd != ab[j].cmd
    {
      if j < |a| {
        assert ab[i] == a[i] && ab[j] == a[j];
      } else if i >= |a| {
        assert ab[i] == b[i - |a|] && ab[j] == b[j - |a|];
      } else {
        assert ab[i] == a[i] && ab[j] == b[j - |a|];
      }
    }
  }

  /** The appended entries never repeat a command. */
  lemma {:induction false} AppendedDistinct(found: seq<EditorCandidate>, pref: seq<string>, onPath: string -> bool)
    requires DistinctCmds(found)
    ensures DistinctCmds(AppendPreferred(found, pref, onPath))
  {
    if |pref| > 0 {
      var f := AppendPreferred(found, pref[..|pref| - 1], onPath);
      AppendedDistinct(found, pref[..|pref| - 1], onPath);
      var cmd := pref[|pref| - 1];
      if onPath(cmd) && cmd !in Cmds(f) {
        var g := f + [Bare(cmd)];
        forall i, j | 0 <= i < j < |g|
          ensures g[i].cmd != g[j].cmd
        {
          if j == |f| {
            assert Cmds(f)[i] == g[i].cmd;
          }
        }
      }
    }
  }

  /** No command of `a` is a command of `b`. */
  ghost predicate Apart(a: seq<EditorCandidate>, b: seq<EditorCandidate>) {
    forall i, j :: 0 <= i < |a| && 0 <= j < |b| ==> a[i].cmd != b[j].cmd
  }

  lemma DistinctConcat(a: seq<EditorCandidate>, b: seq<EditorCandidate>)
    requires DistinctCmds(a) && DistinctCmds(b) && Apart(a, b)
    ensures DistinctCmds(a + b)
  {
    forall i, j | 0 <= i < j < |a + b|
      ensures (a + b)[i].cmd != (a + b)[j].cmd
    {
      if i < |a| && |a| <= j {
        assert (a + b)[j] == b[j - |a|];
      }
    }
  }

  lemma PopularDistinct()
    ensures DistinctCmds(Popular)
  {
  }

  lemma PerIdeDistinct()
    ensures DistinctCmds(PerIde)
  {
  }

  lemma OthersDistinct()
    ensures DistinctCmds(Others)
  {
  }

  lemma ApartConcat(a: seq<EditorCandidate>, b: seq<EditorCandidate>, c: seq<EditorCandidate>)
    requires Apart(a, c) && Apart(b, c)
    ensures Apart(a + b, c)
  {
  }

  lemma PopularApart()
    ensures Apart(Popular, PerIde) && Apart(Popular, [JbLauncher])
  {
  }

  lemma PerIdeApart()
    ensures Apart(PerIde, [JbLauncher])
  {
  }

  lemma OthersApart()
    ensures Apart(Popular, Others) && Apart([JbLauncher], Others)
  {
  }

  lemma PerIdeOthersApart()
    ensures Apart(PerIde, Others)
  {
  }

  lemma GuessDistinct()
    ensures DistinctCmds(Guess)
  {
    PopularDistinct();
    PerIdeDistinct();
    OthersDistinct();
    PopularApart();
    PerIdeApart();
    OthersApart();
    PerIdeOthersApart();
    ApartConcat(Popular, PerIde, [JbLauncher]);
    ApartConcat(Popular, PerIde, Others);
    ApartConcat(Popular + PerIde, [JbLauncher], Others);
    DistinctConcat(Popular, PerIde);
    DistinctConcat(Popular + PerIde, [JbLauncher]);
    DistinctConcat(Popular + PerIde + [JbLauncher], Others);
  }

  /** No command is offered twice, in particular a preferred command that
      is already a guessed launcher. */
  lemma OfferedDistinct(onPath: string -> bool, pref: seq<string>)
    ensures DistinctCmds(EditorsSpec(onPath, pref))
  {
    GuessDistinct();
    FilterDistinct(Guess, Keeper(onPath, pref));
    AppendedDistinct(Scanned(onPath, pref), pref, onPath);
    PreferredFirstDistinct(AppendPreferred(Scanned(onPath, pref), pref, onPath), pref);
  }

  /** Preferred entries come first. */
  lemma PreferredComeFirst(onPath: string -> bool, pref: seq<string>)
    ensures var r := EditorsSpec(onPath, pref);
      forall i, j :: 0 <= i < j < |r| && r[j].cmd in pref ==> r[i].cmd in pref
  {
    var f := AppendPreferred(Scanned(onPath, pref), pref, onPath);
    var a := Filter(f, IsPreferred(pref));
    var b := Filter(f, NotPreferred(pref));
    var r := EditorsSpec(onPath, pref);
    forall i, j | 0 <= i < j < |r| && r[j].cmd in pref
      ensures r[i].cmd in pref
    {
      assert r[j] == (a + b)[j] && r[i] == (a + b)[i];
    }
  }

  lemma {:induction false} FilterSplit(cs: seq<EditorCandidate>, p: EditorCandidate -> bool, q: EditorCandidate -> bool)
    requires forall i :: 0 <= i < |cs| ==> (q(cs[i]) <==> !p(cs[i]))
    ensures multiset(Filter(cs, p)) + multiset(Filter(cs, q)) == multiset(cs)
  {
    if |cs| > 0 {
      FilterSplit(cs[1..], p, q);
      assert cs == [cs[0]] + cs[1..];
    }
  }

  /** Moving preferred entries to the front loses and adds nothing. */
  lemma PreferredFirstPermutes(found: seq<EditorCandidate>, pref: seq<string>)
    ensures multiset(PreferredFirst(found, pref)) == multiset(found)
  {
    FilterSplit(found, IsPreferred(pref), NotPreferred(pref));
  }

  /** Every preferred command on PATH is offered: there are at most two,
      and they come first. */
  lemma PreferredOffered(onPath: string -> bool, pref: seq<string>, cmd: string)
    requires PrefKeys(pref) && cmd in pref && onPath(cmd)
    ensures cmd in Cmds(EditorsSpec(onPath, pref))
  {
    GuessDistinct();
    FilterDistinct(Guess, Keeper(onPath, pref));
    OfferedAfterScan(Scanned(onPath, pref), onPath, pref, cmd);
  }

  /** The steps after the scan keep a preferred command on PATH, whatever
      duplicate-free list the scan produced. */
  lemma OfferedAfterScan(scanned: seq<EditorCandidate>, onPath: string -> bool, pref: seq<string>, cmd: string)
    requires PrefKeys(pref) && cmd in pref && onPath(cmd) && DistinctCmds(scanned)
    ensures cmd in Cmds(Truncate(PreferredFirst(AppendPreferred(scanned, pref, onPath), pref)))
  {
    var f := AppendPreferred(scanned, pref, onPath);
    var a := Filter(f, IsPreferred(pref));
    var k :| 0 <= k < |pref| && pref[k] == cmd;
    AppendedHas(scanned, pref, onPath, k);
    var j := PreferredListed(f, pref, cmd);
    AppendedDistinct(scanned, pref, onPath);
    PreferredPartSmall(f, pref);
    var c := a + Filter(f, NotPreferred(pref));
    assert PreferredFirst(f, pref) == c;
    var r := Truncate(c);
    assert r[j] == c[j] == a[j];
    assert Cmds(r)[j] == cmd;
  }

  /** In a duplicate-free list at most two candidates are preferred. */
  lemma PreferredPartSmall(f: seq<EditorCandidate>, pref: seq<string>)
    requires PrefKeys(pref) && DistinctCmds(f)
    ensures |Filter(f, IsPreferred(pref))| <= 2
  {
    FilterDistinct(f, IsPreferred(pref));
    DistinctWithin(Filter(f, IsPreferred(pref)), pref);
  }

  /** A listed preferred command is among the preferred candidates. */
  lemma PreferredListed(f: seq<EditorCandidate>, pref: seq<string>, cmd: string) returns (j: nat)
    requires cmd in pref && cmd in Cmds(f)
    ensures j < |Filter(f, IsPreferred(pref))| && Filter(f, IsPreferred(pref))[j].cmd == cmd
  {
    var i :| 0 <= i < |f| && Cmds(f)[i] == cmd;
    assert IsPreferred(pref)(f[i]);
    var a := Filter(f, IsPreferred(pref));
    assert f[i] in a;
    j :| 0 <= j < |a| && a[j] == f[i];
  }

  /** A preferred command on PATH is present once it has been visited. */
  lemma {:induction false} AppendedHas(found: seq<EditorCandidate>, pref: seq<string>, onPath: string -> bool, k: nat)
    requires k < |pref| && onPath(pref[k])
    ensures pref[k] in Cmds(AppendPreferred(found, pref, onPath))
  {
    var init := pref[..|pref| - 1];
    var f := AppendPreferred(found, init, onPath);
    var g := AppendPreferred(found, pref, onPath);
    assert g == f || g == f + [Bare(pref[|pref| - 1])];
    assert forall i :: 0 <= i < |f| ==> g[i] == f[i];
    if k < |pref| - 1 {
      assert init[k] == pref[k];
      AppendedHas(found, init, onPath, k);
      var i :| 0 <= i < |f| && Cmds(f)[i] == pref[k];
      assert Cmds(g)[i] == pref[k];
    } else if pref[k] in Cmds(f) {
      var i :| 0 <= i < |f| && Cmds(f)[i] == pref[k];
      assert Cmds(g)[i] == pref[k];
    } else {
      assert Cmds(g)[|f|] == pref[k];
    }
  }

  /** Distinct entries whose commands are all among at most two preferred
      names number at most two. */
  lemma DistinctWithin(a: seq<EditorCandidate>, pref: seq<string>)
    requires PrefKeys(pref) && DistinctCmds(a)
    requires forall i :: 0 <= i < |a| ==> a[i].cmd in pref
    ensures |a| <= 2
  {
    if |a| > 2 {
      Pigeon(a[0].cmd, a[1].cmd, a[2].cmd, pref);
    }
  }

  /** Three names among at most two are not all different. */
  lemma Pigeon(x: string, y: string, z: string, pref: seq<string>)
    requires |pref| <= 2 && x in pref && y in pref && z in pref
    ensures x == y || x == z || y == z
  {
  }

  // ----- The `jb` launcher -----

  /** What `jb` on PATH was meant to drop: the per-IDE launchers, not the
      universal launcher itself. */
  predicate IntendedKeep(c: EditorCandidate, onPath: string -> bool, pref: seq<string>, jb: bool) {
    onPath(c.cmd) && !(jb && c.isJetBrains && c.cmd != JbCmd && c.cmd !in pref)
  }

  function IntendedKeeper(onPath: string -> bool, pref: seq<string>): EditorCandidate -> bool {
    c => IntendedKeep(c, onPath, pref, onPath(JbCmd))
  }

  function IntendedEditors(onPath: string -> bool, pref: seq<string>): seq<EditorCandidate> {
    Truncate(PreferredFirst(AppendPreferred(Filter(Guess, IntendedKeeper(onPath, pref)), pref, onPath), pref))
  }

  lemma {:induction false} FilterNone(cs: seq<EditorCandidate>, p: EditorCandidate -> bool)
    requires forall i :: 0 <= i < |cs| ==> !p(cs[i])
    ensures Filter(cs, p) == []
  {
    if |cs| > 0 {
      FilterNone(cs[1..], p);
    }
  }

  lemma {:induction false} FilterAll(cs: seq<EditorCandidate>, p: EditorCandidate -> bool)
    requires forall i :: 0 <= i < |cs| ==> p(cs[i])
    ensures Filter(cs, p) == cs
  {
    if |cs| > 0 {
      FilterAll(cs[1..], p);
    }
  }

  /** As written, `jb` is itself marked JetBrains, so when it is the only
      launcher on PATH nothing at all is offered. */
  lemma JbDropsItself()
    ensures EditorsSpec(p => p == JbCmd, []) == []
  {
    var onPath := (p: string) => p == JbCmd;
    FilterNone(Guess, Keeper(onPath, []));
    assert PreferredFirst([], []) == [];
  }

  lemma PerIdeLaunchers()
    ensures forall i :: 0 <= i < |PerIde| ==> PerIde[i].isJetBrains && PerIde[i].cmd != JbCmd
  {
  }

  /** Under the intended rule, with `jb` on PATH only the four popular
      launchers can be kept ahead of it. */
  lemma IntendedFront(onPath: string -> bool)
    requires onPath(JbCmd)
    ensures |Filter(Popular + PerIde, IntendedKeeper(onPath, []))| <= 4
  {
    var keep := IntendedKeeper(onPath, []);
    FilterAppend(Popular, PerIde, keep);
    PerIdeLaunchers();
    IntendedDropsLaunchers(PerIde, onPath);
  }

  /** Under the intended rule, with `jb` on PATH and nothing preferred,
      IDE-specific JetBrains launchers are all dropped. */
  lemma IntendedDropsLaunchers(cs: seq<EditorCandidate>, onPath: string -> bool)
    requires onPath(JbCmd)
    requires forall i :: 0 <= i < |cs| ==> cs[i].isJetBrains && cs[i].cmd != JbCmd
    ensures Filter(cs, IntendedKeeper(onPath, [])) == []
  {
    FilterNone(cs, IntendedKeeper(onPath, []));
  }

  /** Under the intended rule, `jb` on PATH is kept by the scan, right
      after at most four other launchers. */
  lemma IntendedScan(onPath: string -> bool) returns (k: nat)
    requires onPath(JbCmd)
    ensures var scanned := Filter(Guess, IntendedKeeper(onPath, []));
      k < 5 && k < |scanned| && scanned[k].cmd == JbCmd
  {
    var keep := IntendedKeeper(onPath, []);
    var front := Filter(Popular + PerIde, keep);
    IntendedFront(onPath);
    FilterAppend(Popular + PerIde, [JbLauncher], keep);
    FilterAppend(Popular + PerIde + [JbLauncher], Others, keep);
    assert keep(JbLauncher);
    assert Filter([JbLauncher], keep) == [JbLauncher];
    var scanned := Filter(Guess, keep);
    assert scanned[|front|] == JbLauncher;
    k := |front|;
  }

  /** With nothing preferred, nothing is appended and nothing is moved. */
  lemma NothingPreferred(found: seq<EditorCandidate>, onPath: string -> bool)
    ensures PreferredFirst(AppendPreferred(found, [], onPath), []) == found
  {
    assert AppendPreferred(found, [], onPath) == found;
    FilterNone(found, IsPreferred([]));
    FilterAll(found, NotPreferred([]));
    assert PreferredFirst(found, []) == [] + found;
  }

  /** With the intended rule, `jb` on PATH is offered whenever nothing is
      preferred. */
  lemma IntendedOffersJb(onPath: string -> bool)
    requires onPath(JbCmd)
    ensures JbCmd in Cmds(IntendedEditors(onPath, []))
  {
    var scanned := Filter(Guess, IntendedKeeper(onPath, []));
    var k := IntendedScan(onPath);
    NothingPreferred(scanned, onPath);
    var r := IntendedEditors(onPath, []);
    assert r == Truncate(scanned);
    assert r[k] == scanned[k];
    assert Cmds(r)[k] == JbCmd;
  }
}
