/** What the rewritten user data means on the node that boots it (internal/controller/cloudinit.go). */
module CloudInitTheorems {
  import opened Prelude
  import opened BlockYaml
  import opened TokenText
  import opened AppendedToken
  import opened CloudInit

  // ----- writing files -----

  function At(fs: Files, path: string): Option<Node> {
    if path in fs then Some(fs[path]) else None
  }

  predicate Writes(files: seq<File>, path: string) {
    exists f :: f in files && f.path == path
  }

  lemma {:induction false} WriteAppend(fs: Files, machine: Machine, a: seq<File>, b: seq<File>)
    ensures WriteFiles(fs, machine, a + b) == WriteFiles(WriteFiles(fs, machine, a), machine, b)
    decreases |a|
  {
    if a == [] {
      assert a + b == b;
    } else {
      assert (a + b)[1..] == a[1..] + b;
      WriteAppend(WriteFile(fs, machine, a[0]), machine, a[1..], b);
    }
  }

  /** A path nobody writes keeps its file. */
  lemma {:induction false} WriteFrame(fs: Files, machine: Machine, files: seq<File>, path: string)
    requires !Writes(files, path)
    ensures At(WriteFiles(fs, machine, files), path) == At(fs, path)
    decreases |files|
  {
    if files != [] {
      assert files[0] in files && forall f :: f in files[1..] ==> f in files;
      WriteFrame(WriteFile(fs, machine, files[0]), machine, files[1..], path);
    }
  }

  /** What ends up at a path depends on nothing but what was there and on the entries for it. */
  lemma {:induction false} WriteLocal(fs: Files, gs: Files, machine: Machine, a: seq<File>, b: seq<File>, path: string)
    requires At(fs, path) == At(gs, path)
    requires |a| == |b| && forall i :: 0 <= i < |a| ==> a[i] == b[i] || (a[i].path != path && b[i].path != path)
    ensures At(WriteFiles(fs, machine, a), path) == At(WriteFiles(gs, machine, b), path)
    decreases |a|
  {
    if a != [] {
      WriteLocal(WriteFile(fs, machine, a[0]), WriteFile(gs, machine, b[0]), machine, a[1..], b[1..], path);
    }
  }

  /** The last entry for a path is what the node finds there. */
  lemma WriteLast(fs: Files, machine: Machine, files: seq<File>, i: nat)
    requires i < |files| && !Writes(files[i + 1..], files[i].path)
    ensures At(WriteFiles(fs, machine, files), files[i].path) == At(WriteFile(fs, machine, files[i]), files[i].path)
  {
    var before := WriteFiles(fs, machine, files[..i]);
    assert files == files[..i] + ([files[i]] + files[i + 1..]);
    WriteAppend(fs, machine, files[..i], [files[i]] + files[i + 1..]);
    assert ([files[i]] + files[i + 1..])[1..] == files[i + 1..];
    WriteFrame(WriteFile(before, machine, files[i]), machine, files[i + 1..], files[i].path);
  }

  // ----- preconditions of the Vault path -----

  predicate IsVaultPath(path: string) {
    path == RKE2_SCRIPT || path == ROLE_PATH || path == SECRET_PATH
  }

  /** Template and bootstrap data stay away from the files the Vault part adds. */
  predicate NoClash(files: seq<File>) {
    forall f :: f in files ==> !IsVaultPath(f.path)
  }

  /** The index of the last entry for the RKE2 config, or the number of entries. */
  function LastConfig(files: seq<File>): (i: nat)
    ensures i <= |files|
    ensures i < |files| ==> files[i].path == CONFIG_PATH
    ensures forall k :: i < k < |files| ==> files[k].path != CONFIG_PATH
    ensures i == |files| ==> !Writes(files, CONFIG_PATH)
  {
    if files == [] then 0
    else
      var n := |files| - 1;
      if files[n].path == CONFIG_PATH then n
      else
        var j := LastConfig(files[..n]);
        assert files == files[..n] + [files[n]];
        if j == n then |files| else j
  }

  /** The entry the node's config comes from is text and not encoded. */
  predicate PlainLast(files: seq<File>) {
    var j := LastConfig(files);
    j < |files| && files[j].content.Text? && files[j].encoding == ""
  }

  predicate OneConfig(files: seq<File>) {
    PlainLast(files) && LastConfig(files) == FirstConfig(files)
  }

  /** The credentials handed to the node are live, and the join token is where the script looks. */
  predicate VaultServes(vault: VaultServer, v: VaultParams, token: string) {
    && vault.roleID == v.roleID && vault.secretID == v.secretID
    && v.secretPath in vault.tokens && vault.tokens[v.secretPath] == token
  }

  function ConfigOf(schema: Schema, fs: Files): Option<Config> {
    if CONFIG_PATH in fs then ParseContent(schema, fs[CONFIG_PATH].content) else None
  }

  /** The same files, apart from the script, the credentials and the text of the RKE2 config. */
  ghost predicate SameElsewhere(fs: Files, gs: Files) {
    forall path: string :: !IsVaultPath(path) && path != CONFIG_PATH ==> At(fs, path) == At(gs, path)
  }

  predicate SameConfigNode(fs: Files, gs: Files) {
    && CONFIG_PATH in fs && CONFIG_PATH in gs
    && fs[CONFIG_PATH].permissions == gs[CONFIG_PATH].permissions
    && fs[CONFIG_PATH].owner == gs[CONFIG_PATH].owner
  }

  // ----- what is on disk before the fetch script runs -----

  lemma VaultFilesWritten(fs: Files, machine: Machine, v: VaultParams, rest: seq<File>)
    requires NoClash(rest)
    ensures var on := WriteFiles(fs, machine, VaultFiles(v) + rest);
            && At(on, ROLE_PATH) == Some(Node(Text(v.roleID + "\n"), "0600", ""))
            && At(on, SECRET_PATH) == Some(Node(Text(v.secretID + "\n"), "0600", ""))
            && At(on, RKE2_SCRIPT) == Some(Node(Rke2Fetch(v.addr, v.secretPath), "0755", ""))
  {
    var files := VaultFiles(v) + rest;
    assert files[1..] == VaultFiles(v)[1..] + rest && files[2..] == VaultFiles(v)[2..] + rest && files[3..] == rest;
    WriteLast(fs, machine, files, 0);
    WriteLast(fs, machine, files, 1);
    WriteLast(fs, machine, files, 2);
  }

  lemma VaultFilesElsewhere(fs: Files, machine: Machine, v: VaultParams, rest: seq<File>, path: string)
    requires !IsVaultPath(path)
    ensures At(WriteFiles(fs, machine, VaultFiles(v) + rest), path) == At(WriteFiles(fs, machine, rest), path)
  {
    WriteAppend(fs, machine, VaultFiles(v), rest);
    WriteFrame(fs, machine, VaultFiles(v), path);
    WriteLocal(WriteFiles(fs, machine, VaultFiles(v)), fs, machine, rest, rest, path);
  }

  /** Rewriting the text of one entry changes nothing at other paths. */
  lemma RewrittenElsewhere(fs: Files, machine: Machine, static_: seq<File>, c: UserData, i: nat, text: string, path: string)
    requires i < |c.writeFiles| && path != c.writeFiles[i].path
    ensures At(WriteFiles(fs, machine, static_ + WithContent(c, i, text).writeFiles), path)
         == At(WriteFiles(fs, machine, static_ + c.writeFiles), path)
  {
    WriteLocal(fs, fs, machine, static_ + WithContent(c, i, text).writeFiles, static_ + c.writeFiles, path);
  }

  /** The last config entry decides the node's config file. */
  lemma ConfigWritten(fs: Files, machine: Machine, before: seq<File>, files: seq<File>, i: nat)
    requires i < |files| && files[i].path == CONFIG_PATH && files[i].encoding == "" && !Writes(files[i + 1..], CONFIG_PATH)
    ensures At(WriteFiles(fs, machine, before + files), CONFIG_PATH)
         == Some(Node(files[i].content, files[i].permissions, files[i].owner))
  {
    var all := before + files;
    assert all[|before| + i] == files[i] && all[|before| + i + 1..] == files[i + 1..];
    WriteLast(fs, machine, all, |before| + i);
  }

  /** The fetch script on a disk holding the credentials. */
  lemma FetchRuns(fs: Files, machine: Machine, v: VaultParams, token: string, text: string)
    requires VaultServes(machine.vault, v, token) && token != ""
    requires At(fs, ROLE_PATH) == Some(Node(Text(v.roleID + "\n"), "0600", ""))
    requires At(fs, SECRET_PATH) == Some(Node(Text(v.secretID + "\n"), "0600", ""))
    requires At(fs, RKE2_SCRIPT) == Some(Node(Rke2Fetch(v.addr, v.secretPath), "0755", ""))
    requires CONFIG_PATH in fs && fs[CONFIG_PATH].content == Text(text)
    ensures var got := RunCommand(fs, machine, Shell(RKE2_SCRIPT));
            && ROLE_PATH !in got && SECRET_PATH !in got
            && SameElsewhere(got, fs) && SameConfigNode(got, fs)
            && got[CONFIG_PATH].content == Text(Inject(text, token))
  {}

  // ----- the theorem -----

  /** Booting the merged data up to and including its first command. */
  function Fetched(fs: Files, machine: Machine, static_: UserData, bootstrap: UserData, v: VaultParams): Files {
    RunCommand(Written(fs, machine, Merge(static_, bootstrap, v)), machine, Shell(RKE2_SCRIPT))
  }

  /** The disk once the fetch script is through, whatever text the bootstrap config entry `i` was
      given: the original one everywhere but for the config text, which comes from the last entry. */
  lemma FetchedDisk(fs: Files, machine: Machine, static_: UserData, c: UserData, i: nat, text: string, v: VaultParams, token: string, last: string)
    requires NoClash(static_.writeFiles) && NoClash(c.writeFiles) && token != "" && VaultServes(machine.vault, v, token)
    requires i < |c.writeFiles| && c.writeFiles[i].path == CONFIG_PATH && PlainLast(c.writeFiles)
    requires WithContent(c, i, text).writeFiles[LastConfig(c.writeFiles)].content == Text(last)
    ensures var got := Fetched(fs, machine, static_, WithContent(c, i, text), v);
            var want := Written(fs, machine, Plainly(static_, c));
            && ROLE_PATH !in got && SECRET_PATH !in got
            && SameElsewhere(got, want) && SameConfigNode(got, want)
            && want[CONFIG_PATH].content == c.writeFiles[LastConfig(c.writeFiles)].content
            && got[CONFIG_PATH].content == Text(Inject(last, token))
  {
    var s, j := WithContent(c, i, text), LastConfig(c.writeFiles);
    var rest := static_.writeFiles + s.writeFiles;
    var booted := RunAll(fs, machine, static_.bootCmd + c.bootCmd);
    var on := WriteFiles(booted, machine, VaultFiles(v) + rest);
    var want := Written(fs, machine, Plainly(static_, c));
    assert forall f :: f in s.writeFiles ==> f == s.writeFiles[i] || f in c.writeFiles;
    VaultFilesWritten(booted, machine, v, rest);
    ConfigWritten(booted, machine, static_.writeFiles, c.writeFiles, j);
    ConfigWritten(booted, machine, static_.writeFiles, s.writeFiles, j);
    VaultFilesElsewhere(booted, machine, v, rest, CONFIG_PATH);
    forall path: string | !IsVaultPath(path) && path != CONFIG_PATH ensures At(on, path) == At(want, path) {
      VaultFilesElsewhere(booted, machine, v, rest, path);
      RewrittenElsewhere(booted, machine, static_.writeFiles, c, i, text, path);
    }
    FetchRuns(on, machine, v, token, last);
  }

  /** The rest of the boot is the commands of the template and of the bootstrap data, in order. */
  lemma RestOfBoot(fs: Files, machine: Machine, static_: UserData, bootstrap: UserData, v: VaultParams)
    ensures Boot(fs, machine, Merge(static_, bootstrap, v))
         == RunAll(Fetched(fs, machine, static_, bootstrap, v), machine, static_.runCmd + bootstrap.runCmd)
  {
    var run := Merge(static_, bootstrap, v).runCmd;
    assert run[0] == Shell(RKE2_SCRIPT) && run[1..] == static_.runCmd + bootstrap.runCmd;
  }

  /** The Vault path preserves the meaning of the bootstrap data: before any command of the template
      or the bootstrap data runs, every file but the script is as without Vault, the credentials
      are gone, and the RKE2 config reads as the original one exactly when the bootstrap data has one
      entry for it, the config has an entry besides the token, and the token reads back from a bare
      line. */
  lemma {:induction false} MeaningPreserved(schema: Schema, fs: Files, machine: Machine, static_: UserData, c: UserData, s: UserData, v: VaultParams, token: string)
    requires NoClash(static_.writeFiles) && NoClash(c.writeFiles) && PlainLast(c.writeFiles)
    requires IsStripped(schema, c, Stripped(s, token)) && VaultServes(machine.vault, v, token)
    ensures var got := Fetched(fs, machine, static_, s, v);
            var want := Written(fs, machine, Plainly(static_, c));
            && ROLE_PATH !in got && SECRET_PATH !in got
            && SameElsewhere(got, want) && SameConfigNode(got, want)
            && (OneConfig(c.writeFiles) ==> ConfigOf(schema, want).Some?)
            && (ConfigOf(schema, want).Some? ==>
                  (ConfigOf(schema, got) == ConfigOf(schema, want)
                   <==> OneConfig(c.writeFiles) && |ConfigOf(schema, want).value| > 1 && Plain(token) && schema(token)))
            && Boot(fs, machine, Merge(static_, s, v)) == RunAll(got, machine, Plainly(static_, c).runCmd)
  {
    var i, j := FirstConfig(c.writeFiles), LastConfig(c.writeFiles);
    var m := ParseContent(schema, c.writeFiles[i].content).value;
    var text :| IsPrinted(schema, WithoutToken(m), text) && s == WithContent(c, i, text);
    RestOfBoot(fs, machine, static_, s, v);
    if i == j {
      FetchedDisk(fs, machine, static_, c, i, text, v, token, text);
      ConfigIsValid(schema, c.writeFiles[i].content.text);
      InjectExactly(schema, WithoutToken(m), text, token);
      BackWithToken(m, token);
    } else {
      var last := c.writeFiles[j].content.text;
      FetchedDisk(fs, machine, static_, c, i, text, v, token, last);
      if Parse(schema, last).Some? {
        InjectChanges(schema, last, token);
      }
    }
  }

  lemma BackWithToken(m: Config, token: string)
    requires TOKEN in m && m[TOKEN] == Str(token)
    ensures WithoutToken(m)[TOKEN := Str(token)] == m
    ensures WithoutToken(m) != map[] <==> |m| > 1
  {
    assert WithoutToken(m)[TOKEN := Str(token)] == m;
    assert m.Keys == WithoutToken(m).Keys + {TOKEN};
    assert |m.Keys| == |WithoutToken(m).Keys| + 1;
    if WithoutToken(m) != map[] {
      assert |WithoutToken(m).Keys| > 0;
    }
  }

  // ----- the whole boot -----

  /** Same files for everything a command may look at. */
  ghost predicate Alike(schema: Schema, fs: Files, gs: Files) {
    && SameElsewhere(fs, gs)
    && (CONFIG_PATH in fs <==> CONFIG_PATH in gs)
    && ConfigOf(schema, fs) == ConfigOf(schema, gs)
  }

  /** A command that works on the files, except the script and the credentials, and reads the RKE2
      config as what it parses to. */
  ghost predicate Ordinary(schema: Schema, machine: Machine, c: Command) {
    && c != Shell(RKE2_SCRIPT) && c != Shell(RANCHER_SCRIPT)
    && forall fs: Files, gs: Files :: Alike(schema, fs, gs) ==> Alike(schema, machine.effect(c, fs), machine.effect(c, gs))
  }

  lemma {:induction false} RunAlike(schema: Schema, machine: Machine, fs: Files, gs: Files, commands: seq<Command>)
    requires Alike(schema, fs, gs)
    requires forall c :: c in commands ==> Ordinary(schema, machine, c)
    ensures Alike(schema, RunAll(fs, machine, commands), RunAll(gs, machine, commands))
    decreases |commands|
  {
    if commands != [] {
      assert Ordinary(schema, machine, commands[0]);
      RunAlike(schema, machine, RunCommand(fs, machine, commands[0]), RunCommand(gs, machine, commands[0]), commands[1..]);
    }
  }

  /** The token survives the detour: the conditions of `MeaningPreserved` on this node. */
  ghost predicate Survives(schema: Schema, fs: Files, machine: Machine, static_: UserData, c: UserData, token: string) {
    var config := ConfigOf(schema, Written(fs, machine, Plainly(static_, c)));
    OneConfig(c.writeFiles) && config.Some? && |config.value| > 1 && Plain(token) && schema(token)
  }

  lemma {:induction false} FetchedAlike(schema: Schema, fs: Files, machine: Machine, static_: UserData, c: UserData, s: UserData, v: VaultParams, token: string)
    requires NoClash(static_.writeFiles) && NoClash(c.writeFiles) && Survives(schema, fs, machine, static_, c, token)
    requires IsStripped(schema, c, Stripped(s, token)) && VaultServes(machine.vault, v, token)
    ensures Alike(schema, Fetched(fs, machine, static_, s, v), Written(fs, machine, Plainly(static_, c)))
    ensures Boot(fs, machine, Merge(static_, s, v)) == RunAll(Fetched(fs, machine, static_, s, v), machine, static_.runCmd + c.runCmd)
  {
    MeaningPreserved(schema, fs, machine, static_, c, s, v, token);
  }

  /** With ordinary commands the two boots end alike. */
  lemma {:induction false} BootPreserved(schema: Schema, fs: Files, machine: Machine, static_: UserData, c: UserData, s: UserData, v: VaultParams, token: string)
    requires NoClash(static_.writeFiles) && NoClash(c.writeFiles) && Survives(schema, fs, machine, static_, c, token)
    requires IsStripped(schema, c, Stripped(s, token)) && VaultServes(machine.vault, v, token)
    requires forall x :: x in static_.runCmd + c.runCmd ==> Ordinary(schema, machine, x)
    ensures Alike(schema, Boot(fs, machine, Merge(static_, s, v)), Boot(fs, machine, Plainly(static_, c)))
  {
    FetchedAlike(schema, fs, machine, static_, c, s, v, token);
    RunAlike(schema, machine, Fetched(fs, machine, static_, s, v), Written(fs, machine, Plainly(static_, c)), static_.runCmd + c.runCmd);
  }

  // ----- what stripping leaves behind -----

  predicate CarriesToken(schema: Schema, f: File) {
    f.path == CONFIG_PATH && ParseContent(schema, f.content).Some? && TOKEN in ParseContent(schema, f.content).value
  }

  lemma StrippedText(schema: Schema, c: UserData, s: UserData, token: string)
    requires IsStripped(schema, c, Stripped(s, token)) && FirstConfig(c.writeFiles) < |c.writeFiles|
    ensures var i := FirstConfig(c.writeFiles);
            && |s.writeFiles| == |c.writeFiles|
            && s.writeFiles[i].path == CONFIG_PATH
            && ParseContent(schema, s.writeFiles[i].content)
               == Some(WithoutToken(ParseContent(schema, c.writeFiles[i].content).value))
            && forall j :: 0 <= j < |c.writeFiles| && j != i ==> s.writeFiles[j] == c.writeFiles[j]
  {
    var i := FirstConfig(c.writeFiles);
    var m := ParseContent(schema, c.writeFiles[i].content).value;
    var text :| IsPrinted(schema, WithoutToken(m), text) && s == WithContent(c, i, text);
    ConfigIsValid(schema, c.writeFiles[i].content.text);
    PrintedReadsBack(schema, WithoutToken(m), text);
  }

  /** Stripping fails exactly when the first config entry does not parse or has no token that is a
      non-empty string; without a config entry it returns the data as it was and no token, and
      otherwise the token of that entry. */
  lemma StripFailsExactly(schema: Schema, c: UserData, r: StripResult)
    requires IsStripped(schema, c, r)
    ensures !Writes(c.writeFiles, CONFIG_PATH) ==> r == Stripped(c, "")
    ensures forall i :: IsFirstConfig(c.writeFiles, i) ==>
              var m := ParseContent(schema, c.writeFiles[i].content);
              && (r.StripError? <==> m.None? || TOKEN !in m.value || !m.value[TOKEN].Str? || m.value[TOKEN].s == "")
              && (r.Stripped? ==>
                    r.token == m.value[TOKEN].s && r.data.runCmd == c.runCmd && r.data.bootCmd == c.bootCmd)
  {
    var i := FirstConfig(c.writeFiles);
    if i < |c.writeFiles| {
      assert c.writeFiles[i] in c.writeFiles;
    }
    forall k | IsFirstConfig(c.writeFiles, k) ensures k == i {
      FirstConfigIs(c.writeFiles, k);
    }
  }

  /** Entry `i` is the first one for the RKE2 config. */
  predicate IsFirstConfig(files: seq<File>, i: int) {
    0 <= i < |files| && files[i].path == CONFIG_PATH && forall j :: 0 <= j < i ==> files[j].path != CONFIG_PATH
  }

  /** Entry by entry: after stripping, a config entry carries a token exactly when it did before and
      was not the first one. */
  lemma {:induction false} TokensLeft(schema: Schema, c: UserData, s: UserData, token: string, j: nat)
    requires IsStripped(schema, c, Stripped(s, token)) && j < |c.writeFiles|
    ensures |s.writeFiles| == |c.writeFiles|
    ensures CarriesToken(schema, s.writeFiles[j]) <==> CarriesToken(schema, c.writeFiles[j]) && j != FirstConfig(c.writeFiles)
  {
    if FirstConfig(c.writeFiles) < |c.writeFiles| {
      StrippedText(schema, c, s, token);
    }
  }

  /** Stripping stripped data fails, unless there never was a config entry; and that is exactly when
      stripping reports an empty token. */
  lemma StripTwice(schema: Schema, c: UserData, s: UserData, token: string, r: StripResult)
    requires IsStripped(schema, c, Stripped(s, token)) && IsStripped(schema, s, r)
    ensures token == "" <==> !Writes(c.writeFiles, CONFIG_PATH)
    ensures r.StripError? <==> Writes(c.writeFiles, CONFIG_PATH)
    ensures token == "" ==> s == c && r == Stripped(c, "")
  {
    var i := FirstConfig(c.writeFiles);
    if i < |c.writeFiles| {
      assert c.writeFiles[i] in c.writeFiles;
      StrippedText(schema, c, s, token);
      FirstConfigIs(s.writeFiles, i);
    }
  }

  lemma FirstConfigIs(files: seq<File>, i: nat)
    requires i < |files| && files[i].path == CONFIG_PATH && forall j :: 0 <= j < i ==> files[j].path != CONFIG_PATH
    ensures FirstConfig(files) == i
  {
    var k := FirstConfig(files);
    assert k <= i;
    assert k < |files| && files[k].path == CONFIG_PATH;
  }

  /** With a later config entry that carries a token and ends its last line, the node's config has the
      key twice and does not parse at all. */
  lemma {:induction false} SecondConfigBreaks(schema: Schema, fs: Files, machine: Machine, static_: UserData, c: UserData, s: UserData, v: VaultParams, token: string)
    requires NoClash(static_.writeFiles) && NoClash(c.writeFiles) && PlainLast(c.writeFiles)
    requires IsStripped(schema, c, Stripped(s, token)) && VaultServes(machine.vault, v, token)
    requires FirstConfig(c.writeFiles) < LastConfig(c.writeFiles)
    requires CarriesToken(schema, c.writeFiles[LastConfig(c.writeFiles)])
    requires EndsLine(c.writeFiles[LastConfig(c.writeFiles)].content.text)
    ensures ConfigOf(schema, Written(fs, machine, Plainly(static_, c))).Some?
    ensures ConfigOf(schema, Fetched(fs, machine, static_, s, v)) == None
  {
    var i, j := FirstConfig(c.writeFiles), LastConfig(c.writeFiles);
    var m := ParseContent(schema, c.writeFiles[i].content).value;
    var text :| IsPrinted(schema, WithoutToken(m), text) && s == WithContent(c, i, text);
    var last := c.writeFiles[j].content.text;
    FetchedDisk(fs, machine, static_, c, i, text, v, token, last);
    InjectRepeats(schema, last, token);
  }

  // ----- the Rancher path -----

  predicate IsRancherPath(path: string) {
    path == RANCHER_SCRIPT || path == ROLE_PATH || path == SECRET_PATH
  }

  const URL := "url"

  /** The node reads the agent's config as the token and the server url, finds every other file the
      template wrote, has no credentials left, and only then starts the agent and runs the
      template's commands. */
  lemma RancherMeaning(schema: Schema, fs: Files, machine: Machine, static_: UserData, v: VaultParams, url: string, token: string)
    requires forall f :: f in static_.writeFiles ==> !IsRancherPath(f.path)
    requires VaultServes(machine.vault, v, token) && Plain(token) && schema(token) && Plain(url) && schema(url)
    ensures var data := RancherAgent(static_, v, url);
            var got := RunCommand(Written(fs, machine, data), machine, Shell(RANCHER_SCRIPT));
            && ROLE_PATH !in got && SECRET_PATH !in got
            && AGENT_CONFIG in got
            && ParseContent(schema, got[AGENT_CONFIG].content) == Some(map[TOKEN := Str(token), URL := Str(url)])
            && (forall path: string :: !IsRancherPath(path) && path != AGENT_CONFIG ==>
                  At(got, path) == At(Written(fs, machine, static_), path))
            && Boot(fs, machine, data)
               == RunAll(got, machine, [Shell(START_AGENT)] + static_.runCmd)
  {
    RancherDisk(fs, machine, static_, v, url, token);
    AgentConfigParses(schema, token, url);
    RestOfRancherBoot(fs, machine, static_, v, url);
  }

  lemma RestOfRancherBoot(fs: Files, machine: Machine, static_: UserData, v: VaultParams, url: string)
    ensures var data := RancherAgent(static_, v, url);
            Boot(fs, machine, data)
            == RunAll(RunCommand(Written(fs, machine, data), machine, Shell(RANCHER_SCRIPT)), machine,
                      [Shell(START_AGENT)] + static_.runCmd)
  {
    var run := RancherAgent(static_, v, url).runCmd;
    assert run[0] == Shell(RANCHER_SCRIPT) && run[1..] == [Shell(START_AGENT)] + static_.runCmd;
  }

  /** The disk once the Rancher script is through. */
  lemma RancherDisk(fs: Files, machine: Machine, static_: UserData, v: VaultParams, url: string, token: string)
    requires forall f :: f in static_.writeFiles ==> !IsRancherPath(f.path)
    requires VaultServes(machine.vault, v, token) && token != ""
    ensures var got := RunCommand(Written(fs, machine, RancherAgent(static_, v, url)), machine, Shell(RANCHER_SCRIPT));
            && ROLE_PATH !in got && SECRET_PATH !in got
            && AGENT_CONFIG in got && got[AGENT_CONFIG].content == Text(AgentText(token, url))
            && (forall path: string :: !IsRancherPath(path) && path != AGENT_CONFIG ==>
                  At(got, path) == At(Written(fs, machine, static_), path))
  {
    var on := Written(fs, machine, RancherAgent(static_, v, url));
    var booted := RunAll(fs, machine, static_.bootCmd);
    RancherFilesWritten(booted, machine, v, url, static_.writeFiles);
    forall path: string | !IsRancherPath(path) ensures At(on, path) == At(Written(fs, machine, static_), path) {
      RancherFilesElsewhere(booted, machine, v, url, static_.writeFiles, path);
    }
    RancherFetchRuns(on, machine, v, url, token);
  }

  lemma RancherFilesElsewhere(fs: Files, machine: Machine, v: VaultParams, url: string, rest: seq<File>, path: string)
    requires !IsRancherPath(path)
    ensures At(WriteFiles(fs, machine, RancherFiles(v, url) + rest), path) == At(WriteFiles(fs, machine, rest), path)
  {
    WriteAppend(fs, machine, RancherFiles(v, url), rest);
    WriteFrame(fs, machine, RancherFiles(v, url), path);
    WriteLocal(WriteFiles(fs, machine, RancherFiles(v, url)), fs, machine, rest, rest, path);
  }

  lemma RancherFetchRuns(fs: Files, machine: Machine, v: VaultParams, url: string, token: string)
    requires VaultServes(machine.vault, v, token) && token != ""
    requires At(fs, ROLE_PATH) == Some(Node(Text(v.roleID + "\n"), "0600", ""))
    requires At(fs, SECRET_PATH) == Some(Node(Text(v.secretID + "\n"), "0600", ""))
    requires At(fs, RANCHER_SCRIPT) == Some(Node(RancherFetch(v.addr, v.secretPath, url), "0755", ""))
    ensures var got := RunCommand(fs, machine, Shell(RANCHER_SCRIPT));
            && ROLE_PATH !in got && SECRET_PATH !in got
            && AGENT_CONFIG in got && got[AGENT_CONFIG].content == Text(AgentText(token, url))
            && forall path: string :: !IsRancherPath(path) && path != AGENT_CONFIG ==> At(got, path) == At(fs, path)
  {}

  lemma RancherFilesWritten(fs: Files, machine: Machine, v: VaultParams, url: string, rest: seq<File>)
    requires forall f :: f in rest ==> !IsRancherPath(f.path)
    ensures var on := WriteFiles(fs, machine, RancherFiles(v, url) + rest);
            && At(on, ROLE_PATH) == Some(Node(Text(v.roleID + "\n"), "0600", ""))
            && At(on, SECRET_PATH) == Some(Node(Text(v.secretID + "\n"), "0600", ""))
            && At(on, RANCHER_SCRIPT) == Some(Node(RancherFetch(v.addr, v.secretPath, url), "0755", ""))
  {
    var files := RancherFiles(v, url) + rest;
    assert files[1..] == RancherFiles(v, url)[1..] + rest && files[2..] == RancherFiles(v, url)[2..] + rest && files[3..] == rest;
    WriteLast(fs, machine, files, 0);
    WriteLast(fs, machine, files, 1);
    WriteLast(fs, machine, files, 2);
  }

  lemma TwoLines(first: string, second: string)
    requires OneLine(first) && OneLine(second)
    ensures SplitLines(first + "\n" + (second + "\n")) == [first, second]
  {
    SplitFromLine(first, second + "\n", 0);
    SplitFromLine(second, "", 0);
    assert second + "\n" + "" == second + "\n";
    assert [first] + [second] == [first, second];
  }

  /** Two plain entries parse to their map. */
  lemma TwoEntries(schema: Schema, k1: string, v1: string, k2: string, v2: string)
    requires IsKey(k1) && IsKey(k2) && k1 != k2
    requires Plain(v1) && schema(v1) && Plain(v2) && schema(v2)
    ensures ParseEntries(schema, [k1 + ": " + v1, k2 + ": " + v2]) == Some(map[k1 := Str(v1), k2 := Str(v2)])
  {
    var first, second := k1 + ": " + v1, k2 + ": " + v2;
    EntryParses(schema, k2, Str(v2), PlainStyle, []);
    assert PrintEntry(schema, k2, Str(v2), PlainStyle) + [] == [second];
    EntryHead(schema, k2, Str(v2), PlainStyle);
    EntryParses(schema, k1, Str(v1), PlainStyle, [second]);
    assert PrintEntry(schema, k1, Str(v1), PlainStyle) + [second] == [first, second];
    assert map[k2 := Str(v2)][k1 := Str(v1)] == map[k1 := Str(v1), k2 := Str(v2)];
  }

  lemma AgentConfigParses(schema: Schema, token: string, url: string)
    requires Plain(token) && schema(token) && Plain(url) && schema(url)
    ensures Parse(schema, AgentText(token, url)) == Some(map[TOKEN := Str(token), URL := Str(url)])
  {
    var first, second := TOKEN + ": " + token, URL + ": " + url;
    assert AgentText(token, url) == first + "\n" + (second + "\n");
    TwoLines(first, second);
    TokenIsKey();
    assert URL[0] == 'u' && URL[|URL| - 1] == 'l';
    TwoEntries(schema, TOKEN, token, URL, url);
    assert first[0] == 't';
  }
}
