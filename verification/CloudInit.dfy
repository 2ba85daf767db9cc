/** The cloud-init transformation (internal/controller/cloudinit.go): stripping the join token out
    of the bootstrap data, merging it with the static template and the Vault parts, and building the
    rancher-system-agent variant. The YAML around the represented fields is assumed to round-trip;
    the embedded RKE2 config is text and treated as text. */
module CloudInit {
  import opened Prelude
  import opened BlockYaml
  import opened TokenText

  const CONFIG_PATH := "/etc/rancher/rke2/config.yaml"
  const ROLE_PATH := "/etc/vault/role-id"
  const SECRET_PATH := "/etc/vault/secret-id"
  const RKE2_SCRIPT := "/var/opt/scripts/vault-fetch-rke2-token.sh"
  const RANCHER_SCRIPT := "/var/opt/scripts/vault-fetch-rancher-registration.sh"
  const AGENT_CONFIG := "/etc/rancher-agent/config.yaml"

  const START_AGENT := "systemctl enable --now rancher-system-agent"

  /** File contents: text, or one of the two generated fetch scripts with what is filled in. */
  datatype Content =
    | Text(text: string)
    | Rke2Fetch(addr: string, secretPath: string)
    | RancherFetch(addr: string, secretPath: string, url: string)

  datatype File = File(path: string, content: Content, permissions: string, owner: string, encoding: string)

  datatype Command = Shell(line: string) | Exec(argv: seq<string>)

  datatype UserData = UserData(writeFiles: seq<File>, runCmd: seq<Command>, bootCmd: seq<Command>)

  datatype VaultParams = VaultParams(addr: string, secretPath: string, roleID: string, secretID: string)

  const EMPTY := UserData([], [], [])

  // ----- strip -----

  datatype StripResult = Stripped(data: UserData, token: string) | StripError

  function ParseContent(schema: Schema, c: Content): Option<Config> {
    if c.Text? then Parse(schema, c.text) else None
  }

  /** The index of the first entry for the RKE2 config, or the number of entries. */
  function FirstConfig(files: seq<File>): (i: nat)
    ensures i <= |files|
    ensures forall j :: 0 <= j < i ==> files[j].path != CONFIG_PATH
    ensures i < |files| ==> files[i].path == CONFIG_PATH
  {
    if files == [] || files[0].path == CONFIG_PATH then 0 else 1 + FirstConfig(files[1..])
  }

  /** What stripping may return: the marshaller is free to print the remaining config in any order. */
  ghost predicate IsStripped(schema: Schema, data: UserData, r: StripResult) {
    var i := FirstConfig(data.writeFiles);
    if i == |data.writeFiles| then r == Stripped(data, "")
    else
      var m := ParseContent(schema, data.writeFiles[i].content);
      if m.None? || TokenOf(m.value).None? then r == StripError
      else
        && r.Stripped? && r.token == TokenOf(m.value).value
        && exists text :: IsPrinted(schema, WithoutToken(m.value), text) && r.data == WithContent(data, i, text)
  }

  function WithContent(data: UserData, i: nat, text: string): UserData
    requires i < |data.writeFiles|
  {
    data.(writeFiles := data.writeFiles[i := data.writeFiles[i].(content := Text(text))])
  }

  // ----- merge -----

  function VaultFiles(v: VaultParams): seq<File> {
    [File(ROLE_PATH, Text(v.roleID + "\n"), "0600", "", ""),
     File(SECRET_PATH, Text(v.secretID + "\n"), "0600", "", ""),
     File(RKE2_SCRIPT, Rke2Fetch(v.addr, v.secretPath), "0755", "", "")]
  }

  function Merge(static_: UserData, bootstrap: UserData, v: VaultParams): UserData {
    UserData(VaultFiles(v) + (static_.writeFiles + bootstrap.writeFiles),
             [Shell(RKE2_SCRIPT)] + (static_.runCmd + bootstrap.runCmd),
             static_.bootCmd + bootstrap.bootCmd)
  }

  function RancherFiles(v: VaultParams, url: string): seq<File> {
    [File(ROLE_PATH, Text(v.roleID + "\n"), "0600", "", ""),
     File(SECRET_PATH, Text(v.secretID + "\n"), "0600", "", ""),
     File(RANCHER_SCRIPT, RancherFetch(v.addr, v.secretPath, url), "0755", "", "")]
  }

  /** BuildRancherAgentUserData */
  function RancherAgent(static_: UserData, v: VaultParams, url: string): UserData {
    UserData(RancherFiles(v, url) + static_.writeFiles,
             [Shell(RANCHER_SCRIPT), Shell(START_AGENT)] + static_.runCmd,
             static_.bootCmd)
  }

  // ----- booting -----

  datatype Node = Node(content: Content, permissions: string, owner: string)

  type Files = map<string, Node>

  /** What a node brings along: how it decodes encoded contents, what its commands do to the files,
      and the Vault it reaches. All of it is arbitrary. */
  datatype Machine = Machine(
    decode: (string, Content) -> Content,
    effect: (Command, Files) -> Files,
    vault: VaultServer)

  datatype VaultServer = VaultServer(roleID: string, secretID: string, tokens: map<string, string>)

  function WriteFile(fs: Files, machine: Machine, f: File): Files {
    fs[f.path := Node(if f.encoding == "" then f.content else machine.decode(f.encoding, f.content), f.permissions, f.owner)]
  }

  function WriteFiles(fs: Files, machine: Machine, files: seq<File>): Files
    decreases |files|
  {
    if files == [] then fs else WriteFiles(WriteFile(fs, machine, files[0]), machine, files[1..])
  }

  /** Appending a line to a file, creating it when needed. */
  function AppendTo(fs: Files, path: string, line: string): Files {
    if path !in fs then fs[path := Node(Text(line), "", "")]
    else if fs[path].content.Text? then fs[path := fs[path].(content := Text(fs[path].content.text + line))]
    else fs
  }

  /** The login both scripts start with: the credential files must hold the live credentials. */
  predicate LoginWorks(fs: Files, vault: VaultServer) {
    && ROLE_PATH in fs && fs[ROLE_PATH].content == Text(vault.roleID + "\n")
    && SECRET_PATH in fs && fs[SECRET_PATH].content == Text(vault.secretID + "\n")
  }

  predicate TokenAvailable(vault: VaultServer, path: string) {
    path in vault.tokens && vault.tokens[path] != ""
  }

  /** The fetch script of the RKE2 path: read the token, append it to the config, remove the
      credentials; nothing happens when the login or the read fails. */
  function FetchRke2(fs: Files, vault: VaultServer, path: string): Files {
    if !LoginWorks(fs, vault) || !TokenAvailable(vault, path) then fs
    else AppendTo(fs, CONFIG_PATH, TOKEN + ": " + vault.tokens[path] + "\n") - {ROLE_PATH, SECRET_PATH}
  }

  function AgentText(token: string, url: string): string {
    "token: " + token + "\nurl: " + url + "\n"
  }

  /** The Rancher script writes its own config file instead. */
  function FetchRancher(fs: Files, vault: VaultServer, path: string, url: string): Files {
    if !LoginWorks(fs, vault) || !TokenAvailable(vault, path) then fs
    else
      var text := AgentText(vault.tokens[path], url);
      var node := if AGENT_CONFIG in fs then fs[AGENT_CONFIG].(content := Text(text)) else Node(Text(text), "", "");
      fs[AGENT_CONFIG := node] - {ROLE_PATH, SECRET_PATH}
  }

  function RunCommand(fs: Files, machine: Machine, c: Command): Files {
    if c == Shell(RKE2_SCRIPT) && RKE2_SCRIPT in fs && fs[RKE2_SCRIPT].content.Rke2Fetch? then
      FetchRke2(fs, machine.vault, fs[RKE2_SCRIPT].content.secretPath)
    else if c == Shell(RANCHER_SCRIPT) && RANCHER_SCRIPT in fs && fs[RANCHER_SCRIPT].content.RancherFetch? then
      FetchRancher(fs, machine.vault, fs[RANCHER_SCRIPT].content.secretPath, fs[RANCHER_SCRIPT].content.url)
    else machine.effect(c, fs)
  }

  function RunAll(fs: Files, machine: Machine, commands: seq<Command>): Files
    decreases |commands|
  {
    if commands == [] then fs else RunAll(RunCommand(fs, machine, commands[0]), machine, commands[1..])
  }

  /** bootcmd, then write_files, then runcmd, each in order. */
  function Written(fs: Files, machine: Machine, data: UserData): Files {
    WriteFiles(RunAll(fs, machine, data.bootCmd), machine, data.writeFiles)
  }

  function Boot(fs: Files, machine: Machine, data: UserData): Files {
    RunAll(Written(fs, machine, data), machine, data.runCmd)
  }

  /** Static template and bootstrap data run one after the other, without Vault. */
  function Plainly(static_: UserData, bootstrap: UserData): UserData {
    UserData(static_.writeFiles + bootstrap.writeFiles, static_.runCmd + bootstrap.runCmd, static_.bootCmd + bootstrap.bootCmd)
  }

  // ----- the imperative transformation -----

  /** yaml.Marshal of the config map, taking the keys as they come and with any choice of styles. */
  method Marshal(schema: Schema, m: Config) returns (text: string)
    ensures IsPrinted(schema, m, text)
  {
    if m == map[] {
      return "{}\n";
    }
    var styles: Styles := *;
    ghost var order;
    var lines;
    order, lines := MarshalEntries(schema, m, styles);
    text := Join(lines);
    IsPrintedBy(schema, m, order, styles, text);
  }

  method MarshalEntries(schema: Schema, m: Config, styles: Styles) returns (ghost order: seq<string>, lines: seq<string>)
    ensures Lists(order, m.Keys) && forall k :: k in order ==> k in m
    ensures lines == PrintEntries(schema, m, order, styles)
  {
    order, lines := [], [];
    var todo := m.Keys;
    while todo != {}
      invariant todo <= m.Keys && Lists(order, m.Keys - todo)
      invariant forall k :: k in order ==> k in m
      invariant lines == PrintEntries(schema, m, order, styles)
      decreases todo
    {
      var k :| k in todo;
      PrintLast(schema, m, order, styles, k);
      assert k !in Elements(order);
      lines := lines + PrintEntry(schema, k, m[k], styles(k));
      order := order + [k];
      todo := todo - {k};
      assert Elements(order) == m.Keys - todo;
    }
    assert m.Keys - todo == m.Keys;
  }

  method Join(lines: seq<string>) returns (text: string)
    ensures text == JoinLines(lines)
  {
    text := "";
    for i := 0 to |lines|
      invariant text + JoinLines(lines[i..]) == JoinLines(lines)
    {
      assert lines[i..][1..] == lines[i + 1..];
      text := text + lines[i] + "\n";
    }
  }

  lemma {:induction false} PrintLast(schema: Schema, m: Config, order: seq<string>, styles: Styles, k: string)
    requires k in m && forall x :: x in order ==> x in m
    ensures forall x :: x in order + [k] ==> x in m
    ensures PrintEntries(schema, m, order + [k], styles)
         == PrintEntries(schema, m, order, styles) + PrintEntry(schema, k, m[k], styles(k))
  {
    var last := PrintEntry(schema, k, m[k], styles(k));
    if order == [] {
      assert [] + [k] == [k];
      assert PrintEntries(schema, m, [k], styles) == last + [];
    } else {
      var first := PrintEntry(schema, order[0], m[order[0]], styles(order[0]));
      var rest := PrintEntries(schema, m, order[1..], styles);
      PrintLast(schema, m, order[1..], styles, k);
      assert (order + [k])[0] == order[0] && (order + [k])[1..] == order[1..] + [k];
      assert PrintEntries(schema, m, order + [k], styles) == first + (rest + last);
      Associative(first, rest, last);
    }
  }

  /** stripRKE2Token: scans the entries, rewrites the first config entry in place and stops there.
      `raw` is None when the outer YAML does not parse. */
  method StripRKE2Token(schema: Schema, raw: Option<UserData>) returns (r: StripResult)
    ensures raw.None? ==> r == StripError
    ensures raw.Some? ==> IsStripped(schema, raw.value, r)
  {
    if raw.None? {
      return StripError;
    }
    var data := raw.value;
    var token := "";
    var i := 0;
    while i < |data.writeFiles|
      invariant i <= FirstConfig(raw.value.writeFiles) && data == raw.value && token == ""
    {
      if data.writeFiles[i].path == CONFIG_PATH {
        var parsed := ParseContent(schema, data.writeFiles[i].content);
        if parsed.None? {
          return StripError;
        }
        var config := parsed.value;
        if TOKEN in config && config[TOKEN].Str? {
          token := config[TOKEN].s;
        }
        if token == "" {
          return StripError;
        }
        config := config - {TOKEN};
        var updated := Marshal(schema, config);
        data := data.(writeFiles := data.writeFiles[i := data.writeFiles[i].(content := Text(updated))]);
        assert data == WithContent(raw.value, i, updated);
        return Stripped(data, token);
      }
      i := i + 1;
    }
    return Stripped(data, token);
  }

  /** mergeCloudInit; a None input is one that does not parse, an absent template is `EMPTY`. */
  method MergeCloudInit(static_: Option<UserData>, bootstrap: Option<UserData>, v: VaultParams) returns (r: Option<UserData>)
    ensures r == if static_.None? || bootstrap.None? then None else Some(Merge(static_.value, bootstrap.value, v))
  {
    if static_.None? || bootstrap.None? {
      return None;
    }
    var merged := UserData(static_.value.writeFiles + bootstrap.value.writeFiles,
                           static_.value.runCmd + bootstrap.value.runCmd,
                           static_.value.bootCmd + bootstrap.value.bootCmd);
    merged := merged.(writeFiles := VaultFiles(v) + merged.writeFiles);
    merged := merged.(runCmd := [Shell(RKE2_SCRIPT)] + merged.runCmd);
    return Some(merged);
  }

  /** BuildRancherAgentUserData: the fetch script and the agent in front of the static template. */
  method BuildRancherAgentUserData(static_: Option<UserData>, v: VaultParams, url: string) returns (r: Option<UserData>)
    ensures r == if static_.None? then None else Some(RancherAgent(static_.value, v, url))
  {
    if static_.None? {
      return None;
    }
    var files := RancherFiles(v, url);
    var commands := [Shell(RANCHER_SCRIPT), Shell(START_AGENT)];
    return Some(UserData(files + static_.value.writeFiles, commands + static_.value.runCmd, static_.value.bootCmd));
  }
}
