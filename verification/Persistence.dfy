/** `src/config/persistence.rs`: the two files a configuration is kept in, each replaced by a
    write to a temporary sibling and a rename, `secrets.json` first, and the load that puts
    them together again.

    A file is a value: encryption and JSON are taken as exact inverses of their readers.
    Every state the disk passes through is recorded, so that a claim about all of them is a
    claim about a process cut at any step. */
module Persistence {
  import opened Outcomes
  import opened Secrets
  import RunningConfig

  datatype Path = ConfigJson | SecretsJson | ConfigTmp | SecretsTmp

  /** `Blank` is a file of no bytes or only white space, `Torn` one cut off part way. */
  datatype File = ConfigFile(config: AppConfig) | SecretsFile(secrets: SecretsConfig) | Blank | Torn

  type Files = map<Path, File>

  /** What can go wrong in one replacement. */
  datatype Fault = NoFault | SeedFails | WriteRefused | WriteFails | RenameFails

  const DEFAULT_CONFIG := AppConfig(None, Server(None, None, ""), true, None, None, [], [], "")

  function Get(files: Files, p: Path): Option<File> {
    if p in files then Some(files[p]) else None
  }

  function TmpOf(p: Path): Path {
    if p == ConfigJson || p == ConfigTmp then ConfigTmp else SecretsTmp
  }

  // ---- Reading ----

  function NormalizeTunnel(t: Tunnel): Tunnel {
    if t.relayAddrs == [] && t.relayAddr.Some? then t.(relayAddrs := [t.relayAddr.value], relayAddr := None) else t
  }

  function NormalizeTunnels(ts: seq<Tunnel>): seq<Tunnel> {
    seq(|ts|, i requires 0 <= i < |ts| => NormalizeTunnel(ts[i]))
  }

  /** The legacy single relay address becomes a list of one. */
  function Normalize(c: AppConfig): AppConfig {
    c.(tunnels := NormalizeTunnels(c.tunnels))
  }

  predicate NoLegacyRelay(c: AppConfig) {
    forall i :: 0 <= i < |c.tunnels| ==> !(c.tunnels[i].relayAddrs == [] && c.tunnels[i].relayAddr.Some?)
  }

  /** The relays a tunnel dials: its list, or else the one legacy address. */
  function EffectiveRelays(t: Tunnel): seq<string> {
    if t.relayAddrs != [] then t.relayAddrs else if t.relayAddr.Some? then [t.relayAddr.value] else []
  }

  /** Reading the legacy address into the list changes no relay a tunnel dials, and nothing else. */
  lemma NormalizeKeepsRelays(t: Tunnel)
    ensures var n := NormalizeTunnel(t);
            && EffectiveRelays(n) == EffectiveRelays(t) == n.relayAddrs
            && n.id == t.id && n.keys == t.keys && n.direct == t.direct && n.settings == t.settings
            && (t.relayAddrs != [] ==> n == t)
  {}

  function ReadConfig(files: Files): Result<AppConfig, string> {
    match Get(files, ConfigJson)
    case None => Ok(DEFAULT_CONFIG)
    case Some(ConfigFile(c)) => Ok(Normalize(c))
    case Some(_) => Err("Failed to parse config file")
  }

  function ReadSecrets(f: File): Result<SecretsConfig, string> {
    match f
    case SecretsFile(s) => Ok(s)
    case Blank => Ok(NO_SECRETS)
    case _ => Err("Failed to parse secrets file")
  }

  /** The merge of a load. A `config.json` that predates the registration recorded in
      `secrets.json` still has the setup wizard open; the registration closed it. */
  function MergeOnLoad(s: SecretsConfig, c: AppConfig): AppConfig {
    var m := Merge(s, c);
    if RegisteredSince(s, c) && m.setupEnabled then m.(setupEnabled := false, setupToken := None) else m
  }

  /** The configuration a load returns when its own writes, if any, succeed. */
  function Loaded(files: Files): Result<AppConfig, string> {
    var rc := ReadConfig(files);
    if rc.Err? || SecretsJson !in files then rc
    else match ReadSecrets(files[SecretsJson])
         case Ok(s) => Ok(MergeOnLoad(s, rc.value))
         case Err(e) => Err(e)
  }

  /** When a load fails for what is on disk: a `config.json` that cannot be parsed, or a `secrets.json`
      that cannot. A missing `config.json` is the default configuration, and a blank `secrets.json` is
      the same as none. */
  lemma LoadAnswers(files: Files)
    ensures Loaded(files).Err? <==>
            || (ConfigJson in files && !files[ConfigJson].ConfigFile?)
            || (SecretsJson in files && !files[SecretsJson].SecretsFile? && !files[SecretsJson].Blank?)
    ensures ConfigJson !in files && SecretsJson !in files ==> Loaded(files) == Ok(DEFAULT_CONFIG)
    ensures SecretsJson in files && files[SecretsJson].Blank? ==> Loaded(files) == Loaded(files - {SecretsJson})
  {
    if SecretsJson in files && files[SecretsJson].Blank? {
      var without := files - {SecretsJson};
      assert Get(without, ConfigJson) == Get(files, ConfigJson);
      if ReadConfig(files).Ok? { NothingToMerge(ReadConfig(files).value); }
    }
  }

  lemma NothingToMerge(c: AppConfig)
    ensures MergeOnLoad(NO_SECRETS, c) == c
  {
    assert MergeTunnels(map[], c.tunnels) == c.tunnels && MergeUplinks(map[], c.uplinks) == c.uplinks;
  }

  /** A `config.json` holding secrets beside no `secrets.json` is split by the load. */
  predicate Migrates(files: Files) {
    SecretsJson !in files && ConfigJson in files && ReadConfig(files).Ok? && HasSecrets(ReadConfig(files).value)
  }

  // ---- Writing ----

  /** Every state of the disk while one file is replaced. */
  function ReplaceVisits(files: Files, p: Path, content: File, fault: Fault): seq<Files> {
    var tmp := TmpOf(p);
    match fault
    case SeedFails => []
    case WriteRefused => [files - {tmp}]
    case WriteFails => [files[tmp := Torn], files - {tmp}]
    case RenameFails => [files[tmp := Torn], files[tmp := content], files - {tmp}]
    case NoFault => [files[tmp := Torn], files[tmp := content], (files - {tmp})[p := content]]
  }

  /** The states up to the failure, or to the end: `ReplaceVisits` before any cleaning up. */
  function AttemptVisits(files: Files, p: Path, content: File, fault: Fault): seq<Files> {
    var tmp := TmpOf(p);
    match fault
    case SeedFails | WriteRefused => []
    case WriteFails => [files[tmp := Torn]]
    case RenameFails => [files[tmp := Torn], files[tmp := content]]
    case NoFault => [files[tmp := Torn], files[tmp := content], (files - {tmp})[p := content]]
  }

  lemma AttemptThenCleanUp(files: Files, p: Path, content: File, fault: Fault)
    ensures var tried := AttemptVisits(files, p, content, fault);
            ReplaceVisits(files, p, content, fault) ==
              if fault.NoFault? || fault.SeedFails? then tried else tried + [EndOf(files, tried) - {TmpOf(p)}]
  {
    var tmp := TmpOf(p);
    assert files[tmp := Torn] - {tmp} == files - {tmp} && files[tmp := content] - {tmp} == files - {tmp};
  }

  function EndOf(files: Files, visits: seq<Files>): Files {
    if visits == [] then files else visits[|visits| - 1]
  }

  /** Nothing to hold and no file to replace: `secrets.json` is not written. */
  predicate SkipsSecrets(files: Files, c: AppConfig) {
    IsEmpty(Extract(c)) && SecretsJson !in files
  }

  predicate SecretsSaved(files: Files, c: AppConfig, fault: Fault) {
    SkipsSecrets(files, c) || fault.NoFault?
  }

  function SaveSecretsVisits(files: Files, c: AppConfig, fault: Fault): seq<Files> {
    if SkipsSecrets(files, c) then [] else ReplaceVisits(files, SecretsJson, SecretsFile(Extract(c)), fault)
  }

  function SaveVisits(files: Files, c: AppConfig, f1: Fault, f2: Fault): seq<Files> {
    var first := SaveSecretsVisits(files, c, f1);
    if SecretsSaved(files, c, f1)
    then first + ReplaceVisits(EndOf(files, first), ConfigJson, ConfigFile(Strip(c)), f2)
    else first
  }

  function LoadVisits(files: Files, f1: Fault, f2: Fault): seq<Files> {
    if !f1.SeedFails? && Migrates(files) then SaveVisits(files, ReadConfig(files).value, f1, f2) else []
  }

  function LoadResult(files: Files, f1: Fault, f2: Fault): Result<AppConfig, string> {
    if f1.SeedFails? || (Migrates(files) && !(f1.NoFault? && f2.NoFault?)) then Err("load failed") else Loaded(files)
  }

  class Disk {
    var files: Files
    ghost var visited: seq<Files>

    constructor (files: Files)
      ensures this.files == files && visited == []
    {
      this.files, visited := files, [];
    }

    /** The write to the temporary and the rename over the file. */
    method WriteAndRename(p: Path, content: File, fault: Fault) returns (ok: bool)
      requires p == ConfigJson || p == SecretsJson
      modifies this
      ensures ok <==> fault.NoFault?
      ensures visited == old(visited) + AttemptVisits(old(files), p, content, fault)
      ensures files == EndOf(old(files), AttemptVisits(old(files), p, content, fault))
    {
      var tmp := TmpOf(p);
      if fault.SeedFails? || fault.WriteRefused? { return false; }
      files := files[tmp := Torn];
      visited := visited + [files];
      if fault.WriteFails? { return false; }
      files := files[tmp := content];
      assert files == old(files)[tmp := content];
      visited := visited + [files];
      if fault.RenameFails? { return false; }
      files := (files - {tmp})[p := content];
      assert files == (old(files) - {tmp})[p := content];
      visited := visited + [files];
      return true;
    }

    /** `replace_file`: a replacement that fails leaves the file as it was and no temporary;
        every state on the way is one `ReplaceVisits` lists. A seed that cannot be had stops the
        caller before it. */
    method ReplaceFile(p: Path, content: File, fault: Fault) returns (ok: bool)
      requires p == ConfigJson || p == SecretsJson
      modifies this
      ensures ok <==> fault.NoFault?
      ensures visited == old(visited) + ReplaceVisits(old(files), p, content, fault)
      ensures files == EndOf(old(files), ReplaceVisits(old(files), p, content, fault))
      ensures ok ==> Get(files, p) == Some(content)
      ensures !ok ==> Get(files, p) == Get(old(files), p)
      ensures !fault.SeedFails? ==> TmpOf(p) !in files
    {
      ok := WriteAndRename(p, content, fault);
      AttemptThenCleanUp(old(files), p, content, fault);
      if !ok && !fault.SeedFails? {
        files := files - {TmpOf(p)};
        visited := visited + [files];
      }
    }

    /** `save_split_secrets`. */
    method SaveSplitSecrets(c: AppConfig, fault: Fault) returns (ok: bool)
      modifies this
      ensures ok <==> SecretsSaved(old(files), c, fault)
      ensures visited == old(visited) + SaveSecretsVisits(old(files), c, fault)
      ensures files == EndOf(old(files), SaveSecretsVisits(old(files), c, fault))
    {
      var s := RunningConfig.ExtractFrom(c);
      if IsEmpty(s) && SecretsJson !in files { return true; }
      ok := ReplaceFile(SecretsJson, SecretsFile(s), fault);
    }

    /** `save_config_split`: `secrets.json` first, `config.json` only once that has landed. */
    method SaveConfigSplit(c: AppConfig, f1: Fault, f2: Fault) returns (ok: bool)
      modifies this
      ensures ok <==> SecretsSaved(old(files), c, f1) && f2.NoFault?
      ensures visited == old(visited) + SaveVisits(old(files), c, f1, f2)
      ensures files == EndOf(old(files), SaveVisits(old(files), c, f1, f2))
    {
      ok := SaveSplitSecrets(c, f1);
      if ok {
        var stripped := new RunningConfig.Config(c);
        stripped.StripSecrets();
        ok := ReplaceFile(ConfigJson, ConfigFile(stripped.Value()), f2);
      }
    }

    /** `load_config_split`. */
    method LoadConfigSplit(f1: Fault, f2: Fault) returns (r: Result<AppConfig, string>)
      modifies this
      ensures r.Ok? <==> LoadResult(old(files), f1, f2).Ok?
      ensures r.Ok? ==> r == LoadResult(old(files), f1, f2)
      ensures visited == old(visited) + LoadVisits(old(files), f1, f2)
      ensures files == EndOf(old(files), LoadVisits(old(files), f1, f2))
    {
      var rc := ReadConfig(files);
      if f1.SeedFails? || rc.Err? { return Err("load failed"); }
      if SecretsJson in files {
        var rs := ReadSecrets(files[SecretsJson]);
        if rs.Err? { return Err(rs.error); }
        var registeredSince := RegisteredSince(rs.value, rc.value);
        var config := new RunningConfig.Config(rc.value);
        config.MergeFrom(rs.value);
        if registeredSince && config.setupEnabled {
          config.setupEnabled, config.setupToken := false, None;
        }
        return Ok(config.Value());
      }
      var hasSecrets := RunningConfig.FindSecret(rc.value);
      HasSecretsIffExtracted(rc.value);
      if ConfigJson in files && hasSecrets {
        var ok := SaveConfigSplit(rc.value, f1, f2);
        if !ok { return Err("load failed"); }
      }
      return rc;
    }
  }

  // ---- What every cut leaves ----

  /** How far a save has come at the `i`-th state of the disk: 0 while `secrets.json` is the
      old one, 1 once it is the new one, 2 once `config.json` is too. */
  function Stage(files: Files, c: AppConfig, f1: Fault, f2: Fault, i: nat): nat {
    var n := |SaveSecretsVisits(files, c, f1)|;
    if i + 1 < n || !SecretsSaved(files, c, f1) then 0 else if f2.NoFault? && i == n + 2 then 2 else 1
  }

  /** The two files at a stage; the temporaries are read by nothing. */
  predicate AtStage(files: Files, c: AppConfig, stage: nat, v: Files) {
    && Get(v, SecretsJson) ==
         (if stage == 0 || SkipsSecrets(files, c) then Get(files, SecretsJson) else Some(SecretsFile(Extract(c))))
    && Get(v, ConfigJson) == (if stage < 2 then Get(files, ConfigJson) else Some(ConfigFile(Strip(c))))
  }

  lemma ReplaceTouchesOneFile(files: Files, p: Path, content: File, fault: Fault, i: nat)
    requires p == ConfigJson || p == SecretsJson
    requires i < |ReplaceVisits(files, p, content, fault)|
    ensures var v := ReplaceVisits(files, p, content, fault)[i];
            && Get(v, p) == (if fault.NoFault? && i == 2 then Some(content) else Get(files, p))
            && forall q :: q != p && q != TmpOf(p) ==> Get(v, q) == Get(files, q)
  {}

  /** Whatever fails and wherever the save is cut, the disk is at one of the three stages. */
  lemma SaveStages(files: Files, c: AppConfig, f1: Fault, f2: Fault, i: nat)
    requires i < |SaveVisits(files, c, f1, f2)|
    ensures AtStage(files, c, Stage(files, c, f1, f2, i), SaveVisits(files, c, f1, f2)[i])
  {
    var first := SaveSecretsVisits(files, c, f1);
    if i < |first| {
      ReplaceTouchesOneFile(files, SecretsJson, SecretsFile(Extract(c)), f1, i);
    } else {
      if !SkipsSecrets(files, c) { ReplaceTouchesOneFile(files, SecretsJson, SecretsFile(Extract(c)), f1, 2); }
      ReplaceTouchesOneFile(EndOf(files, first), ConfigJson, ConfigFile(Strip(c)), f2, i - |first|);
    }
  }

  lemma LoadReadsTwoFiles(a: Files, b: Files)
    requires Get(a, ConfigJson) == Get(b, ConfigJson) && Get(a, SecretsJson) == Get(b, SecretsJson)
    ensures Loaded(a) == Loaded(b) && Migrates(a) == Migrates(b)
  {
    assert SecretsJson in a <==> SecretsJson in b;
    assert ConfigJson in a <==> ConfigJson in b;
  }

  // ---- A completed save ----

  lemma NormalizeIsIdentity(c: AppConfig)
    ensures Normalize(c) == c <==> NoLegacyRelay(c)
    ensures Normalize(Strip(c)) == Strip(Normalize(c))
    ensures NoLegacyRelay(Normalize(c))
  {
    if Normalize(c) == c {
      forall i | 0 <= i < |c.tunnels|
        ensures !(c.tunnels[i].relayAddrs == [] && c.tunnels[i].relayAddr.Some?)
      { assert Normalize(c).tunnels[i] == NormalizeTunnel(c.tunnels[i]); }
    }
    assert Normalize(Strip(c)).tunnels == Strip(Normalize(c)).tunnels;
  }

  lemma {:induction false} NormalizeKeepsEntries(ts: seq<Tunnel>)
    ensures TunnelEntries(NormalizeTunnels(ts)) == TunnelEntries(ts)
  {
    if ts != [] {
      NormalizeKeepsEntries(ts[..|ts| - 1]);
      assert NormalizeTunnels(ts)[..|ts| - 1] == NormalizeTunnels(ts[..|ts| - 1]);
    }
  }

  lemma NormalizeKeepsSecrets(c: AppConfig)
    ensures Extract(Normalize(c)) == Extract(c)
    ensures SameKeysPerId(Normalize(c)) <==> SameKeysPerId(c)
  {
    NormalizeKeepsEntries(c.tunnels);
    var n := NormalizeTunnels(c.tunnels);
    assert forall i :: 0 <= i < |n| ==> n[i].id == c.tunnels[i].id && n[i].keys == c.tunnels[i].keys;
  }

  lemma StrippingNothing(c: AppConfig)
    requires !HasSecrets(c)
    ensures Strip(c) == c && SameKeysPerId(c)
  {
    assert StripTunnels(c.tunnels) == c.tunnels;
    assert StripUplinks(c.uplinks) == c.uplinks;
  }

  /** A load from both files of `c` never reads them as a registration cut short. */
  lemma OwnFilesMerge(c: AppConfig)
    ensures MergeOnLoad(Extract(c), Normalize(Strip(c))) == Merge(Extract(Normalize(c)), Strip(Normalize(c)))
  {
    NormalizeIsIdentity(c);
    NormalizeKeepsSecrets(c);
  }

  /** What both new files load as. */
  lemma StageTwoLoads(files: Files, c: AppConfig, v: Files)
    requires AtStage(files, c, 2, v)
    ensures Loaded(v) == Ok(Normalize(c)) <==> SameKeysPerId(c)
  {
    NormalizeIsIdentity(c);
    NormalizeKeepsSecrets(c);
    assert ConfigJson in v && v[ConfigJson] == ConfigFile(Strip(c));
    if SkipsSecrets(files, c) {
      HasSecretsIffExtracted(c);
      StrippingNothing(c);
      assert SecretsJson !in v;
    } else {
      assert SecretsJson in v && v[SecretsJson] == SecretsFile(Extract(c));
      OwnFilesMerge(c);
      SplitThenMerge(Normalize(c));
    }
  }

  /** The split files give the configuration back: whatever the disk held before, a load after
      a completed save returns exactly what was saved, if and only if no tunnel uses the legacy
      relay field and tunnels of one id (uplinks of one interface) hold the same secrets. */
  lemma SaveThenLoad(files: Files, c: AppConfig)
    ensures Loaded(EndOf(files, SaveVisits(files, c, NoFault, NoFault))) == Ok(c) <==>
              SameKeysPerId(c) && NoLegacyRelay(c)
  {
    var visits := SaveVisits(files, c, NoFault, NoFault);
    SaveStages(files, c, NoFault, NoFault, |visits| - 1);
    StageTwoLoads(files, c, visits[|visits| - 1]);
    NormalizeIsIdentity(c);
    var end := Loaded(visits[|visits| - 1]);
    if end == Ok(c) {
      LoadedIsNormal(visits[|visits| - 1]);
    }
  }

  lemma LoadedIsNormal(files: Files)
    requires Loaded(files).Ok?
    ensures NoLegacyRelay(Loaded(files).value)
  {
    var c := ReadConfig(files).value;
    if Get(files, ConfigJson).Some? { NormalizeIsIdentity(files[ConfigJson].config); }
    assert NoLegacyRelay(c);
    if SecretsJson in files {
      assert Loaded(files).value.tunnels == MergeTunnels(ReadSecrets(files[SecretsJson]).value.tunnels, c.tunnels);
    }
  }

  /** A save with nothing to hold makes no `secrets.json`, and one that exists is emptied rather than
      removed: it never keeps a secret the configuration has dropped. */
  lemma EmptySave(files: Files, c: AppConfig)
    requires !HasSecrets(c)
    ensures var end := EndOf(files, SaveVisits(files, c, NoFault, NoFault));
            && (SecretsJson in end <==> SecretsJson in files)
            && (SecretsJson in files ==> end[SecretsJson] == SecretsFile(NO_SECRETS))
  {
    HasSecretsIffExtracted(c);
    var visits := SaveVisits(files, c, NoFault, NoFault);
    SaveStages(files, c, NoFault, NoFault, |visits| - 1);
    assert Extract(c) == NO_SECRETS;
  }

  // ---- The node's credentials across a cut ----

  /** The node secret a configuration presents, with the node ID it presents it under. */
  function Credentials(c: AppConfig): Option<(Option<string>, Option<string>)> {
    if c.manager.Some? then Some((c.manager.value.nodeId, c.manager.value.nodeSecret)) else None
  }

  /** `config.json` as a save leaves it, with a manager block. */
  predicate HoldsManager(files: Files) {
    && Get(files, ConfigJson).Some? && files[ConfigJson].ConfigFile?
    && files[ConfigJson].config.manager.Some? && files[ConfigJson].config.manager.value.nodeSecret.None?
    && (SecretsJson in files ==> ReadSecrets(files[SecretsJson]).Ok?)
  }

  /** A save of `c`, cut at any step, with any failure: a load returns the old credentials until
      `secrets.json` has landed and the new ones from then on. Between the two renames the new
      ones are whole exactly when the new secret carries a node ID, or no stale one is left. */
  lemma CutLoadsOnePair(files: Files, c: AppConfig, f1: Fault, f2: Fault, i: nat)
    requires HoldsManager(files)
    requires c.manager.Some? && c.manager.value.nodeSecret.Some?
    requires i < |SaveVisits(files, c, f1, f2)|
    ensures var v := SaveVisits(files, c, f1, f2)[i];
            var stage := Stage(files, c, f1, f2, i);
            && Loaded(v).Ok? && Loaded(files).Ok?
            && (stage == 0 ==> Credentials(Loaded(v).value) == Credentials(Loaded(files).value))
            && (stage == 1 ==> (Credentials(Loaded(v).value) == Credentials(c) <==>
                 c.manager.value.nodeId.Some? || files[ConfigJson].config.manager.value.nodeId.None?))
            && (stage == 2 ==> Credentials(Loaded(v).value) == Credentials(c))
  {
    SaveStages(files, c, f1, f2, i);
    var v := SaveVisits(files, c, f1, f2)[i];
    if Stage(files, c, f1, f2, i) == 0 { LoadReadsTwoFiles(v, files); }
    assert !SkipsSecrets(files, c);
    assert ConfigJson in v && (SecretsJson in v || Stage(files, c, f1, f2, i) == 0);
  }

  // ---- Migration of a plaintext config.json ----

  lemma MigrationStageOne(files: Files, v: Files)
    requires Migrates(files) && SameKeysPerId(ReadConfig(files).value)
    requires AtStage(files, ReadConfig(files).value, 1, v)
    ensures Loaded(v) == Loaded(files)
  {
    var c := ReadConfig(files).value;
    HasSecretsIffExtracted(c);
    assert SecretsJson in v && v[SecretsJson] == SecretsFile(Extract(c));
    MergeKeepsWhatIsHeld(c);
    assert ReadConfig(v) == ReadConfig(files);
  }

  lemma MigrationCut(files: Files, f1: Fault, f2: Fault, i: nat)
    requires Migrates(files) && SameKeysPerId(ReadConfig(files).value)
    requires i < |LoadVisits(files, f1, f2)|
    ensures Loaded(LoadVisits(files, f1, f2)[i]) == Loaded(files)
  {
    var c := ReadConfig(files).value;
    SaveStages(files, c, f1, f2, i);
    var v := LoadVisits(files, f1, f2)[i];
    match Stage(files, c, f1, f2, i)
    case 0 => LoadReadsTwoFiles(v, files);
    case 1 => MigrationStageOne(files, v);
    case _ =>
      StageTwoLoads(files, c, v);
      NormalizeIsIdentity(files[ConfigJson].config);
      NormalizeIsIdentity(c);
  }

  /** Splitting a plaintext `config.json` is crash-safe: cut at any step and with any failure,
      the next load returns what the uninterrupted one would have, exactly when tunnels of one id
      (uplinks of one interface) hold the same secrets. */
  lemma MigrationIsCrashSafe(files: Files)
    requires Migrates(files)
    ensures (forall f1, f2, i :: 0 <= i < |LoadVisits(files, f1, f2)| ==>
            Loaded(LoadVisits(files, f1, f2)[i]) == Loaded(files))
            <==> SameKeysPerId(ReadConfig(files).value)
  {
    var c := ReadConfig(files).value;
    if SameKeysPerId(c) {
      forall f1, f2, i | 0 <= i < |LoadVisits(files, f1, f2)|
        ensures Loaded(LoadVisits(files, f1, f2)[i]) == Loaded(files)
      { MigrationCut(files, f1, f2, i); }
    } else {
      HasSecretsIffExtracted(c);
      var visits := LoadVisits(files, NoFault, NoFault);
      SaveStages(files, c, NoFault, NoFault, 5);
      StageTwoLoads(files, c, visits[5]);
      NormalizeIsIdentity(files[ConfigJson].config);
      NormalizeIsIdentity(c);
    }
  }
}
