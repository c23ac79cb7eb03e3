/** Whole lives of a node: starts, saves, registrations with the manager, secret rotations,
    configuration `PUT`s and edits, with any write failing and the process cut at any step.
    Registration and rotation are `persist_credentials` and `save_node_secret` in
    `src/manager/client.rs`. */
module NodeRuns {
  import opened Outcomes
  import opened Secrets
  import opened Persistence
  import opened ConfigPut

  /** How a save or a load goes: what fails, and the disk state the process is cut at, if it is. */
  datatype Plan = Plan(f1: Fault, f2: Fault, cut: Option<nat>)

  datatype Node = Node(files: Files, running: Option<AppConfig>)

  datatype Event =
    | Start(plan: Plan)
    | Halt
    | Edit(to: AppConfig, plan: Plan)
    | Register(id: string, secret: string, plan: Plan)
    | Rotate(id: string, secret: string, plan: Plan)
    | PutConfig(body: Body, plan: Plan)
    | OperatorEdit(file: AppConfig)

  function CutAt(files: Files, visits: seq<Files>, cut: Option<nat>): Files {
    if cut.Some? && cut.value < |visits| then visits[cut.value] else EndOf(files, visits)
  }

  /** The node after saving `c`, which is what it runs. */
  function Saved(n: Node, c: AppConfig, p: Plan): Node {
    Node(CutAt(n.files, SaveVisits(n.files, c, p.f1, p.f2), p.cut), if p.cut.Some? then None else Some(c))
  }

  /** The manager's answer to a registration: the spent token goes, the pair is taken, and the
      setup wizard closes. */
  function Registered(c: AppConfig, id: string, secret: string): AppConfig {
    var c1 := if c.manager.Some? then c.(manager := Some(WithPair(c.manager.value, id, secret))) else c;
    if c1.setupEnabled then c1.(setupEnabled := false, setupToken := None) else c1
  }

  function WithPair(m: Manager, id: string, secret: string): Manager {
    m.(registrationToken := None, nodeId := Some(id), nodeSecret := Some(secret))
  }

  predicate Enabled(n: Node, e: Event) {
    match e
    case Start(_) => n.running.None?
    case OperatorEdit(_) => n.running.None?
    case Halt => true
    case Rotate(_, _, _) => n.running.Some? && n.running.value.manager.Some?
    case _ => n.running.Some?
  }

  function Step(n: Node, e: Event): Node
    requires Enabled(n, e)
  {
    match e
    case Start(p) =>
      var r := LoadResult(n.files, p.f1, p.f2);
      Node(CutAt(n.files, LoadVisits(n.files, p.f1, p.f2), p.cut),
           if p.cut.None? && r.Ok? then Some(r.value) else None)
    case Halt => n.(running := None)
    case Edit(to, p) => Saved(n, to, p)
    case Register(id, secret, p) => Saved(n, Registered(n.running.value, id, secret), p)
    case Rotate(id, secret, p) =>
      var c := n.running.value;
      var next := c.(manager := Some(WithPair(c.manager.value, id, secret)));
      // A rotation `secrets.json` did not take is refused: the running configuration is as it was.
      var after := Saved(n, next, p);
      if p.cut.None? && !SecretsSaved(n.files, next, p.f1) then after.(running := Some(c)) else after
    case PutConfig(b, p) => Saved(n, PutValue(n.running.value, b), p)
    case OperatorEdit(file) => n.(files := n.files[ConfigJson := ConfigFile(file)])
  }

  /** What a node that is not cut runs after a registration: the pair it was given and no token, the
      wizard closed and its token gone with it, and all else as it was. */
  lemma RegistrationTakesPair(n: Node, id: string, secret: string, p: Plan)
    requires n.running.Some? && n.running.value.manager.Some? && p.cut.None?
    ensures var c, after := n.running.value, Step(n, Register(id, secret, p)).running;
            && after.Some? && after.value.manager.Some?
            && var d, m := after.value, after.value.manager.value;
               && m.nodeId == Some(id) && m.nodeSecret == Some(secret) && m.registrationToken == None
               && m.settings == c.manager.value.settings
               && !d.setupEnabled && d.setupToken == (if c.setupEnabled then None else c.setupToken)
               && d.server == c.server && d.nmos == c.nmos && d.tunnels == c.tunnels && d.uplinks == c.uplinks
               && d.settings == c.settings
  {}

  /** A rotation whose secret was saved leaves the new pair running and touches nothing else. */
  lemma RotationTakesPair(n: Node, id: string, secret: string, p: Plan)
    requires n.running.Some? && n.running.value.manager.Some? && p.cut.None? && p.f1.NoFault?
    ensures var c, after := n.running.value, Step(n, Rotate(id, secret, p)).running;
            && after.Some? && after.value.manager.Some?
            && var d, m := after.value, after.value.manager.value;
               && m.nodeId == Some(id) && m.nodeSecret == Some(secret) && m.registrationToken == None
               && m.settings == c.manager.value.settings && d == c.(manager := Some(m))
  {}

  // ---- Every secret is held with its own node ID ----

  /** `issued` gives the node ID each secret was issued for. */
  predicate PairHeld(issued: string -> string, nodeId: Option<string>, nodeSecret: Option<string>) {
    nodeSecret.Some? ==> nodeId == Some(issued(nodeSecret.value))
  }

  predicate ConfigHolds(issued: string -> string, c: AppConfig) {
    c.manager.Some? ==> PairHeld(issued, c.manager.value.nodeId, c.manager.value.nodeSecret)
  }

  predicate FilesHold(issued: string -> string, files: Files) {
    && (ConfigJson in files && files[ConfigJson].ConfigFile? ==> ConfigHolds(issued, files[ConfigJson].config))
    && (SecretsJson in files && files[SecretsJson].SecretsFile? ==>
          PairHeld(issued, files[SecretsJson].secrets.nodeId, files[SecretsJson].secrets.nodeSecret))
  }

  predicate NodeHolds(issued: string -> string, n: Node) {
    FilesHold(issued, n.files) && (n.running.Some? ==> ConfigHolds(issued, n.running.value))
  }

  /** What is asked of the outside: a pair the manager issues, or that a body, an edit or a
      hand-written file names, is one that belongs together. */
  predicate Honest(issued: string -> string, e: Event) {
    match e
    case Edit(to, _) => ConfigHolds(issued, to)
    case Register(id, secret, _) => issued(secret) == id
    case Rotate(id, secret, _) => issued(secret) == id
    case PutConfig(b, _) =>
      b.manager.Named? && b.manager.value.nodeSecret.Named? ==>
        b.manager.value.nodeId == Named(issued(b.manager.value.nodeSecret.value))
    case OperatorEdit(file) => ConfigHolds(issued, file)
    case _ => true
  }

  lemma LoadHolds(issued: string -> string, files: Files)
    requires FilesHold(issued, files)
    ensures Loaded(files).Ok? ==> ConfigHolds(issued, Loaded(files).value)
  {
    var rc := ReadConfig(files);
    assert rc.Ok? ==> ConfigHolds(issued, rc.value);
  }

  lemma CutSaveHolds(issued: string -> string, files: Files, c: AppConfig, p: Plan)
    requires FilesHold(issued, files) && ConfigHolds(issued, c)
    ensures FilesHold(issued, CutAt(files, SaveVisits(files, c, p.f1, p.f2), p.cut))
  {
    var visits := SaveVisits(files, c, p.f1, p.f2);
    if visits != [] {
      var i := if p.cut.Some? && p.cut.value < |visits| then p.cut.value else |visits| - 1;
      SaveStages(files, c, p.f1, p.f2, i);
      StagesHold(issued, files, c, Stage(files, c, p.f1, p.f2, i), visits[i]);
    }
  }

  lemma StagesHold(issued: string -> string, files: Files, c: AppConfig, stage: nat, v: Files)
    requires FilesHold(issued, files) && ConfigHolds(issued, c) && AtStage(files, c, stage, v)
    ensures FilesHold(issued, v)
  {
    assert Get(v, ConfigJson).Some? <==> ConfigJson in v;
    assert Get(v, SecretsJson).Some? <==> SecretsJson in v;
  }

  lemma PutHolds(issued: string -> string, c: AppConfig, b: Body)
    requires ConfigHolds(issued, c) && Honest(issued, PutConfig(b, Plan(NoFault, NoFault, None)))
    ensures ConfigHolds(issued, PutValue(c, b))
  {}

  lemma StepHolds(issued: string -> string, n: Node, e: Event)
    requires NodeHolds(issued, n) && Enabled(n, e) && Honest(issued, e)
    ensures NodeHolds(issued, Step(n, e))
  {
    match e
    case Start(p) =>
      LoadHolds(issued, n.files);
      if Migrates(n.files) { CutSaveHolds(issued, n.files, ReadConfig(n.files).value, p); }
    case Halt =>
    case Edit(to, p) => CutSaveHolds(issued, n.files, to, p);
    case Register(id, secret, p) => CutSaveHolds(issued, n.files, Registered(n.running.value, id, secret), p);
    case Rotate(id, secret, p) =>
      var c := n.running.value;
      CutSaveHolds(issued, n.files, c.(manager := Some(WithPair(c.manager.value, id, secret))), p);
    case PutConfig(b, p) =>
      PutHolds(issued, n.running.value, b);
      CutSaveHolds(issued, n.files, PutValue(n.running.value, b), p);
    case OperatorEdit(_) =>
  }

  predicate HonestRun(issued: string -> string, n: Node, es: seq<Event>)
    decreases |es|
  {
    es == [] || (Enabled(n, es[0]) && Honest(issued, es[0]) && HonestRun(issued, Step(n, es[0]), es[1..]))
  }

  function After(issued: string -> string, n: Node, es: seq<Event>): Node
    requires HonestRun(issued, n, es)
    decreases |es|
  {
    if es == [] then n else After(issued, Step(n, es[0]), es[1..])
  }

  /** Over every run, whatever fails and wherever the process is cut: a node secret that is
      running, or that the next load brings back, is held with the node ID it was issued for. */
  lemma {:induction false} SecretKeepsItsNodeId(issued: string -> string, n: Node, es: seq<Event>)
    requires NodeHolds(issued, n) && HonestRun(issued, n, es)
    ensures var m := After(issued, n, es);
            && (m.running.Some? ==> ConfigHolds(issued, m.running.value))
            && (Loaded(m.files).Ok? ==> ConfigHolds(issued, Loaded(m.files).value))
    decreases |es|
  {
    if es == [] {
      LoadHolds(issued, n.files);
    } else {
      StepHolds(issued, n, es[0]);
      SecretKeepsItsNodeId(issued, Step(n, es[0]), es[1..]);
    }
  }

  // ---- The setup wizard after a registration ----

  /** A node with both halves of a pair, and the wizard as said. */
  predicate RunsAs(c: AppConfig, open: bool) {
    c.setupEnabled == open && c.manager.Some? && c.manager.value.nodeId.Some? && c.manager.value.nodeSecret.Some?
  }

  /** The `config.json` on disk has the wizard open and holds that node ID. */
  predicate OpenUnder(files: Files, id: Option<string>) {
    && ConfigJson in files && files[ConfigJson].ConfigFile?
    && var c := files[ConfigJson].config; c.setupEnabled && c.manager.Some? && c.manager.value.nodeId == id
  }

  /** A registered node: `secrets.json` holds a pair, and a load, or a save of what runs cut half way,
      has the wizard open exactly when `open`. */
  predicate WizardIs(n: Node, open: bool) {
    && SecretsJson in n.files && n.files[SecretsJson].SecretsFile?
    && n.files[SecretsJson].secrets.nodeSecret.Some? && n.files[SecretsJson].secrets.nodeId.Some?
    && ConfigJson in n.files && n.files[ConfigJson].ConfigFile?
    && n.files[ConfigJson].config.manager.Some? && n.files[ConfigJson].config.manager.value.nodeSecret.None?
    && (OpenUnder(n.files, n.files[SecretsJson].secrets.nodeId) <==> open)
    && (n.running.Some? ==>
          RunsAs(n.running.value, open) && (OpenUnder(n.files, n.running.value.manager.value.nodeId) <==> open))
  }

  /** Events that leave the wizard as it is. A registration, under any ID, leaves it closed unless the
      `config.json` on disk has it open under that ID; a `PUT` names the manager and keeps its pair. */
  predicate LeavesWizard(n: Node, open: bool, e: Event)
    requires WizardIs(n, open) && Enabled(n, e)
  {
    match e
    case Start(_) | Halt => true
    case Edit(to, _) => RunsAs(to, open) && to.manager.value.nodeId == n.running.value.manager.value.nodeId
    case Register(id, _, _) => !open && !OpenUnder(n.files, Some(id))
    case Rotate(id, _, _) => OpenUnder(n.files, Some(id)) <==> open
    case PutConfig(b, _) =>
      b.setupEnabled == open && b.manager.Named? && b.manager.value.nodeSecret.Absent? && !b.manager.value.nodeId.Null?
    case OperatorEdit(file) =>
      && file.manager.Some? && file.manager.value.nodeSecret.None?
      && ((file.setupEnabled && file.manager.value.nodeId == n.files[SecretsJson].secrets.nodeId) <==> open)
  }

  lemma StageReads(files: Files, c: AppConfig, stage: nat, v: Files, open: bool)
    requires WizardIs(Node(files, None), open) && RunsAs(c, open) && AtStage(files, c, stage, v)
    requires OpenUnder(files, c.manager.value.nodeId) <==> open
    ensures WizardIs(Node(v, Some(c)), open)
  {
    assert Get(v, ConfigJson).Some? <==> ConfigJson in v;
    assert Get(v, SecretsJson).Some? <==> SecretsJson in v;
  }

  lemma CutSaveReads(files: Files, c: AppConfig, p: Plan, open: bool)
    requires WizardIs(Node(files, None), open) && RunsAs(c, open)
            && (OpenUnder(files, c.manager.value.nodeId) <==> open)
    ensures WizardIs(Node(CutAt(files, SaveVisits(files, c, p.f1, p.f2), p.cut), Some(c)), open)
  {
    var visits := SaveVisits(files, c, p.f1, p.f2);
    if visits != [] {
      var i := if p.cut.Some? && p.cut.value < |visits| then p.cut.value else |visits| - 1;
      SaveStages(files, c, p.f1, p.f2, i);
      StageReads(files, c, Stage(files, c, p.f1, p.f2, i), visits[i], open);
    }
  }

  lemma LoadRunsAs(files: Files, open: bool)
    requires WizardIs(Node(files, None), open)
    ensures Loaded(files).Ok? && RunsAs(Loaded(files).value, open)
    ensures Loaded(files).value.manager.value.nodeId == files[SecretsJson].secrets.nodeId
  {}

  /** A `PUT` that names the manager and leaves its secret out keeps the pair. */
  lemma PutKeepsPair(c: AppConfig, b: Body, open: bool)
    requires RunsAs(c, open) && b.setupEnabled == open
    requires b.manager.Named? && b.manager.value.nodeSecret.Absent? && !b.manager.value.nodeId.Null?
    ensures RunsAs(PutValue(c, b), open) && PutValue(c, b).manager.value.nodeId == c.manager.value.nodeId
  {}

  lemma StepLeavesWizard(n: Node, open: bool, e: Event)
    requires WizardIs(n, open) && Enabled(n, e) && LeavesWizard(n, open, e)
    ensures WizardIs(Step(n, e), open)
  {
    match e
    case Start(p) => LoadRunsAs(n.files, open);
    case Halt =>
    case Edit(to, p) => CutSaveReads(n.files, to, p, open);
    case Register(id, secret, p) => CutSaveReads(n.files, Registered(n.running.value, id, secret), p, open);
    case Rotate(id, secret, p) =>
      var c := n.running.value;
      CutSaveReads(n.files, c.(manager := Some(WithPair(c.manager.value, id, secret))), p, open);
      if p.cut.None? && !SecretsSaved(n.files, c.(manager := Some(WithPair(c.manager.value, id, secret))), p.f1) {
        UnsavedRotationStays(n, id, secret, p);
      }
    case PutConfig(b, p) =>
      PutKeepsPair(n.running.value, b, open);
      CutSaveReads(n.files, PutValue(n.running.value, b), p, open);
    case OperatorEdit(_) =>
  }

  /** A rotation that could not save its secret leaves both files as they read before. */
  lemma UnsavedRotationStays(n: Node, id: string, secret: string, p: Plan)
    requires n.running.Some? && n.running.value.manager.Some? && p.cut.None?
    requires var c := n.running.value;
             !SecretsSaved(n.files, c.(manager := Some(WithPair(c.manager.value, id, secret))), p.f1)
    ensures var after := Step(n, Rotate(id, secret, p));
            && after.running == n.running
            && Get(after.files, ConfigJson) == Get(n.files, ConfigJson)
                && Get(after.files, SecretsJson) == Get(n.files, SecretsJson)
  {
    var c := n.running.value;
    var next := c.(manager := Some(WithPair(c.manager.value, id, secret)));
    var visits := SaveVisits(n.files, next, p.f1, p.f2);
    if visits != [] { SaveStages(n.files, next, p.f1, p.f2, |visits| - 1); }
  }

  predicate QuietRun(n: Node, open: bool, es: seq<Event>)
    requires WizardIs(n, open)
    decreases |es|
  {
    es == [] ||
    (&& Enabled(n, es[0]) && LeavesWizard(n, open, es[0])
     && (StepLeavesWizard(n, open, es[0]); QuietRun(Step(n, es[0]), open, es[1..])))
  }

  function AfterQuiet(n: Node, open: bool, es: seq<Event>): (m: Node)
    requires WizardIs(n, open) && QuietRun(n, open, es)
    ensures WizardIs(m, open)
    decreases |es|
  {
    if es == [] then n
    else
      StepLeavesWizard(n, open, es[0]);
      AfterQuiet(Step(n, es[0]), open, es[1..])
  }

  /** The wizard stays as it is, closed or open, through every later start, save, failure, cut and
      re-registration. */
  lemma WizardStays(n: Node, open: bool, es: seq<Event>)
    requires WizardIs(n, open) && QuietRun(n, open, es)
    ensures var m := AfterQuiet(n, open, es);
            && (m.running.Some? ==> m.running.value.setupEnabled == open)
            && Loaded(m.files).Ok? && Loaded(m.files).value.setupEnabled == open
  {
    LoadRunsAs(AfterQuiet(n, open, es).files, open);
  }

  /** A load that finds the wizard open in a `config.json` older than the registration closes it, and
      the wizard's token goes too. */
  lemma ClosedWizardHasNoToken(n: Node)
    requires WizardIs(n, false) && n.files[ConfigJson].config.setupEnabled
    ensures Loaded(n.files).Ok? && !Loaded(n.files).value.setupEnabled && Loaded(n.files).value.setupToken == None
  {
    LoadRunsAs(n.files, false);
  }

  /** How far the save of a registration has come when the node is next seen. */
  function RegistrationStage(n: Node, id: string, secret: string, p: Plan): nat
    requires n.running.Some?
  {
    var c := Registered(n.running.value, id, secret);
    var visits := SaveVisits(n.files, c, p.f1, p.f2);
    if visits == [] then 0
    else Stage(n.files, c, p.f1, p.f2, if p.cut.Some? && p.cut.value < |visits| then p.cut.value else |visits| - 1)
  }

  /** Once a registration's `secrets.json` has landed, the wizard is closed for every later run
      even if `config.json` never did, unless that file has the wizard open and already holds
      the node ID the registration gave: then, and only then, the next start opens it. */
  lemma RegistrationClosesWizard(n: Node, id: string, secret: string, p: Plan)
    requires n.running.Some? && n.running.value.manager.Some? && HoldsManager(n.files)
    requires RegistrationStage(n, id, secret, p) >= 1
    ensures var reopens := RegistrationStage(n, id, secret, p) == 1 && OpenUnder(n.files, Some(id));
            var after := Step(n, Register(id, secret, p));
            && (!reopens ==> WizardIs(after, false))
            && Loaded(after.files).Ok? && Loaded(after.files).value.setupEnabled == reopens
  {
    var c := Registered(n.running.value, id, secret);
    var visits := SaveVisits(n.files, c, p.f1, p.f2);
    var i := if p.cut.Some? && p.cut.value < |visits| then p.cut.value else |visits| - 1;
    SaveStages(n.files, c, p.f1, p.f2, i);
    var v := visits[i];
    assert Step(n, Register(id, secret, p)).files == v;
    assert !SkipsSecrets(n.files, c);
    assert ConfigJson in v && SecretsJson in v && v[SecretsJson] == SecretsFile(Extract(c));
    var reopens := RegistrationStage(n, id, secret, p) == 1 && OpenUnder(n.files, Some(id));
    assert WizardIs(Node(v, None), reopens);
    LoadRunsAs(v, reopens);
  }

  /** An operator who re-opens the wizard by editing `config.json`, which holds the node ID by
      then, finds it open. */
  lemma OperatorReopensWizard(n: Node, file: AppConfig)
    requires WizardIs(n, false) && n.running.None?
    requires file.manager.Some? && file.manager.value.nodeSecret.None?
    requires file.setupEnabled && file.manager.value.nodeId == n.files[SecretsJson].secrets.nodeId
    ensures WizardIs(Step(n, OperatorEdit(file)), true)
  {}
}
