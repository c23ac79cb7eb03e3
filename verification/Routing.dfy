/** Inputs, outputs and the flows that refer to them, as the handlers of `src/api/inputs.rs`,
    `src/api/outputs.rs` and `src/api/flows.rs` edit them under the config's write guard. What the
    validators, the engine and the disk answer are part of a request. */
module Routing {
  import opened Outcomes

  datatype Entity = Entity(id: string, active: bool, body: string)
  datatype Flow = Flow(id: string, inputIds: seq<string>, outputIds: seq<string>, enabled: bool)
  datatype Config = Config(inputs: seq<Entity>, outputs: seq<Entity>, flows: seq<Flow>)

  datatype Status = Done | BadRequest | NotFound | Conflict | Internal

  /** `valid` is what the checks before the write guard or the identity checks say, `fits` what those
      after them say, `rest` what the rules of `validate_config` not modelled here say; `running`,
      `restarts`, `restores` and `detaches` how the engine answers. */
  datatype Request =
    | CreateInput(entity: Entity, valid: bool, fits: bool)
    | UpdateInput(id: string, entity: Entity, valid: bool, fits: bool, running: bool, restarts: bool, restores: bool)
    | DeleteInput(id: string)
    | CreateOutput(entity: Entity, valid: bool, fits: bool)
    | UpdateOutput(id: string, entity: Entity, valid: bool, fits: bool)
    | DeleteOutput(id: string)
    | CreateFlow(flow: Flow, valid: bool, runningFlows: set<string>)
    | DeleteFlow(id: string)
    | AddOutput(flowId: string, outputId: string)
    | RemoveOutput(flowId: string, outputId: string, detaches: bool)
    | ActivateInput(flowId: string, inputId: string, rest: bool)

  // ---- Lists ----

  function At(es: seq<Entity>, id: string): (i: nat)
    ensures i <= |es|
    ensures i < |es| ==> es[i].id == id
    ensures forall j :: 0 <= j < i ==> es[j].id != id
  {
    if es == [] then 0 else if es[0].id == id then 0 else 1 + At(es[1..], id)
  }

  predicate Has(es: seq<Entity>, id: string) { exists i :: 0 <= i < |es| && es[i].id == id }

  function FlowAt(fs: seq<Flow>, id: string): (i: nat)
    ensures i <= |fs|
    ensures i < |fs| ==> fs[i].id == id
    ensures forall j :: 0 <= j < i ==> fs[j].id != id
  {
    if fs == [] then 0 else if fs[0].id == id then 0 else 1 + FlowAt(fs[1..], id)
  }

  function IdAt(ids: seq<string>, id: string): (i: nat)
    ensures i <= |ids|
    ensures i < |ids| ==> ids[i] == id
    ensures forall j :: 0 <= j < i ==> ids[j] != id
  {
    if ids == [] then 0 else if ids[0] == id then 0 else 1 + IdAt(ids[1..], id)
  }

  function Without(es: seq<Entity>, id: string): seq<Entity> {
    if es == [] then [] else if es[0].id == id then Without(es[1..], id) else [es[0]] + Without(es[1..], id)
  }

  predicate UsesInput(fs: seq<Flow>, id: string) { exists i :: 0 <= i < |fs| && id in fs[i].inputIds }

  predicate UsesOutput(fs: seq<Flow>, id: string) { exists i :: 0 <= i < |fs| && id in fs[i].outputIds }

  predicate UsedElsewhere(fs: seq<Flow>, flowId: string, outputId: string) {
    exists i :: 0 <= i < |fs| && fs[i].id != flowId && outputId in fs[i].outputIds
  }

  /** The first flow that uses an input. */
  function UserOf(fs: seq<Flow>, id: string): (i: nat)
    ensures i <= |fs|
    ensures i < |fs| ==> id in fs[i].inputIds
    ensures forall j :: 0 <= j < i ==> id !in fs[j].inputIds
  {
    if fs == [] then 0 else if id in fs[0].inputIds then 0 else 1 + UserOf(fs[1..], id)
  }

  predicate Resolves(c: Config, f: Flow) {
    (forall id <- f.inputIds :: Has(c.inputs, id)) && (forall id <- f.outputIds :: Has(c.outputs, id))
  }

  predicate Shares(a: seq<string>, b: seq<string>) { exists k :: 0 <= k < |a| && a[k] in b }

  predicate NoRepeats(ids: seq<string>) { forall i, j :: 0 <= i < j < |ids| ==> ids[i] != ids[j] }

  /** `refuse_input_held_elsewhere`: another flow that is enabled or running holds one of the inputs. */
  predicate HeldElsewhere(fs: seq<Flow>, f: Flow, runningFlows: set<string>) {
    exists i :: 0 <= i < |fs| && fs[i].id != f.id && (fs[i].enabled || fs[i].id in runningFlows)
        && Shares(f.inputIds, fs[i].inputIds)
  }

  // ---- The rules for IDs, references and assignments ----

  predicate FlowWired(f: Flow) { NoRepeats(f.inputIds) && NoRepeats(f.outputIds) }

  /** Enabled flows share no input and no output. */
  predicate Compatible(f: Flow, g: Flow) {
    f.enabled && g.enabled ==> !Shares(f.inputIds, g.inputIds) && !Shares(f.outputIds, g.outputIds)
  }

  predicate Wired(fs: seq<Flow>) {
    (forall i :: 0 <= i < |fs| ==> FlowWired(fs[i])) && (forall i, j :: 0 <= i < j < |fs| ==> Compatible(fs[i], fs[j]))
  }

  predicate DistinctIds(es: seq<Entity>) { forall i, j :: 0 <= i < j < |es| ==> es[i].id != es[j].id }

  predicate DistinctFlows(fs: seq<Flow>) { forall i, j :: 0 <= i < j < |fs| ==> fs[i].id != fs[j].id }

  predicate AllResolve(c: Config) { forall i :: 0 <= i < |c.flows| ==> Resolves(c, c.flows[i]) }

  /** The rules `validate_config` has for IDs, references and assignments. Its other rules, on each
      entity alone and on shapes, groups, epoch locks and devices, are not among them. A start and an
      activation both run it, and refuse a configuration that breaks any. */
  predicate RoutesValid(c: Config) {
    DistinctIds(c.inputs) && DistinctIds(c.outputs) && DistinctFlows(c.flows) && AllResolve(c) && Wired(c.flows)
  }

  /** The activation loop: members of the flow are switched, other inputs are not. */
  function Switched(es: seq<Entity>, members: seq<string>, chosen: string): seq<Entity> {
    seq(|es|, i requires 0 <= i < |es| => if es[i].id in members then es[i].(active := es[i].id == chosen) else es[i])
  }

  // ---- Requests ----

  /** An edit stays in memory whether or not the disk takes it. */
  function Saved(c: Config, saved: bool): (Config, Status) { (c, if saved then Done else Internal) }

  function Update(c: Config, r: Request, saved: bool): (Config, Status)
    requires r.UpdateInput?
  {
    var i := At(c.inputs, r.id);
    if !r.valid then (c, BadRequest)
    else if i == |c.inputs| then (c, NotFound)
    else if !r.fits then (c, BadRequest)
    else
      var edited := Entity(r.id, c.inputs[i].active, r.entity.body);
      var u := UserOf(c.flows, r.id);
      if u < |c.flows| && c.flows[u].enabled && r.running && c.inputs[i].body != edited.body && !r.restarts
      then (c, if r.restores then Conflict else Internal)
      else Saved(c.(inputs := c.inputs[i := edited]), saved)
  }

  function Assign(c: Config, flowId: string, outputId: string, saved: bool): (Config, Status) {
    var i := FlowAt(c.flows, flowId);
    if i == |c.flows| || !Has(c.outputs, outputId) then (c, NotFound)
    else if outputId in c.flows[i].outputIds || UsedElsewhere(c.flows, flowId, outputId) then (c, Conflict)
    else Saved(c.(flows := c.flows[i := c.flows[i].(outputIds := c.flows[i].outputIds + [outputId])]), saved)
  }

  /** The write section of `remove_output`; the runtime has answered by then. */
  function Unassign(c: Config, flowId: string, outputId: string, detaches: bool, saved: bool): (Config, Status) {
    var i := FlowAt(c.flows, flowId);
    if !detaches then (c, Conflict)
    else if i == |c.flows| then (c, NotFound)
    else
      var ids := c.flows[i].outputIds;
      var k := IdAt(ids, outputId);
      if k == |ids| then (c, NotFound)
      else Saved(c.(flows := c.flows[i := c.flows[i].(outputIds := ids[..k] + ids[k + 1..])]), saved)
  }

  function Activate(c: Config, flowId: string, inputId: string, rest: bool, saved: bool): (Config, Status) {
    var i := FlowAt(c.flows, flowId);
    if i == |c.flows| then (c, NotFound)
    else if inputId !in c.flows[i].inputIds then (c, BadRequest)
    else
      var switched := c.(inputs := Switched(c.inputs, c.flows[i].inputIds, inputId));
      if !(RoutesValid(switched) && rest) then (switched, BadRequest) else Saved(switched, saved)
  }

  function Handle(c: Config, r: Request, saved: bool): (Config, Status) {
    match r
    case CreateInput(e, valid, fits) =>
      if !valid then (c, BadRequest)
      else if Has(c.inputs, e.id) || Has(c.outputs, e.id) then (c, Conflict)
      else if !fits then (c, BadRequest)
      else Saved(c.(inputs := c.inputs + [e]), saved)
    case UpdateInput(_, _, _, _, _, _, _) => Update(c, r, saved)
    case DeleteInput(id) =>
      if UsesInput(c.flows, id) then (c, Conflict)
      else if !Has(c.inputs, id) then (c, NotFound)
      else Saved(c.(inputs := Without(c.inputs, id)), saved)
    case CreateOutput(e, valid, fits) =>
      if !valid then (c, BadRequest)
      else if Has(c.outputs, e.id) || Has(c.inputs, e.id) then (c, Conflict)
      else if !fits then (c, BadRequest)
      else Saved(c.(outputs := c.outputs + [e]), saved)
    case UpdateOutput(id, e, valid, fits) =>
      var i := At(c.outputs, id);
      if e.id != id || !valid then (c, BadRequest)
      else if i == |c.outputs| then (c, NotFound)
      else if !fits then (c, BadRequest)
      else Saved(c.(outputs := c.outputs[i := e.(active := c.outputs[i].active)]), saved)
    case DeleteOutput(id) =>
      if UsesOutput(c.flows, id) then (c, Conflict)
      else if !Has(c.outputs, id) then (c, NotFound)
      else Saved(c.(outputs := Without(c.outputs, id)), saved)
    case CreateFlow(f, valid, runningFlows) =>
      if !valid || (f.enabled && HeldElsewhere(c.flows, f, runningFlows)) then (c, BadRequest)
      else if FlowAt(c.flows, f.id) < |c.flows| then (c, Conflict)
      else if !Resolves(c, f) then (c, BadRequest)
      else Saved(c.(flows := c.flows + [f]), saved)
    case DeleteFlow(id) =>
      var i := FlowAt(c.flows, id);
      if i == |c.flows| then (c, NotFound) else Saved(c.(flows := c.flows[..i] + c.flows[i + 1..]), saved)
    case AddOutput(flowId, outputId) => Assign(c, flowId, outputId, saved)
    case RemoveOutput(flowId, outputId, detaches) => Unassign(c, flowId, outputId, detaches, saved)
    case ActivateInput(flowId, inputId, rest) => Activate(c, flowId, inputId, rest, saved)
  }

  function After(c: Config, rs: seq<(Request, bool)>): Config {
    if rs == [] then c else Handle(After(c, rs[..|rs| - 1]), rs[|rs| - 1].0, rs[|rs| - 1].1).0
  }

  // ---- The invariant ----

  predicate Apart(a: seq<Entity>, b: seq<Entity>) {
    forall i, j :: 0 <= i < |a| && 0 <= j < |b| ==> a[i].id != b[j].id
  }

  predicate Sound(c: Config) {
    DistinctIds(c.inputs) && DistinctIds(c.outputs) && Apart(c.inputs, c.outputs) && DistinctFlows(c.flows)
        && AllResolve(c)
  }

  predicate SameIds(a: seq<Entity>, b: seq<Entity>) { |a| == |b| && forall i :: 0 <= i < |a| ==> a[i].id == b[i].id }

  lemma SameIdsHave(a: seq<Entity>, b: seq<Entity>, id: string)
    requires SameIds(a, b)
    ensures Has(a, id) <==> Has(b, id)
  {
    if Has(a, id) { var i :| 0 <= i < |a| && a[i].id == id; assert b[i].id == id; }
    if Has(b, id) { var i :| 0 <= i < |b| && b[i].id == id; assert a[i].id == id; }
  }

  /** Edits that keep every ID keep the whole invariant. */
  lemma SameIdsKeepSound(c: Config, d: Config)
    requires Sound(c) && SameIds(c.inputs, d.inputs) && SameIds(c.outputs, d.outputs) && c.flows == d.flows
    ensures Sound(d)
  {
    forall id ensures Has(c.inputs, id) <==> Has(d.inputs, id) { SameIdsHave(c.inputs, d.inputs, id); }
    forall id ensures Has(c.outputs, id) <==> Has(d.outputs, id) { SameIdsHave(c.outputs, d.outputs, id); }
    assert forall i :: 0 <= i < |c.flows| ==> Resolves(c, c.flows[i]);
  }

  lemma AppendHas(es: seq<Entity>, e: Entity, id: string)
    ensures Has(es + [e], id) <==> Has(es, id) || id == e.id
  {
    if Has(es, id) { var i :| 0 <= i < |es| && es[i].id == id; assert (es + [e])[i].id == id; }
    if id == e.id { assert (es + [e])[|es|].id == id; }
  }

  lemma {:induction false} WithoutHas(es: seq<Entity>, gone: string, id: string)
    ensures Has(Without(es, gone), id) <==> Has(es, id) && id != gone
  {
    if es != [] {
      WithoutHas(es[1..], gone, id);
      HasFirst(es, id);
      if es[0].id != gone {
        var rest := Without(es[1..], gone);
        assert ([es[0]] + rest)[1..] == rest;
        HasFirst([es[0]] + rest, id);
      }
    }
  }

  lemma HasFirst(es: seq<Entity>, id: string)
    requires es != []
    ensures Has(es, id) <==> es[0].id == id || Has(es[1..], id)
  {
    if Has(es, id) && es[0].id != id {
      var i :| 0 <= i < |es| && es[i].id == id;
      assert es[1..][i - 1].id == id;
    }
    if Has(es[1..], id) {
      var i :| 0 <= i < |es[1..]| && es[1..][i].id == id;
      assert es[i + 1].id == id;
    }
  }

  lemma {:induction false} WithoutDistinct(es: seq<Entity>, gone: string)
    requires DistinctIds(es)
    ensures DistinctIds(Without(es, gone))
  {
    if es != [] {
      WithoutDistinct(es[1..], gone);
      var rest := Without(es[1..], gone);
      if es[0].id != gone {
        forall j | 0 <= j < |rest| ensures rest[j].id != es[0].id {
          WithoutHas(es[1..], gone, rest[j].id);
          var k :| 0 <= k < |es[1..]| && es[1..][k].id == rest[j].id;
          assert es[k + 1].id == rest[j].id;
        }
      }
    }
  }

  /** What `Apart` says of membership. */
  lemma ApartHas(a: seq<Entity>, b: seq<Entity>)
    ensures Apart(a, b) <==> forall id :: !(Has(a, id) && Has(b, id))
  {
    if !Apart(a, b) {
      var i, j :| 0 <= i < |a| && 0 <= j < |b| && a[i].id == b[j].id;
      assert Has(a, a[i].id) && Has(b, a[i].id);
    }
  }

  /** Entities come and go without breaking a reference, if none that goes is used. */
  lemma EntitiesKeepResolving(c: Config, d: Config)
    requires AllResolve(c) && c.flows == d.flows
    requires forall id :: Has(c.inputs, id) && UsesInput(c.flows, id) ==> Has(d.inputs, id)
    requires forall id :: Has(c.outputs, id) && UsesOutput(c.flows, id) ==> Has(d.outputs, id)
    ensures AllResolve(d)
  {
    forall i | 0 <= i < |d.flows| ensures Resolves(d, d.flows[i]) {
      assert Resolves(c, c.flows[i]);
      forall id | id in d.flows[i].inputIds ensures Has(d.inputs, id) { assert UsesInput(c.flows, id); }
      forall id | id in d.flows[i].outputIds ensures Has(d.outputs, id) { assert UsesOutput(c.flows, id); }
    }
  }

  lemma CreateKeepsSound(c: Config, e: Entity, d: Config)
    requires Sound(c) && !Has(c.inputs, e.id) && !Has(c.outputs, e.id)
    requires d == c.(inputs := c.inputs + [e]) || d == c.(outputs := c.outputs + [e])
    ensures Sound(d)
  {
    forall id ensures Has(c.inputs + [e], id) <==> Has(c.inputs, id) || id == e.id { AppendHas(c.inputs, e, id); }
    forall id ensures Has(c.outputs + [e], id) <==> Has(c.outputs, id) || id == e.id { AppendHas(c.outputs, e, id); }
    ApartHas(c.inputs, c.outputs);
    ApartHas(d.inputs, d.outputs);
    EntitiesKeepResolving(c, d);
  }

  lemma DeleteKeepsSound(c: Config, id: string, d: Config)
    requires Sound(c)
    requires || (d == c.(inputs := Without(c.inputs, id)) && !UsesInput(c.flows, id))
             || (d == c.(outputs := Without(c.outputs, id)) && !UsesOutput(c.flows, id))
    ensures Sound(d)
  {
    forall x ensures Has(Without(c.inputs, id), x) <==> Has(c.inputs, x) && x != id { WithoutHas(c.inputs, id, x); }
    forall x ensures Has(Without(c.outputs, id), x) <==> Has(c.outputs, x) && x != id { WithoutHas(c.outputs, id, x); }
    WithoutDistinct(c.inputs, id);
    WithoutDistinct(c.outputs, id);
    ApartHas(c.inputs, c.outputs);
    ApartHas(d.inputs, d.outputs);
    EntitiesKeepResolving(c, d);
  }

  lemma FlowEditKeepsSound(c: Config, d: Config)
    requires Sound(c) && c.inputs == d.inputs && c.outputs == d.outputs && DistinctFlows(d.flows)
    requires forall i :: 0 <= i < |d.flows| ==> Resolves(c, d.flows[i])
    ensures Sound(d)
  {}

  lemma ReplacedFlowKeepsSound(c: Config, i: nat, f: Flow)
    requires Sound(c) && i < |c.flows| && f.id == c.flows[i].id && Resolves(c, f)
    ensures Sound(c.(flows := c.flows[i := f]))
  {
    assert forall j :: 0 <= j < |c.flows| ==> Resolves(c, c.flows[j]);
    FlowEditKeepsSound(c, c.(flows := c.flows[i := f]));
  }

  lemma RemovedFlowKeepsSound(c: Config, i: nat)
    requires Sound(c) && i < |c.flows|
    ensures Sound(c.(flows := c.flows[..i] + c.flows[i + 1..]))
  {
    assert forall j :: 0 <= j < |c.flows| ==> Resolves(c, c.flows[j]);
    FlowEditKeepsSound(c, c.(flows := c.flows[..i] + c.flows[i + 1..]));
  }

  lemma NewFlowKeepsSound(c: Config, f: Flow)
    requires Sound(c) && Resolves(c, f) && FlowAt(c.flows, f.id) == |c.flows|
    ensures Sound(c.(flows := c.flows + [f]))
  {
    assert forall j :: 0 <= j < |c.flows| ==> Resolves(c, c.flows[j]);
    FlowEditKeepsSound(c, c.(flows := c.flows + [f]));
  }

  lemma AssignKeepsSound(c: Config, flowId: string, outputId: string, saved: bool)
    requires Sound(c)
    ensures Sound(Assign(c, flowId, outputId, saved).0)
  {
    var i := FlowAt(c.flows, flowId);
    if i < |c.flows| && Has(c.outputs, outputId) {
      assert Resolves(c, c.flows[i]);
      ReplacedFlowKeepsSound(c, i, c.flows[i].(outputIds := c.flows[i].outputIds + [outputId]));
    }
  }

  lemma UnassignKeepsSound(c: Config, flowId: string, outputId: string, detaches: bool, saved: bool)
    requires Sound(c)
    ensures Sound(Unassign(c, flowId, outputId, detaches, saved).0)
  {
    var i := FlowAt(c.flows, flowId);
    if i < |c.flows| {
      var ids := c.flows[i].outputIds;
      var k := IdAt(ids, outputId);
      assert Resolves(c, c.flows[i]);
      if k < |ids| {
        assert forall x <- ids[..k] + ids[k + 1..] :: x in ids;
        ReplacedFlowKeepsSound(c, i, c.flows[i].(outputIds := ids[..k] + ids[k + 1..]));
      }
    }
  }

  lemma FlowRequestKeepsSound(c: Config, r: Request, saved: bool)
    requires Sound(c) && (r.CreateFlow? || r.DeleteFlow? || r.AddOutput? || r.RemoveOutput?)
    ensures Sound(Handle(c, r, saved).0)
  {
    match r
    case CreateFlow(f, _, _) =>
      if Resolves(c, f) && FlowAt(c.flows, f.id) == |c.flows| { NewFlowKeepsSound(c, f); }
    case DeleteFlow(id) =>
      if FlowAt(c.flows, id) < |c.flows| { RemovedFlowKeepsSound(c, FlowAt(c.flows, id)); }
    case AddOutput(flowId, outputId) => AssignKeepsSound(c, flowId, outputId, saved);
    case RemoveOutput(flowId, outputId, detaches) => UnassignKeepsSound(c, flowId, outputId, detaches, saved);
  }

  lemma EntityRequestKeepsSound(c: Config, r: Request, saved: bool)
    requires Sound(c) && (r.CreateInput? || r.CreateOutput? || r.DeleteInput? || r.DeleteOutput?)
    ensures Sound(Handle(c, r, saved).0)
  {
    var d := Handle(c, r, saved).0;
    if d != c {
      match r
      case CreateInput(e, _, _) => CreateKeepsSound(c, e, d);
      case CreateOutput(e, _, _) => CreateKeepsSound(c, e, d);
      case DeleteInput(id) => DeleteKeepsSound(c, id, d);
      case DeleteOutput(id) => DeleteKeepsSound(c, id, d);
    }
  }

  lemma UpdateKeepsIds(c: Config, r: Request, saved: bool)
    requires r.UpdateInput? || r.UpdateOutput?
    ensures var d := Handle(c, r, saved).0;
            SameIds(c.inputs, d.inputs) && SameIds(c.outputs, d.outputs) && c.flows == d.flows
  {}

  lemma ActivationKeepsIds(c: Config, r: Request, saved: bool)
    requires r.ActivateInput?
    ensures var d := Handle(c, r, saved).0;
            SameIds(c.inputs, d.inputs) && c.outputs == d.outputs && c.flows == d.flows
  {}

  lemma EditsKeepSound(c: Config, r: Request, saved: bool)
    requires Sound(c) && (r.UpdateInput? || r.UpdateOutput? || r.ActivateInput?)
    ensures Sound(Handle(c, r, saved).0) && Handle(c, r, saved).0.flows == c.flows
  {
    if r.ActivateInput? { ActivationKeepsIds(c, r, saved); } else { UpdateKeepsIds(c, r, saved); }
    SameIdsKeepSound(c, Handle(c, r, saved).0);
  }

  lemma StepKeepsSound(c: Config, r: Request, saved: bool)
    requires Sound(c)
    ensures Sound(Handle(c, r, saved).0)
  {
    if r.CreateInput? || r.CreateOutput? || r.DeleteInput? || r.DeleteOutput? {
      EntityRequestKeepsSound(c, r, saved);
    } else if r.UpdateInput? || r.UpdateOutput? || r.ActivateInput? {
      EditsKeepSound(c, r, saved);
    } else {
      FlowRequestKeepsSound(c, r, saved);
    }
  }

  /** Over every run of requests, whatever the validators, the engine and the disk answer: IDs stay
      distinct across inputs and outputs, flow IDs stay distinct, and every reference resolves. */
  lemma {:induction false} EveryRunKeepsSound(c: Config, rs: seq<(Request, bool)>)
    requires Sound(c)
    ensures Sound(After(c, rs))
  {
    if rs != [] {
      EveryRunKeepsSound(c, rs[..|rs| - 1]);
      StepKeepsSound(After(c, rs[..|rs| - 1]), rs[|rs| - 1].0, rs[|rs| - 1].1);
    }
  }

  // ---- Which requests break those rules ----

  lemma SharesBothWays(a: seq<string>, b: seq<string>)
    ensures Shares(a, b) <==> Shares(b, a)
  {
    if Shares(a, b) {
      var k :| 0 <= k < |a| && a[k] in b;
      var j :| 0 <= j < |b| && b[j] == a[k];
      assert b[j] in a;
    }
    if Shares(b, a) {
      var k :| 0 <= k < |b| && b[k] in a;
      var j :| 0 <= j < |a| && a[j] == b[k];
      assert a[j] in b;
    }
  }

  lemma CompatibleBothWays(f: Flow, g: Flow)
    ensures Compatible(f, g) <==> Compatible(g, f)
  {
    SharesBothWays(f.inputIds, g.inputIds);
    SharesBothWays(f.outputIds, g.outputIds);
  }

  lemma WiredAppend(fs: seq<Flow>, f: Flow)
    ensures Wired(fs + [f]) <==> Wired(fs) && FlowWired(f) && forall i :: 0 <= i < |fs| ==> Compatible(fs[i], f)
  {
    var after := fs + [f];
    assert forall i :: 0 <= i < |fs| ==> after[i] == fs[i];
    assert after[|fs|] == f;
    if Wired(after) { assert forall i :: 0 <= i < |fs| ==> Compatible(after[i], after[|fs|]); }
  }

  lemma WiredRemove(fs: seq<Flow>, i: nat)
    requires Wired(fs) && i < |fs|
    ensures Wired(fs[..i] + fs[i + 1..])
  {}

  lemma WiredReplace(fs: seq<Flow>, i: nat, f: Flow)
    requires Wired(fs) && i < |fs| && FlowWired(f) && forall j :: 0 <= j < |fs| && j != i ==> Compatible(fs[j], f)
    ensures Wired(fs[i := f])
  {
    var after := fs[i := f];
    forall j, k | 0 <= j < k < |fs| ensures Compatible(after[j], after[k]) {
      if j == i { CompatibleBothWays(fs[k], f); }
    }
  }

  lemma AssignKeepsWired(c: Config, flowId: string, outputId: string, saved: bool)
    requires Sound(c) && Wired(c.flows)
    ensures Wired(Assign(c, flowId, outputId, saved).0.flows)
  {
    var i := FlowAt(c.flows, flowId);
    if Assign(c, flowId, outputId, saved).0 != c {
      var g := c.flows[i].(outputIds := c.flows[i].outputIds + [outputId]);
      forall j | 0 <= j < |c.flows| && j != i ensures Compatible(c.flows[j], g) {
        assert c.flows[j].id != flowId && outputId !in c.flows[j].outputIds;
        if j < i { assert Compatible(c.flows[j], c.flows[i]); } else { CompatibleBothWays(c.flows[i], c.flows[j]); }
        if c.flows[j].enabled && c.flows[i].enabled {
          WithOneMore(c.flows[j].outputIds, c.flows[i].outputIds, outputId);
        }
      }
      assert FlowWired(c.flows[i]);
      WiredReplace(c.flows, i, g);
    }
  }

  lemma WithOneMore(a: seq<string>, b: seq<string>, id: string)
    requires !Shares(a, b) && id !in a
    ensures !Shares(a, b + [id])
  {}

  lemma UnassignKeepsWired(c: Config, flowId: string, outputId: string, detaches: bool, saved: bool)
    requires Wired(c.flows)
    ensures Wired(Unassign(c, flowId, outputId, detaches, saved).0.flows)
  {
    var i := FlowAt(c.flows, flowId);
    if Unassign(c, flowId, outputId, detaches, saved).0 != c {
      var ids := c.flows[i].outputIds;
      var k := IdAt(ids, outputId);
      var fewer := ids[..k] + ids[k + 1..];
      assert forall x <- fewer :: x in ids;
      var g := c.flows[i].(outputIds := fewer);
      assert FlowWired(c.flows[i]);
      forall j | 0 <= j < |c.flows| && j != i ensures Compatible(c.flows[j], g) {
        if j < i { assert Compatible(c.flows[j], c.flows[i]); } else { CompatibleBothWays(c.flows[i], c.flows[j]); }
      }
      WiredReplace(c.flows, i, g);
    }
  }

  /** The one way these requests break the rules for IDs, references and assignments: a flow that
      `create_flow` accepts and that names an input or output twice, or, enabled, an output another
      enabled flow has. */
  predicate BreaksRoutes(c: Config, r: Request) {
    && r.CreateFlow? && r.valid && !(r.flow.enabled && HeldElsewhere(c.flows, r.flow, r.runningFlows))
    && FlowAt(c.flows, r.flow.id) == |c.flows| && Resolves(c, r.flow)
    && (|| !FlowWired(r.flow)
        || (r.flow.enabled
            && exists i :: 0 <= i < |c.flows| && c.flows[i].enabled && Shares(c.flows[i].outputIds, r.flow.outputIds)))
  }

  lemma CreateFlowWiredIff(c: Config, r: Request, saved: bool)
    requires Sound(c) && Wired(c.flows) && r.CreateFlow?
    ensures Wired(Handle(c, r, saved).0.flows) <==> !BreaksRoutes(c, r)
  {
    var f := r.flow;
    if Handle(c, r, saved).0 != c {
      WiredAppend(c.flows, f);
      forall i | 0 <= i < |c.flows| && f.enabled && c.flows[i].enabled
          ensures !Shares(c.flows[i].inputIds, f.inputIds) {
        SharesBothWays(f.inputIds, c.flows[i].inputIds);
      }
    }
  }

  lemma EntityRequestsKeepFlows(c: Config, r: Request, saved: bool)
    requires r.CreateInput? || r.CreateOutput? || r.DeleteInput? || r.DeleteOutput?
    ensures Handle(c, r, saved).0.flows == c.flows
  {}

  /** One request, from a configuration that keeps the rules: the result keeps them too, except exactly
      after such a `create_flow`. */
  lemma StepKeepsRoutesIff(c: Config, r: Request, saved: bool)
    requires Sound(c) && RoutesValid(c)
    ensures RoutesValid(Handle(c, r, saved).0) <==> !BreaksRoutes(c, r)
  {
    StepKeepsSound(c, r, saved);
    if r.CreateInput? || r.CreateOutput? || r.DeleteInput? || r.DeleteOutput? {
      EntityRequestsKeepFlows(c, r, saved);
    } else if r.UpdateInput? || r.UpdateOutput? || r.ActivateInput? {
      EditsKeepSound(c, r, saved);
    } else if r.CreateFlow? {
      CreateFlowWiredIff(c, r, saved);
    } else if r.AddOutput? {
      AssignKeepsWired(c, r.flowId, r.outputId, saved);
    } else if r.RemoveOutput? {
      UnassignKeepsWired(c, r.flowId, r.outputId, r.detaches, saved);
    } else if FlowAt(c.flows, r.id) < |c.flows| {
      WiredRemove(c.flows, FlowAt(c.flows, r.id));
    }
  }

  lemma AfterNext(c: Config, rs: seq<(Request, bool)>, n: nat)
    requires n < |rs|
    ensures After(c, rs[..n + 1]) == Handle(After(c, rs[..n]), rs[n].0, rs[n].1).0
  {
    assert rs[..n + 1][..n] == rs[..n];
  }

  lemma {:induction false} UnbrokenRoutes(c: Config, rs: seq<(Request, bool)>, n: nat)
    requires Sound(c) && RoutesValid(c) && n <= |rs|
    requires forall i :: 0 <= i < |rs| ==> !BreaksRoutes(After(c, rs[..i]), rs[i].0)
    ensures RoutesValid(After(c, rs[..n]))
  {
    if n == 0 {
      assert rs[..0] == [];
    } else {
      UnbrokenRoutes(c, rs, n - 1);
      EveryRunKeepsSound(c, rs[..n - 1]);
      AfterNext(c, rs, n - 1);
      StepKeepsRoutesIff(After(c, rs[..n - 1]), rs[n - 1].0, rs[n - 1].1);
    }
  }

  /** Over every run: the configuration after each request is one the next start accepts under its ID,
      reference and assignment rules, if and only if no request is a `create_flow` that doubles a
      reference or an enabled flow's output. */
  lemma EveryRunKeepsRoutesIff(c: Config, rs: seq<(Request, bool)>)
    requires Sound(c) && RoutesValid(c)
    ensures (forall n :: 0 <= n <= |rs| ==> RoutesValid(After(c, rs[..n])))
            <==> forall n :: 0 <= n < |rs| ==> !BreaksRoutes(After(c, rs[..n]), rs[n].0)
  {
    if forall n :: 0 <= n < |rs| ==> !BreaksRoutes(After(c, rs[..n]), rs[n].0) {
      forall n | 0 <= n <= |rs| ensures RoutesValid(After(c, rs[..n])) { UnbrokenRoutes(c, rs, n); }
    } else {
      var n :| 0 <= n < |rs| && BreaksRoutes(After(c, rs[..n]), rs[n].0);
      if RoutesValid(After(c, rs[..n])) {
        EveryRunKeepsSound(c, rs[..n]);
        AfterNext(c, rs, n);
        StepKeepsRoutesIff(After(c, rs[..n]), rs[n].0, rs[n].1);
      }
    }
  }

  // ---- Activation ----

  /** A successful activation leaves the requested member of the flow active and every other member
      passive; inputs that are not members, outputs and flows are as they were. */
  lemma ActivationIsExclusive(c: Config, flowId: string, inputId: string, rest: bool, saved: bool, j: nat)
    requires Activate(c, flowId, inputId, rest, saved).1 in {Done, Internal} && j < |c.inputs|
    ensures var d, members := Activate(c, flowId, inputId, rest, saved).0, c.flows[FlowAt(c.flows, flowId)].inputIds;
            && |d.inputs| == |c.inputs| && d.outputs == c.outputs && d.flows == c.flows
            && d.inputs[j].id == c.inputs[j].id && d.inputs[j].body == c.inputs[j].body
            && (c.inputs[j].id in members ==> (d.inputs[j].active <==> c.inputs[j].id == inputId))
            && (c.inputs[j].id !in members ==> d.inputs[j] == c.inputs[j])
  {}

  /** The flow has that member: exactly one of its inputs is active afterwards. */
  lemma ActivationActivatesOne(c: Config, flowId: string, inputId: string, rest: bool, saved: bool)
    requires Sound(c) && Activate(c, flowId, inputId, rest, saved).1 in {Done, Internal}
    ensures var d, members := Activate(c, flowId, inputId, rest, saved).0, c.flows[FlowAt(c.flows, flowId)].inputIds;
            exists j :: 0 <= j < |d.inputs| && d.inputs[j].id == inputId
              && forall k :: 0 <= k < |d.inputs| && d.inputs[k].id in members ==> (d.inputs[k].active <==> k == j)
  {
    var f := c.flows[FlowAt(c.flows, flowId)];
    assert Resolves(c, f);
    assert Has(c.inputs, inputId);
    var j :| 0 <= j < |c.inputs| && c.inputs[j].id == inputId;
    var d := Activate(c, flowId, inputId, rest, saved).0;
    assert d.inputs[j].id == inputId;
  }

  function ActiveOf(es: seq<Entity>, id: string): bool {
    var i := At(es, id);
    i < |es| && es[i].active
  }

  lemma {:induction false} AtAppend(es: seq<Entity>, e: Entity, id: string)
    requires At(es, id) < |es|
    ensures At(es + [e], id) == At(es, id)
  {
    if es[0].id != id {
      assert (es + [e])[1..] == es[1..] + [e];
      AtAppend(es[1..], e, id);
    }
  }

  lemma {:induction false} ActiveWithout(es: seq<Entity>, gone: string, id: string)
    requires id != gone
    ensures ActiveOf(Without(es, gone), id) == ActiveOf(es, id)
  {
    if es != [] {
      ActiveWithout(es[1..], gone, id);
      ActiveFirst(es, id);
      if es[0].id != gone {
        var rest := Without(es[1..], gone);
        assert ([es[0]] + rest)[1..] == rest;
        ActiveFirst([es[0]] + rest, id);
      }
    }
  }

  lemma ActiveFirst(es: seq<Entity>, id: string)
    requires es != []
    ensures ActiveOf(es, id) == if es[0].id == id then es[0].active else ActiveOf(es[1..], id)
  {}

  lemma SameFlagsSameActive(a: seq<Entity>, b: seq<Entity>, id: string)
    requires SameIds(a, b) && forall i :: 0 <= i < |a| ==> a[i].active == b[i].active
    ensures ActiveOf(a, id) == ActiveOf(b, id)
  {
    assert At(a, id) == At(b, id);
  }

  predicate KeepsFlag(a: seq<Entity>, b: seq<Entity>, id: string) {
    Has(a, id) && Has(b, id) ==> ActiveOf(a, id) == ActiveOf(b, id)
  }

  lemma HasIsAt(es: seq<Entity>, id: string)
    ensures Has(es, id) <==> At(es, id) < |es|
  {}

  lemma CreateKeepsFlag(es: seq<Entity>, e: Entity, id: string)
    requires !Has(es, e.id)
    ensures KeepsFlag(es, es + [e], id)
  {
    HasIsAt(es, id);
    if Has(es, id) { AtAppend(es, e, id); }
  }

  lemma DeleteKeepsFlag(es: seq<Entity>, gone: string, id: string)
    ensures KeepsFlag(es, Without(es, gone), id)
  {
    WithoutHas(es, gone, id);
    if id != gone { ActiveWithout(es, gone, id); }
  }

  lemma EditKeepsFlag(es: seq<Entity>, i: nat, e: Entity, id: string)
    requires i < |es| && e.id == es[i].id && e.active == es[i].active
    ensures KeepsFlag(es, es[i := e], id)
  {
    SameFlagsSameActive(es, es[i := e], id);
  }

  /** What a request makes of the inputs: nothing, one more, one fewer, or one edited in place. */
  lemma InputsAfter(c: Config, r: Request, saved: bool)
    requires !r.ActivateInput?
    ensures var after := Handle(c, r, saved).0.inputs;
            || after == c.inputs
            || (r.CreateInput? && !Has(c.inputs, r.entity.id) && after == c.inputs + [r.entity])
            || (r.DeleteInput? && after == Without(c.inputs, r.id))
            || (r.UpdateInput? && var i := At(c.inputs, r.id);
                 i < |c.inputs| && after == c.inputs[i := Entity(r.id, c.inputs[i].active, r.entity.body)])
  {}

  lemma OutputsAfter(c: Config, r: Request, saved: bool)
    ensures var after := Handle(c, r, saved).0.outputs;
            || after == c.outputs
            || (r.CreateOutput? && !Has(c.outputs, r.entity.id) && after == c.outputs + [r.entity])
            || (r.DeleteOutput? && after == Without(c.outputs, r.id))
            || (r.UpdateOutput? && var i := At(c.outputs, r.id);
                 i < |c.outputs| && r.entity.id == r.id
                 && after == c.outputs[i := r.entity.(active := c.outputs[i].active)])
  {}

  /** No request but an activation changes the `active` flag of an input that stays. */
  lemma OnlyActivationChangesInputFlags(c: Config, r: Request, saved: bool, id: string)
    requires !r.ActivateInput?
    ensures KeepsFlag(c.inputs, Handle(c, r, saved).0.inputs, id)
  {
    InputsAfter(c, r, saved);
    if Handle(c, r, saved).0.inputs != c.inputs {
      match r
      case CreateInput(e, _, _) => CreateKeepsFlag(c.inputs, e, id);
      case DeleteInput(gone) => DeleteKeepsFlag(c.inputs, gone, id);
      case UpdateInput(edited, e, _, _, _, _, _) =>
        var i := At(c.inputs, edited);
        EditKeepsFlag(c.inputs, i, Entity(edited, c.inputs[i].active, e.body), id);
    }
  }

  /** No request at all changes the `active` flag of an output that stays. */
  lemma NothingChangesOutputFlags(c: Config, r: Request, saved: bool, id: string)
    ensures KeepsFlag(c.outputs, Handle(c, r, saved).0.outputs, id)
  {
    OutputsAfter(c, r, saved);
    if Handle(c, r, saved).0.outputs != c.outputs {
      match r
      case CreateOutput(e, _, _) => CreateKeepsFlag(c.outputs, e, id);
      case DeleteOutput(gone) => DeleteKeepsFlag(c.outputs, gone, id);
      case UpdateOutput(edited, e, _, _) =>
        var i := At(c.outputs, edited);
        EditKeepsFlag(c.outputs, i, e.(active := c.outputs[i].active), id);
    }
  }

  // ---- Refusals ----

  /** The activation names a member of the flow, the configuration it would leave is one `validate_config`
      refuses, as it did before, and some member's flag is not already what was asked for. */
  predicate FlipsAndRefuses(c: Config, r: Request) {
    && r.ActivateInput? && !(RoutesValid(c) && r.rest)
    && var i := FlowAt(c.flows, r.flowId);
       && i < |c.flows| && r.inputId in c.flows[i].inputIds
       && exists j :: 0 <= j < |c.inputs| && c.inputs[j].id in c.flows[i].inputIds
           && c.inputs[j].active != (c.inputs[j].id == r.inputId)
  }

  lemma SwitchedRoutesAsBefore(c: Config, members: seq<string>, chosen: string)
    ensures RoutesValid(c.(inputs := Switched(c.inputs, members, chosen))) <==> RoutesValid(c)
  {
    var d := c.(inputs := Switched(c.inputs, members, chosen));
    forall id ensures Has(c.inputs, id) <==> Has(d.inputs, id) { SameIdsHave(c.inputs, d.inputs, id); }
    forall i | 0 <= i < |c.flows| ensures Resolves(c, c.flows[i]) <==> Resolves(d, d.flows[i]) {}
    assert DistinctIds(c.inputs) <==> DistinctIds(d.inputs) by {
      assert forall i :: 0 <= i < |c.inputs| ==> c.inputs[i].id == d.inputs[i].id;
    }
  }

  lemma SwitchedSame(es: seq<Entity>, members: seq<string>, chosen: string)
    ensures Switched(es, members, chosen) == es <==>
            forall j :: 0 <= j < |es| && es[j].id in members ==> es[j].active == (es[j].id == chosen)
  {
    if Switched(es, members, chosen) == es {
      forall j | 0 <= j < |es| && es[j].id in members ensures es[j].active == (es[j].id == chosen) {
        assert Switched(es, members, chosen)[j] == es[j];
      }
    }
  }

  /** A request answered 400, 404 or 409 leaves the config as it was, except exactly an activation the
      validator refuses after its flags were flipped. */
  lemma RefusalKeepsConfig(c: Config, r: Request, saved: bool)
    requires Handle(c, r, saved).1 in {BadRequest, NotFound, Conflict}
    ensures Handle(c, r, saved).0 == c <==> !FlipsAndRefuses(c, r)
  {
    if r.ActivateInput? {
      var i := FlowAt(c.flows, r.flowId);
      if i < |c.flows| {
        SwitchedSame(c.inputs, c.flows[i].inputIds, r.inputId);
        SwitchedRoutesAsBefore(c, c.flows[i].inputIds, r.inputId);
      }
    }
  }

  const EMPTY := Config([], [], [])

  /** Every request of a run is answered with success. */
  predicate AllDone(c: Config, rs: seq<(Request, bool)>) {
    rs == [] ||
    (AllDone(c, rs[..|rs| - 1]) && Handle(After(c, rs[..|rs| - 1]), rs[|rs| - 1].0, rs[|rs| - 1].1).1 == Done)
  }

  lemma ThenInput(rs: seq<(Request, bool)>, c: Config, e: Entity,
          inputs: seq<Entity>) returns (more: seq<(Request, bool)>)
    requires AllDone(EMPTY, rs) && After(EMPTY, rs) == c && !Has(c.inputs, e.id) && !Has(c.outputs, e.id)
    requires inputs == c.inputs + [e]
    ensures AllDone(EMPTY, more) && After(EMPTY, more) == c.(inputs := inputs)
  {
    more := rs + [(CreateInput(e, true, true), true)];
    assert more[..|rs|] == rs;
  }

  lemma ThenOutput(rs: seq<(Request, bool)>, c: Config, e: Entity,
          outputs: seq<Entity>) returns (more: seq<(Request, bool)>)
    requires AllDone(EMPTY, rs) && After(EMPTY, rs) == c && !Has(c.inputs, e.id) && !Has(c.outputs, e.id)
    requires outputs == c.outputs + [e]
    ensures AllDone(EMPTY, more) && After(EMPTY, more) == c.(outputs := outputs)
  {
    more := rs + [(CreateOutput(e, true, true), true)];
    assert more[..|rs|] == rs;
  }

  lemma ThenFlow(rs: seq<(Request, bool)>, c: Config, f: Flow, runningFlows: set<string>, flows: seq<Flow>)
    returns (more: seq<(Request, bool)>)
    requires AllDone(EMPTY, rs) && After(EMPTY, rs) == c
    requires !HeldElsewhere(c.flows, f, runningFlows) && FlowAt(c.flows, f.id) == |c.flows| && Resolves(c, f)
    requires flows == c.flows + [f]
    ensures AllDone(EMPTY, more) && After(EMPTY, more) == c.(flows := flows)
  {
    more := rs + [(CreateFlow(f, true, runningFlows), true)];
    assert more[..|rs|] == rs;
  }

  /** Three inputs, an output, and two flows on that output. */
  datatype Doubling = Doubling(a: Entity, b: Entity, d: Entity, o: Entity, f: string, g: string)

  predicate Separate(x: Doubling) {
    && x.a.id != x.b.id && x.a.id != x.d.id && x.b.id != x.d.id && x.f != x.g
    && x.o.id != x.a.id && x.o.id != x.b.id && x.o.id != x.d.id
  }

  function FirstFlow(x: Doubling): Flow { Flow(x.f, [x.a.id, x.b.id], [x.o.id], true) }

  function SecondFlow(x: Doubling): Flow { Flow(x.g, [x.d.id], [x.o.id], true) }

  lemma EntitiesAreAccepted(x: Doubling) returns (rs: seq<(Request, bool)>)
    requires Separate(x)
    ensures AllDone(EMPTY, rs) && After(EMPTY, rs) == Config([x.a, x.b, x.d], [x.o], [])
  {
    rs := [];
    rs := ThenInput(rs, EMPTY, x.a, [x.a]);
    rs := ThenInput(rs, Config([x.a], [], []), x.b, [x.a, x.b]);
    rs := ThenInput(rs, Config([x.a, x.b], [], []), x.d, [x.a, x.b, x.d]);
    rs := ThenOutput(rs, Config([x.a, x.b, x.d], [], []), x.o, [x.o]);
  }

  lemma BothResolve(x: Doubling, fs: seq<Flow>)
    ensures var c := Config([x.a, x.b, x.d], [x.o], fs); Resolves(c, FirstFlow(x)) && Resolves(c, SecondFlow(x))
  {
    var c := Config([x.a, x.b, x.d], [x.o], fs);
    assert c.inputs[0] == x.a && c.inputs[1] == x.b && c.inputs[2] == x.d && c.outputs[0] == x.o;
  }

  /** The handlers accept all six creations, and the two enabled flows then share the output. */
  lemma DoublingIsAccepted(x: Doubling) returns (rs: seq<(Request, bool)>)
    requires Separate(x)
    ensures AllDone(EMPTY, rs) && After(EMPTY, rs) == Config([x.a, x.b, x.d], [x.o], [FirstFlow(x), SecondFlow(x)])
  {
    rs := EntitiesAreAccepted(x);
    BothResolve(x, []);
    rs := ThenFlow(rs, Config([x.a, x.b, x.d], [x.o], []), FirstFlow(x), {}, [FirstFlow(x)]);
    BothResolve(x, [FirstFlow(x)]);
    assert !Shares(SecondFlow(x).inputIds, FirstFlow(x).inputIds);
    rs := ThenFlow(rs, Config([x.a, x.b, x.d], [x.o], [FirstFlow(x)]), SecondFlow(x), {x.f},
        [FirstFlow(x), SecondFlow(x)]);
  }

  lemma SharedOutputBreaksRoutes(c: Config, i: nat, j: nat)
    requires i < j < |c.flows| && c.flows[i].enabled && c.flows[j].enabled
            && Shares(c.flows[i].outputIds, c.flows[j].outputIds)
    ensures !RoutesValid(c)
  {
    assert !Compatible(c.flows[i], c.flows[j]);
  }

  /** From the empty configuration, requests the handlers all accept lead to one with an output in two
      enabled flows, which the next start refuses, and on which an activation is refused with the flags
      flipped in memory. */
  lemma RefusedActivationCanFlip(x: Doubling) returns (rs: seq<(Request, bool)>)
    requires Separate(x) && x.a.active
    ensures AllDone(EMPTY, rs) && RoutesValid(EMPTY) && !RoutesValid(After(EMPTY, rs))
    ensures var c, r := After(EMPTY, rs), ActivateInput(x.f, x.b.id, true);
            FlipsAndRefuses(c, r) && Handle(c, r, true).1 == BadRequest && Handle(c, r, true).0 != c
  {
    rs := DoublingIsAccepted(x);
    var c, r := After(EMPTY, rs), ActivateInput(x.f, x.b.id, true);
    assert FirstFlow(x).outputIds[0] in SecondFlow(x).outputIds;
    SharedOutputBreaksRoutes(c, 0, 1);
    assert FlowAt(c.flows, x.f) == 0;
    assert x.b.id == FirstFlow(x).inputIds[1] && x.a.id == FirstFlow(x).inputIds[0];
    assert c.inputs[0].id in c.flows[0].inputIds && c.inputs[0].active != (c.inputs[0].id == x.b.id);
    FlippedIsRefused(c, r, true);
  }

  lemma FlippedIsRefused(c: Config, r: Request, saved: bool)
    requires FlipsAndRefuses(c, r)
    ensures Handle(c, r, saved).1 == BadRequest && Handle(c, r, saved).0 != c
  {
    var members := c.flows[FlowAt(c.flows, r.flowId)].inputIds;
    SwitchedRoutesAsBefore(c, members, r.inputId);
    SwitchedSame(c.inputs, members, r.inputId);
  }

  // ---- What a successful request does ----

  function Lookup(es: seq<Entity>, id: string): Option<Entity> {
    var i := At(es, id);
    if i < |es| then Some(es[i]) else None
  }

  function LookupFlow(fs: seq<Flow>, id: string): Option<Flow> {
    var i := FlowAt(fs, id);
    if i < |fs| then Some(fs[i]) else None
  }

  lemma LookupAppend(es: seq<Entity>, e: Entity, id: string)
    requires Lookup(es, e.id).None?
    ensures Lookup(es + [e], id) == if id == e.id then Some(e) else Lookup(es, id)
  {
    var all := es + [e];
    assert all[|es|] == e && forall i :: 0 <= i < |es| ==> all[i] == es[i];
  }

  lemma LookupReplaced(es: seq<Entity>, e: Entity, id: string)
    requires Lookup(es, e.id).Some?
    ensures Lookup(es[At(es, e.id) := e], id) == if id == e.id then Some(e) else Lookup(es, id)
  {
    assert SameIds(es, es[At(es, e.id) := e]);
  }

  lemma LookupFirst(es: seq<Entity>, id: string)
    requires es != []
    ensures Lookup(es, id) == if es[0].id == id then Some(es[0]) else Lookup(es[1..], id)
  {}

  lemma {:induction false} LookupWithout(es: seq<Entity>, gone: string, id: string)
    ensures Lookup(Without(es, gone), id) == if id == gone then None else Lookup(es, id)
  {
    if es != [] {
      LookupWithout(es[1..], gone, id);
      LookupFirst(es, id);
      if es[0].id != gone {
        var rest := Without(es[1..], gone);
        assert ([es[0]] + rest)[1..] == rest;
        LookupFirst([es[0]] + rest, id);
      }
    }
  }

  lemma LookupSwitched(es: seq<Entity>, members: seq<string>, chosen: string, id: string)
    ensures Lookup(Switched(es, members, chosen), id) ==
              if Lookup(es, id).Some? && id in members then Some(Lookup(es, id).value.(active := id == chosen))
              else Lookup(es, id)
  {
    assert SameIds(es, Switched(es, members, chosen));
  }

  lemma HasIsLookup(es: seq<Entity>, id: string)
    ensures Has(es, id) <==> Lookup(es, id).Some?
  {
    HasIsAt(es, id);
  }

  /** What is found under an ID among the inputs after a request that succeeded. */
  lemma InputsAfterSuccess(c: Config, r: Request, id: string)
    requires Handle(c, r, true).1 == Done
    ensures var before, after := Lookup(c.inputs, id), Lookup(Handle(c, r, true).0.inputs, id);
            match r
            case CreateInput(e, _, _) => after == if id == e.id then Some(e) else before
            case UpdateInput(own, e, _, _, _, _, _) =>
              if id != own then after == before
              else before.Some? && after == Some(Entity(own, before.value.active, e.body))
            case DeleteInput(own) => if id == own then before.Some? && after == None else after == before
            case ActivateInput(_, _, _) => after.Some? <==> before.Some?
            case _ => after == before
  {
    match r
    case CreateInput(e, _, _) =>
      HasIsLookup(c.inputs, e.id);
      LookupAppend(c.inputs, e, id);
    case UpdateInput(own, e, _, _, _, _, _) =>
      LookupReplaced(c.inputs, Entity(own, c.inputs[At(c.inputs, own)].active, e.body), id);
    case DeleteInput(own) =>
      HasIsLookup(c.inputs, own);
      LookupWithout(c.inputs, own, id);
    case ActivateInput(flowId, inputId, _) =>
      LookupSwitched(c.inputs, c.flows[FlowAt(c.flows, flowId)].inputIds, inputId, id);
    case _ =>
  }

  /** The same among the outputs. */
  lemma OutputsAfterSuccess(c: Config, r: Request, id: string)
    requires Handle(c, r, true).1 == Done
    ensures var before, after := Lookup(c.outputs, id), Lookup(Handle(c, r, true).0.outputs, id);
            match r
            case CreateOutput(e, _, _) => after == if id == e.id then Some(e) else before
            case UpdateOutput(own, e, _, _) =>
              if id != own then after == before
              else before.Some? && after == Some(Entity(own, before.value.active, e.body))
            case DeleteOutput(own) => if id == own then before.Some? && after == None else after == before
            case _ => after == before
  {
    match r
    case CreateOutput(e, _, _) =>
      HasIsLookup(c.outputs, e.id);
      LookupAppend(c.outputs, e, id);
    case UpdateOutput(own, e, _, _) =>
      LookupReplaced(c.outputs, e.(active := c.outputs[At(c.outputs, own)].active), id);
    case DeleteOutput(own) =>
      HasIsLookup(c.outputs, own);
      LookupWithout(c.outputs, own, id);
    case _ =>
  }

  lemma FlowReplaced(fs: seq<Flow>, f: Flow, id: string)
    requires LookupFlow(fs, f.id).Some?
    ensures LookupFlow(fs[FlowAt(fs, f.id) := f], id) == if id == f.id then Some(f) else LookupFlow(fs, id)
  {
    var after := fs[FlowAt(fs, f.id) := f];
    assert forall i :: 0 <= i < |fs| ==> after[i].id == fs[i].id;
    assert FlowAt(after, id) == FlowAt(fs, id);
  }

  lemma FlowAppended(fs: seq<Flow>, f: Flow, id: string)
    requires LookupFlow(fs, f.id).None?
    ensures LookupFlow(fs + [f], id) == if id == f.id then Some(f) else LookupFlow(fs, id)
  {
    var all := fs + [f];
    assert all[|fs|] == f && forall i :: 0 <= i < |fs| ==> all[i] == fs[i];
  }

  lemma LookupFlowFirst(fs: seq<Flow>, id: string)
    requires fs != []
    ensures LookupFlow(fs, id) == if fs[0].id == id then Some(fs[0]) else LookupFlow(fs[1..], id)
  {}

  function FlowsWithout(fs: seq<Flow>, gone: string): seq<Flow>
    requires FlowAt(fs, gone) < |fs|
  {
    fs[..FlowAt(fs, gone)] + fs[FlowAt(fs, gone) + 1..]
  }

  lemma FlowsWithoutFirst(fs: seq<Flow>, gone: string)
    requires fs != [] && FlowAt(fs, gone) < |fs|
    ensures fs[0].id == gone ==> FlowsWithout(fs, gone) == fs[1..]
    ensures fs[0].id != gone ==>
              FlowAt(fs[1..], gone) < |fs[1..]| && FlowsWithout(fs, gone) == [fs[0]] + FlowsWithout(fs[1..], gone)
  {}

  lemma {:induction false} FlowRemoved(fs: seq<Flow>, gone: string, id: string)
    requires DistinctFlows(fs) && FlowAt(fs, gone) < |fs|
    ensures LookupFlow(FlowsWithout(fs, gone), id) == if id == gone then None else LookupFlow(fs, id)
  {
    FlowsWithoutFirst(fs, gone);
    LookupFlowFirst(fs, id);
    if fs[0].id == gone {
      assert forall j :: 0 <= j < |fs[1..]| ==> fs[1..][j].id != gone;
    } else {
      FlowRemoved(fs[1..], gone, id);
      var rest := FlowsWithout(fs[1..], gone);
      assert ([fs[0]] + rest)[1..] == rest;
      LookupFlowFirst([fs[0]] + rest, id);
    }
  }

  lemma FirstRemoved(ids: seq<string>, id: string, k: nat)
    requires k < |ids| && ids[k] == id
    ensures multiset(ids[..k] + ids[k + 1..]) == multiset(ids) - multiset{id}
  {
    assert ids == ids[..k] + [id] + ids[k + 1..];
  }

  lemma Assigned(c: Config, own: string, o: string, id: string)
    requires Assign(c, own, o, true).1 == Done
    ensures var before, after := LookupFlow(c.flows, id), LookupFlow(Assign(c, own, o, true).0.flows, id);
            if id != own then after == before
            else before.Some? && after == Some(before.value.(outputIds := before.value.outputIds + [o]))
  {
    var f := c.flows[FlowAt(c.flows, own)];
    FlowReplaced(c.flows, f.(outputIds := f.outputIds + [o]), id);
  }

  lemma Unassigned(c: Config, own: string, o: string, detaches: bool, id: string)
    requires Unassign(c, own, o, detaches, true).1 == Done
    ensures var before, after := LookupFlow(c.flows, id), LookupFlow(Unassign(c, own, o, detaches, true).0.flows, id);
            if id != own then after == before
            else && before.Some? && after.Some? && after.value == before.value.(outputIds := after.value.outputIds)
                 && o in before.value.outputIds
                 && multiset(after.value.outputIds) == multiset(before.value.outputIds) - multiset{o}
  {
    var f := c.flows[FlowAt(c.flows, own)];
    var k := IdAt(f.outputIds, o);
    FirstRemoved(f.outputIds, o, k);
    FlowReplaced(c.flows, f.(outputIds := f.outputIds[..k] + f.outputIds[k + 1..]), id);
  }

  /** The same among the flows: the named one is created, removed, or gains or loses the one output, and
      every other flow stays. */
  lemma FlowsAfterSuccess(c: Config, r: Request, id: string)
    requires Sound(c) && Handle(c, r, true).1 == Done
    ensures var before, after := LookupFlow(c.flows, id), LookupFlow(Handle(c, r, true).0.flows, id);
            match r
            case CreateFlow(f, _, _) => after == if id == f.id then Some(f) else before
            case DeleteFlow(own) => if id == own then before.Some? && after == None else after == before
            case AddOutput(own, o) =>
              if id != own then after == before
              else before.Some? && after == Some(before.value.(outputIds := before.value.outputIds + [o]))
            case RemoveOutput(own, o, _) =>
              if id != own then after == before
              else && before.Some? && after.Some? && after.value == before.value.(outputIds := after.value.outputIds)
                   && o in before.value.outputIds
                   && multiset(after.value.outputIds) == multiset(before.value.outputIds) - multiset{o}
            case _ => after == before
  {
    match r
    case CreateFlow(f, _, _) => FlowAppended(c.flows, f, id);
    case DeleteFlow(own) => FlowRemoved(c.flows, own, id);
    case AddOutput(own, o) => Assigned(c, own, o, id);
    case RemoveOutput(own, o, detaches) => Unassigned(c, own, o, detaches, id);
    case _ =>
  }

  // ---- When a request succeeds ----

  /** The input's flow is enabled and running, the edit changes the input, and the flow does not come up
      on it. */
  predicate RollsBack(c: Config, r: Request, current: Entity)
    requires r.UpdateInput?
  {
    && r.running && !r.restarts && r.entity.body != current.body
    && exists i :: 0 <= i < |c.flows| && c.flows[i].enabled && r.id in c.flows[i].inputIds
         && forall j :: 0 <= j < i ==> r.id !in c.flows[j].inputIds
  }

  /** A request about an input succeeds exactly when the checks pass and: a new ID is neither an input's
      nor an output's; an edited one exists and is not rolled back; a deleted one exists in no flow. */
  lemma InputRequestSucceedsIff(c: Config, r: Request)
    requires r.CreateInput? || r.UpdateInput? || r.DeleteInput?
    ensures Handle(c, r, true).1 == Done <==>
            match r
            case CreateInput(e, valid, fits) =>
              valid && fits && Lookup(c.inputs, e.id).None? && Lookup(c.outputs, e.id).None?
            case UpdateInput(id, _, valid, fits, _, _, _) =>
              valid && fits && Lookup(c.inputs, id).Some? && !RollsBack(c, r, Lookup(c.inputs, id).value)
            case DeleteInput(id) =>
              Lookup(c.inputs, id).Some? && forall i :: 0 <= i < |c.flows| ==> id !in c.flows[i].inputIds
  {
    match r
    case CreateInput(e, _, _) =>
      HasIsLookup(c.inputs, e.id);
      HasIsLookup(c.outputs, e.id);
    case DeleteInput(id) => HasIsLookup(c.inputs, id);
    case UpdateInput(id, e, valid, fits, _, _, _) =>
      if valid && fits && Lookup(c.inputs, id).Some? { RollsBackAtUser(c, r, Lookup(c.inputs, id).value); }
  }

  lemma RollsBackAtUser(c: Config, r: Request, current: Entity)
    requires r.UpdateInput?
    ensures var u := UserOf(c.flows, r.id);
            RollsBack(c, r, current) <==>
            r.running && !r.restarts && r.entity.body != current.body && u < |c.flows| && c.flows[u].enabled
  {}

  lemma OutputRequestSucceedsIff(c: Config, r: Request)
    requires r.CreateOutput? || r.UpdateOutput? || r.DeleteOutput?
    ensures Handle(c, r, true).1 == Done <==>
            match r
            case CreateOutput(e, valid, fits) =>
              valid && fits && Lookup(c.inputs, e.id).None? && Lookup(c.outputs, e.id).None?
            case UpdateOutput(id, e, valid, fits) => valid && fits && e.id == id && Lookup(c.outputs, id).Some?
            case DeleteOutput(id) =>
              Lookup(c.outputs, id).Some? && forall i :: 0 <= i < |c.flows| ==> id !in c.flows[i].outputIds
  {
    match r
    case CreateOutput(e, _, _) =>
      HasIsLookup(c.inputs, e.id);
      HasIsLookup(c.outputs, e.id);
    case UpdateOutput(_, _, _, _) =>
    case DeleteOutput(id) => HasIsLookup(c.outputs, id);
  }

  /** A request about a flow: a new flow has an unused ID, inputs no enabled or running flow has if it is
      enabled itself, and only references that exist; an assigned output exists and is in no flow; an
      unassigned one is in the flow and the runtime let go of it. */
  lemma FlowRequestSucceedsIff(c: Config, r: Request)
    requires Sound(c) && (r.CreateFlow? || r.DeleteFlow? || r.AddOutput? || r.RemoveOutput?)
    ensures Handle(c, r, true).1 == Done <==>
            match r
            case CreateFlow(f, valid, runningFlows) =>
              && valid && LookupFlow(c.flows, f.id).None?
              && (forall id <- f.inputIds :: Lookup(c.inputs, id).Some?)
              && (forall id <- f.outputIds :: Lookup(c.outputs, id).Some?)
              && (f.enabled ==>
                    forall i :: 0 <= i < |c.flows| && (c.flows[i].enabled || c.flows[i].id in runningFlows) ==>
                      forall id <- f.inputIds :: id !in c.flows[i].inputIds)
            case DeleteFlow(id) => LookupFlow(c.flows, id).Some?
            case AddOutput(flowId, o) =>
              && LookupFlow(c.flows, flowId).Some? && Lookup(c.outputs, o).Some?
              && forall i :: 0 <= i < |c.flows| ==> o !in c.flows[i].outputIds
            case RemoveOutput(flowId, o, detaches) =>
              detaches && LookupFlow(c.flows, flowId).Some? && o in LookupFlow(c.flows, flowId).value.outputIds
  {
    forall id ensures Has(c.inputs, id) <==> Lookup(c.inputs, id).Some? { HasIsLookup(c.inputs, id); }
    forall id ensures Has(c.outputs, id) <==> Lookup(c.outputs, id).Some? { HasIsLookup(c.outputs, id); }
    match r
    case CreateFlow(f, _, runningFlows) =>
      if LookupFlow(c.flows, f.id).None? { HeldIff(c.flows, f, runningFlows); }
    case DeleteFlow(_) =>
    case AddOutput(flowId, o) =>
    case RemoveOutput(flowId, o, _) =>
      if LookupFlow(c.flows, flowId).Some? { IdAtIff(c.flows[FlowAt(c.flows, flowId)].outputIds, o); }
  }

  /** An activation succeeds exactly when the flow has that input and `validate_config` accepts the
      configuration as it stands. */
  lemma ActivationSucceedsIff(c: Config, flowId: string, inputId: string, rest: bool)
    ensures Handle(c, ActivateInput(flowId, inputId, rest), true).1 == Done <==>
            && LookupFlow(c.flows, flowId).Some? && inputId in LookupFlow(c.flows, flowId).value.inputIds
            && RoutesValid(c) && rest
  {
    var i := FlowAt(c.flows, flowId);
    if i < |c.flows| { SwitchedRoutesAsBefore(c, c.flows[i].inputIds, inputId); }
  }

  /** A 404 means that what the request names does not exist. */
  lemma NotFoundMeans(c: Config, r: Request, saved: bool)
    requires Handle(c, r, saved).1 == NotFound
    ensures match r
            case UpdateInput(id, _, _, _, _, _, _) => Lookup(c.inputs, id).None?
            case DeleteInput(id) => Lookup(c.inputs, id).None?
            case UpdateOutput(id, _, _, _) => Lookup(c.outputs, id).None?
            case DeleteOutput(id) => Lookup(c.outputs, id).None?
            case DeleteFlow(id) => LookupFlow(c.flows, id).None?
            case AddOutput(flowId, o) => LookupFlow(c.flows, flowId).None? || Lookup(c.outputs, o).None?
            case RemoveOutput(flowId, o, _) =>
              LookupFlow(c.flows, flowId).None? || o !in LookupFlow(c.flows, flowId).value.outputIds
            case ActivateInput(flowId, _, _) => LookupFlow(c.flows, flowId).None?
            case _ => false
  {
    match r
    case DeleteInput(id) => HasIsLookup(c.inputs, id);
    case DeleteOutput(id) => HasIsLookup(c.outputs, id);
    case AddOutput(_, o) => HasIsLookup(c.outputs, o);
    case RemoveOutput(flowId, o, _) =>
      if LookupFlow(c.flows, flowId).Some? { IdAtIff(c.flows[FlowAt(c.flows, flowId)].outputIds, o); }
    case _ =>
  }

  /** A 409 means that an ID is taken, that something is in use, or that the runtime would not follow. */
  lemma ConflictMeans(c: Config, r: Request, saved: bool)
    requires Handle(c, r, saved).1 == Conflict
    ensures match r
            case CreateInput(e, _, _) => Lookup(c.inputs, e.id).Some? || Lookup(c.outputs, e.id).Some?
            case CreateOutput(e, _, _) => Lookup(c.inputs, e.id).Some? || Lookup(c.outputs, e.id).Some?
            case UpdateInput(id, _, _, _, _, _, restores) =>
              Lookup(c.inputs, id).Some? && RollsBack(c, r, Lookup(c.inputs, id).value) && restores
            case DeleteInput(id) => exists i :: 0 <= i < |c.flows| && id in c.flows[i].inputIds
            case DeleteOutput(id) => exists i :: 0 <= i < |c.flows| && id in c.flows[i].outputIds
            case CreateFlow(f, _, _) => LookupFlow(c.flows, f.id).Some?
            case AddOutput(_, o) => exists i :: 0 <= i < |c.flows| && o in c.flows[i].outputIds
            case RemoveOutput(_, _, detaches) => !detaches
            case _ => false
  {
    match r
    case CreateInput(e, _, _) =>
      HasIsLookup(c.inputs, e.id);
      HasIsLookup(c.outputs, e.id);
    case CreateOutput(e, _, _) =>
      HasIsLookup(c.inputs, e.id);
      HasIsLookup(c.outputs, e.id);
    case UpdateInput(id, _, _, _, _, _, _) => RollsBackAtUser(c, r, Lookup(c.inputs, id).value);
    case _ =>
  }

  /** An edit the flow does not come up on is undone: 409 if the flow runs on the old definition again,
      500 if it is down. */
  lemma RollbackAnswers(c: Config, r: Request, saved: bool)
    requires r.UpdateInput? && r.valid && r.fits && Lookup(c.inputs, r.id).Some?
    requires RollsBack(c, r, Lookup(c.inputs, r.id).value)
    ensures Handle(c, r, saved) == (c, if r.restores then Conflict else Internal)
  {
    RollsBackAtUser(c, r, Lookup(c.inputs, r.id).value);
  }

  lemma IdAtIff(ids: seq<string>, id: string)
    ensures IdAt(ids, id) < |ids| <==> id in ids
  {
    if id in ids { var k :| 0 <= k < |ids| && ids[k] == id; }
  }

  lemma HeldIff(fs: seq<Flow>, f: Flow, runningFlows: set<string>)
    requires LookupFlow(fs, f.id).None?
    ensures !HeldElsewhere(fs, f, runningFlows) <==>
            forall i :: 0 <= i < |fs| && (fs[i].enabled || fs[i].id in runningFlows) ==>
              forall id <- f.inputIds :: id !in fs[i].inputIds
  {
    forall i | 0 <= i < |fs|
      ensures Shares(f.inputIds, fs[i].inputIds) <==> exists id <- f.inputIds :: id in fs[i].inputIds
    {
      if exists id <- f.inputIds :: id in fs[i].inputIds {
        var id :| id in f.inputIds && id in fs[i].inputIds;
        var k :| 0 <= k < |f.inputIds| && f.inputIds[k] == id;
        assert f.inputIds[k] in fs[i].inputIds;
      }
    }
  }

  // ---- Memory and disk ----

  function StatusAt(c: Config, rs: seq<(Request, bool)>, n: nat): Status
    requires n < |rs|
  {
    Handle(After(c, rs[..n]), rs[n].0, rs[n].1).1
  }

  /** What the disk holds after a run: the whole configuration as the last successful request left it. */
  function OnDisk(c: Config, rs: seq<(Request, bool)>): Config {
    if rs == [] then c
    else if StatusAt(c, rs, |rs| - 1) == Done then After(c, rs)
    else OnDisk(c, rs[..|rs| - 1])
  }

  lemma PrefixAnswersAlike(c: Config, rs: seq<(Request, bool)>, m: nat, i: nat)
    requires i < m <= |rs|
    ensures StatusAt(c, rs[..m], i) == StatusAt(c, rs, i)
  {
    assert rs[..m][..i] == rs[..i];
  }

  /** One more request, neither answered 500 nor refused after a flip, keeps memory and disk together. */
  lemma RequestKeepsInStep(c: Config, rs: seq<(Request, bool)>, m: nat)
    requires |rs| == m + 1 && OnDisk(c, rs[..m]) == After(c, rs[..m])
    requires StatusAt(c, rs, m) != Internal && !FlipsAndRefuses(After(c, rs[..m]), rs[m].0)
    ensures OnDisk(c, rs) == After(c, rs)
  {
    if StatusAt(c, rs, m) != Done { RefusalKeepsConfig(After(c, rs[..m]), rs[m].0, rs[m].1); }
  }

  /** No request from the `n`-th to the `m`-th was answered 500, or refused after a flip. */
  predicate Uneventful(c: Config, rs: seq<(Request, bool)>, n: nat, m: nat)
    requires m <= |rs|
  {
    forall i :: n <= i < m ==> StatusAt(c, rs, i) != Internal && !FlipsAndRefuses(After(c, rs[..i]), rs[i].0)
  }

  lemma SuccessIsOnDisk(c: Config, rs: seq<(Request, bool)>, n: nat)
    requires 0 < n <= |rs| && StatusAt(c, rs, n - 1) == Done
    ensures OnDisk(c, rs[..n]) == After(c, rs[..n])
  {
    PrefixAnswersAlike(c, rs, n, n - 1);
  }

  lemma InStepNext(c: Config, rs: seq<(Request, bool)>, m: nat)
    requires m < |rs| && OnDisk(c, rs[..m]) == After(c, rs[..m])
    requires StatusAt(c, rs, m) != Internal && !FlipsAndRefuses(After(c, rs[..m]), rs[m].0)
    ensures OnDisk(c, rs[..m + 1]) == After(c, rs[..m + 1])
  {
    assert rs[..m + 1][..m] == rs[..m];
    PrefixAnswersAlike(c, rs, m + 1, m);
    RequestKeepsInStep(c, rs[..m + 1], m);
  }

  lemma {:induction false} MemoryStaysInStep(c: Config, rs: seq<(Request, bool)>, n: nat, m: nat)
    requires n <= m <= |rs| && Uneventful(c, rs, n, m) && OnDisk(c, rs[..n]) == After(c, rs[..n])
    ensures OnDisk(c, rs[..m]) == After(c, rs[..m])
    decreases m
  {
    if n < m {
      MemoryStaysInStep(c, rs, n, m - 1);
      InStepNext(c, rs, m - 1);
    }
  }

  lemma NothingYet(c: Config, rs: seq<(Request, bool)>)
    ensures OnDisk(c, rs[..0]) == After(c, rs[..0])
  {
    assert rs[..0] == [];
  }

  /** From the last success on, memory can leave the disk behind only through a request answered 500 or
      an activation refused after its flip: with neither, the next start loads what is running. */
  lemma MemoryMatchesDisk(c: Config, rs: seq<(Request, bool)>, n: nat, m: nat)
    requires n <= m <= |rs| && (n == 0 || StatusAt(c, rs, n - 1) == Done) && Uneventful(c, rs, n, m)
    ensures OnDisk(c, rs[..m]) == After(c, rs[..m])
  {
    if n == 0 { NothingYet(c, rs); } else { SuccessIsOnDisk(c, rs, n); }
    MemoryStaysInStep(c, rs, n, m);
  }

  /** An activation refused after its flip does leave it behind: the disk keeps the old flags. */
  lemma FlipLeavesDiskBehind(c: Config, rs: seq<(Request, bool)>, r: Request, saved: bool)
    requires OnDisk(c, rs) == After(c, rs) && FlipsAndRefuses(After(c, rs), r)
    ensures OnDisk(c, rs + [(r, saved)]) == After(c, rs) && After(c, rs + [(r, saved)]) != After(c, rs)
  {
    var more := rs + [(r, saved)];
    assert more[..|rs|] == rs;
    FlippedIsRefused(After(c, rs), r, saved);
  }

  /** So does a request that succeeds but for its save, if it changes anything: nothing is undone. */
  lemma FailedSaveLeavesDiskBehind(c: Config, rs: seq<(Request, bool)>, r: Request)
    requires OnDisk(c, rs) == After(c, rs)
    requires Handle(After(c, rs), r, true).1 == Done && Handle(After(c, rs), r, true).0 != After(c, rs)
    ensures OnDisk(c, rs + [(r, false)]) == After(c, rs)
    ensures After(c, rs + [(r, false)]) == Handle(After(c, rs), r, true).0 != After(c, rs)
  {
    var more := rs + [(r, false)];
    assert more[..|rs|] == rs;
  }

  // ---- The handlers ----

  method FindEntity(es: seq<Entity>, id: string) returns (i: nat)
    ensures i == At(es, id)
    ensures i < |es| <==> Has(es, id)
  {
    i := 0;
    while i < |es| && es[i].id != id
      invariant i <= |es| && forall j :: 0 <= j < i ==> es[j].id != id
    {
      i := i + 1;
    }
  }

  method FindFlow(fs: seq<Flow>, id: string) returns (i: nat)
    ensures i == FlowAt(fs, id)
  {
    i := 0;
    while i < |fs| && fs[i].id != id
      invariant i <= |fs| && forall j :: 0 <= j < i ==> fs[j].id != id
    {
      i := i + 1;
    }
  }

  method FindId(ids: seq<string>, id: string) returns (i: nat)
    ensures i == IdAt(ids, id)
  {
    i := 0;
    while i < |ids| && ids[i] != id
      invariant i <= |ids| && forall j :: 0 <= j < i ==> ids[j] != id
    {
      i := i + 1;
    }
  }

  /** `flow_using_input`. */
  method FlowUsingInput(fs: seq<Flow>, id: string) returns (i: nat)
    ensures i == UserOf(fs, id)
    ensures i < |fs| <==> UsesInput(fs, id)
  {
    i := 0;
    while i < |fs| && id !in fs[i].inputIds
      invariant i <= |fs| && forall j :: 0 <= j < i ==> id !in fs[j].inputIds
    {
      i := i + 1;
    }
  }

  method Retain(es: seq<Entity>, id: string) returns (r: seq<Entity>)
    ensures r == Without(es, id)
  {
    r := [];
    for i := 0 to |es|
      invariant Without(es, id) == r + Without(es[i..], id)
    {
      assert es[i..][1..] == es[i + 1..];
      if es[i].id != id { r := r + [es[i]]; }
    }
  }

  lemma {:induction false} ShorterIffHad(es: seq<Entity>, id: string)
    ensures |Without(es, id)| <= |es|
    ensures |Without(es, id)| == |es| <==> !Has(es, id)
  {
    if es != [] {
      ShorterIffHad(es[1..], id);
      HasFirst(es, id);
    }
  }

  /** `resolve_flow`, as far as it refuses. */
  method ResolveFlow(c: Config, f: Flow) returns (ok: bool)
    ensures ok <==> Resolves(c, f)
  {
    for i := 0 to |f.inputIds|
      invariant forall j :: 0 <= j < i ==> Has(c.inputs, f.inputIds[j])
    {
      var k := FindEntity(c.inputs, f.inputIds[i]);
      if k == |c.inputs| { assert f.inputIds[i] in f.inputIds; return false; }
    }
    for i := 0 to |f.outputIds|
      invariant forall j :: 0 <= j < i ==> Has(c.outputs, f.outputIds[j])
    {
      var k := FindEntity(c.outputs, f.outputIds[i]);
      if k == |c.outputs| { assert f.outputIds[i] in f.outputIds; return false; }
    }
    return true;
  }

  method IsHeldElsewhere(fs: seq<Flow>, f: Flow, runningFlows: set<string>) returns (held: bool)
    ensures held <==> HeldElsewhere(fs, f, runningFlows)
  {
    for i := 0 to |fs|
      invariant forall j :: 0 <= j < i ==>
                  fs[j].id == f.id || !(fs[j].enabled || fs[j].id in runningFlows)
                      || !Shares(f.inputIds, fs[j].inputIds)
    {
      var runs := fs[i].enabled || fs[i].id in runningFlows;
      if fs[i].id != f.id && runs && Shares(f.inputIds, fs[i].inputIds) { return true; }
    }
    return false;
  }

  method CollectIds(es: seq<Entity>) returns (ok: bool, ids: set<string>)
    ensures ok <==> DistinctIds(es)
    ensures ok ==> forall id :: id in ids <==> Has(es, id)
  {
    ids := {};
    for i := 0 to |es|
      invariant DistinctIds(es[..i])
      invariant forall id :: id in ids <==> exists j :: 0 <= j < i && es[j].id == id
    {
      if es[i].id in ids {
        assert exists j :: 0 <= j < i && es[j].id == es[i].id;
        return false, ids;
      }
      ids := ids + {es[i].id};
    }
    assert es[..|es|] == es;
    return true, ids;
  }

  predicate ReferencesOk(refs: seq<string>, known: set<string>, enabled: bool, taken: set<string>) {
    && NoRepeats(refs) && (forall i :: 0 <= i < |refs| ==> refs[i] in known)
    && (enabled ==> forall i :: 0 <= i < |refs| ==> refs[i] !in taken)
  }

  /** The references of one flow: none twice, each defined, and none assigned before if it is enabled. */
  method CheckReferences(refs: seq<string>, known: set<string>, enabled: bool, taken: set<string>)
    returns (ok: bool, now: set<string>)
    ensures ok <==> ReferencesOk(refs, known, enabled, taken)
    ensures ok ==> now == if enabled then taken + (set x | x in refs) else taken
  {
    var seen := {};
    now := taken;
    for i := 0 to |refs|
      invariant seen == set x | x in refs[..i]
      invariant NoRepeats(refs[..i]) && forall j :: 0 <= j < i ==> refs[j] in known
      invariant enabled ==> forall j :: 0 <= j < i ==> refs[j] !in taken
      invariant now == if enabled then taken + seen else taken
    {
      assert refs[..i + 1] == refs[..i] + [refs[i]];
      if refs[i] in seen {
        assert exists j :: 0 <= j < i && refs[j] == refs[i];
        return false, now;
      }
      if refs[i] !in known { return false, now; }
      if enabled {
        if refs[i] in now { return false, now; }
        now := now + {refs[i]};
      }
      seen := seen + {refs[i]};
    }
    assert refs[..|refs|] == refs;
    return true, now;
  }

  /** The IDs the enabled ones of the first `n` flows refer to. */
  function AssignedTo(fs: seq<Flow>, n: nat, ofInputs: bool): (ids: set<string>)
    requires n <= |fs|
    ensures forall id :: id in ids <==> exists j :: 0 <= j < n && fs[j].enabled && id in RefsOf(fs[j], ofInputs)
  {
    if n == 0 then {}
    else
      var f := fs[n - 1];
      AssignedTo(fs, n - 1, ofInputs) + (if f.enabled then set x | x in RefsOf(f, ofInputs) else {})
  }

  function RefsOf(f: Flow, ofInputs: bool): seq<string> { if ofInputs then f.inputIds else f.outputIds }

  lemma AssignedShares(fs: seq<Flow>, n: nat, ofInputs: bool)
    requires n < |fs| && fs[n].enabled
    ensures (forall k :: 0 <= k < |RefsOf(fs[n], ofInputs)| ==>
            RefsOf(fs[n], ofInputs)[k] !in AssignedTo(fs, n, ofInputs))
            <==> forall j :: 0 <= j < n && fs[j].enabled ==> !Shares(RefsOf(fs[j], ofInputs), RefsOf(fs[n], ofInputs))
  {
    var refs := RefsOf(fs[n], ofInputs);
    forall j | 0 <= j < n && fs[j].enabled && Shares(RefsOf(fs[j], ofInputs), refs)
      ensures exists k :: 0 <= k < |refs| && refs[k] in AssignedTo(fs, n, ofInputs)
    {
      var m :| 0 <= m < |RefsOf(fs[j], ofInputs)| && RefsOf(fs[j], ofInputs)[m] in refs;
      var k :| 0 <= k < |refs| && refs[k] == RefsOf(fs[j], ofInputs)[m];
      assert refs[k] in AssignedTo(fs, n, ofInputs);
    }
    forall k | 0 <= k < |refs| && refs[k] in AssignedTo(fs, n, ofInputs)
      ensures exists j :: 0 <= j < n && fs[j].enabled && Shares(RefsOf(fs[j], ofInputs), refs)
    {
      var j :| 0 <= j < n && fs[j].enabled && refs[k] in RefsOf(fs[j], ofInputs);
      var m :| 0 <= m < |RefsOf(fs[j], ofInputs)| && RefsOf(fs[j], ofInputs)[m] == refs[k];
      assert Shares(RefsOf(fs[j], ofInputs), refs);
    }
  }

  /** What the flow loop has accepted after `n` flows. */
  predicate FlowsAccepted(c: Config, n: nat)
    requires n <= |c.flows|
  {
    && DistinctFlows(c.flows[..n]) && Wired(c.flows[..n])
    && forall i :: 0 <= i < n ==> Resolves(c, c.flows[i])
  }

  lemma AcceptedNext(c: Config, n: nat)
    requires n < |c.flows| && FlowsAccepted(c, n)
    ensures FlowsAccepted(c, n + 1) <==>
            var f := c.flows[n];
            && (forall i :: 0 <= i < n ==> c.flows[i].id != f.id) && FlowWired(f) && Resolves(c, f)
            && forall i :: 0 <= i < n ==> Compatible(c.flows[i], f)
  {
    var before, after := c.flows[..n], c.flows[..n + 1];
    assert forall i :: 0 <= i < n ==> after[i] == before[i] == c.flows[i];
    assert after[n] == c.flows[n];
    if FlowsAccepted(c, n + 1) {
      assert forall i :: 0 <= i < n ==> Compatible(after[i], after[n]);
    }
  }

  lemma RefusedStaysRefused(c: Config, n: nat)
    requires n <= |c.flows| && !FlowsAccepted(c, n)
    ensures !FlowsAccepted(c, |c.flows|)
  {
    var front, all := c.flows[..n], c.flows[..|c.flows|];
    assert forall i :: 0 <= i < n ==> front[i] == c.flows[i] == all[i];
  }

  /** What the two reference checks of flow `n` together decide. */
  lemma ReferencesDecide(c: Config, n: nat, inputIds: set<string>, outputIds: set<string>)
    requires n < |c.flows| && FlowsAccepted(c, n)
    requires (forall id :: id in inputIds <==> Has(c.inputs, id))
            && (forall id :: id in outputIds <==> Has(c.outputs, id))
    ensures var f := c.flows[n];
            (&& ReferencesOk(f.inputIds, inputIds, f.enabled, AssignedTo(c.flows, n, true))
             && ReferencesOk(f.outputIds, outputIds, f.enabled, AssignedTo(c.flows, n, false)))
            <==> FlowWired(f) && Resolves(c, f) && forall i :: 0 <= i < n ==> Compatible(c.flows[i], f)
  {
    if c.flows[n].enabled {
      AssignedShares(c.flows, n, true);
      AssignedShares(c.flows, n, false);
    }
  }

  method CheckFlow(c: Config, n: nat, inputIds: set<string>, outputIds: set<string>, takenInputs: set<string>,
          takenOutputs: set<string>)
    returns (ok: bool, nowInputs: set<string>, nowOutputs: set<string>)
    requires n < |c.flows| && FlowsAccepted(c, n)
    requires (forall id :: id in inputIds <==> Has(c.inputs, id))
            && (forall id :: id in outputIds <==> Has(c.outputs, id))
    requires takenInputs == AssignedTo(c.flows, n, true) && takenOutputs == AssignedTo(c.flows, n, false)
    ensures var f := c.flows[n];
            ok <==> FlowWired(f) && Resolves(c, f) && forall i :: 0 <= i < n ==> Compatible(c.flows[i], f)
    ensures ok ==> nowInputs == AssignedTo(c.flows, n + 1, true) && nowOutputs == AssignedTo(c.flows, n + 1, false)
  {
    var f := c.flows[n];
    ReferencesDecide(c, n, inputIds, outputIds);
    nowOutputs := takenOutputs;
    ok, nowInputs := CheckReferences(f.inputIds, inputIds, f.enabled, takenInputs);
    if ok { ok, nowOutputs := CheckReferences(f.outputIds, outputIds, f.enabled, takenOutputs); }
  }

  /** The IDs of the first `n` flows. */
  ghost predicate AreIdsOf(ids: set<string>, fs: seq<Flow>, n: nat)
    requires n <= |fs|
  {
    forall id :: id in ids <==> exists j :: 0 <= j < n && fs[j].id == id
  }

  lemma IdsOfNext(ids: set<string>, fs: seq<Flow>, n: nat)
    requires n < |fs| && AreIdsOf(ids, fs, n)
    ensures fs[n].id !in ids <==> forall i :: 0 <= i < n ==> fs[i].id != fs[n].id
    ensures AreIdsOf(ids + {fs[n].id}, fs, n + 1)
  {}

  lemma FlowDecides(c: Config, n: nat, ids: set<string>)
    requires n < |c.flows| && FlowsAccepted(c, n) && AreIdsOf(ids, c.flows, n)
    ensures var f := c.flows[n];
            FlowsAccepted(c, n + 1) <==>
            f.id !in ids && FlowWired(f) && Resolves(c, f) && forall i :: 0 <= i < n ==> Compatible(c.flows[i], f)
    ensures !FlowsAccepted(c, n + 1) ==> !FlowsAccepted(c, |c.flows|)
  {
    AcceptedNext(c, n);
    IdsOfNext(ids, c.flows, n);
    if !FlowsAccepted(c, n + 1) { RefusedStaysRefused(c, n + 1); }
  }

  method CheckFlows(c: Config, inputIds: set<string>, outputIds: set<string>) returns (ok: bool)
    requires (forall id :: id in inputIds <==> Has(c.inputs, id))
    requires (forall id :: id in outputIds <==> Has(c.outputs, id))
    ensures ok <==> FlowsAccepted(c, |c.flows|)
  {
    var flowIds, takenInputs, takenOutputs := {}, {}, {};
    for i := 0 to |c.flows|
      invariant FlowsAccepted(c, i) && AreIdsOf(flowIds, c.flows, i)
      invariant takenInputs == AssignedTo(c.flows, i, true) && takenOutputs == AssignedTo(c.flows, i, false)
    {
      FlowDecides(c, i, flowIds);
      var good: bool;
      good, takenInputs, takenOutputs := CheckFlow(c, i, inputIds, outputIds, takenInputs, takenOutputs);
      if c.flows[i].id in flowIds || !good { return false; }
      IdsOfNext(flowIds, c.flows, i);
      flowIds := flowIds + {c.flows[i].id};
    }
    return true;
  }

  /** `validate_config`, as far as it is about IDs, references and assignments. */
  method ValidateConfig(c: Config) returns (ok: bool)
    ensures ok <==> RoutesValid(c)
  {
    var inputIds, outputIds;
    ok, inputIds := CollectIds(c.inputs);
    if !ok { return; }
    ok, outputIds := CollectIds(c.outputs);
    if !ok { return; }
    assert c.flows[..|c.flows|] == c.flows;
    ok := CheckFlows(c, inputIds, outputIds);
  }

  /** The config under its write guard, one handler call at a time. */
  class RoutingConfig {
    var inputs: seq<Entity>
    var outputs: seq<Entity>
    var flows: seq<Flow>

    function Value(): Config
      reads this
    {
      Config(inputs, outputs, flows)
    }

    method CreateInputDefinition(e: Entity, valid: bool, fits: bool, saved: bool) returns (status: Status)
      modifies this
      ensures (Value(), status) == Handle(old(Value()), CreateInput(e, valid, fits), saved)
    {
      if !valid { return BadRequest; }
      var i := FindEntity(inputs, e.id);
      if i < |inputs| { return Conflict; }
      var o := FindEntity(outputs, e.id);
      if o < |outputs| { return Conflict; }
      if !fits { return BadRequest; }
      inputs := inputs + [e];
      return if saved then Done else Internal;
    }

    method UpdateInputDefinition(r: Request, saved: bool) returns (status: Status)
      requires r.UpdateInput?
      modifies this
      ensures (Value(), status) == Handle(old(Value()), r, saved)
    {
      if !r.valid { return BadRequest; }
      var i := FindEntity(inputs, r.id);
      if i == |inputs| { return NotFound; }
      if !r.fits { return BadRequest; }
      var previous := inputs[i];
      var edited := Entity(r.id, previous.active, r.entity.body);
      inputs := inputs[i := edited];
      var u := FlowUsingInput(flows, r.id);
      if u < |flows| && flows[u].enabled && r.running && previous.body != edited.body && !r.restarts {
        inputs := inputs[i := previous];
        assert inputs == old(inputs);
        return if r.restores then Conflict else Internal;
      }
      return if saved then Done else Internal;
    }

    method DeleteInputDefinition(id: string, saved: bool) returns (status: Status)
      modifies this
      ensures (Value(), status) == Handle(old(Value()), DeleteInput(id), saved)
    {
      var u := FlowUsingInput(flows, id);
      if u < |flows| { return Conflict; }
      var kept := Retain(inputs, id);
      ShorterIffHad(inputs, id);
      if |kept| == |inputs| { return NotFound; }
      inputs := kept;
      return if saved then Done else Internal;
    }

    method CreateOutputConfig(e: Entity, valid: bool, fits: bool, saved: bool) returns (status: Status)
      modifies this
      ensures (Value(), status) == Handle(old(Value()), CreateOutput(e, valid, fits), saved)
    {
      if !valid { return BadRequest; }
      var o := FindEntity(outputs, e.id);
      if o < |outputs| { return Conflict; }
      var i := FindEntity(inputs, e.id);
      if i < |inputs| { return Conflict; }
      if !fits { return BadRequest; }
      outputs := outputs + [e];
      return if saved then Done else Internal;
    }

    method UpdateOutputConfig(id: string, e: Entity, valid: bool, fits: bool, saved: bool) returns (status: Status)
      modifies this
      ensures (Value(), status) == Handle(old(Value()), UpdateOutput(id, e, valid, fits), saved)
    {
      if e.id != id || !valid { return BadRequest; }
      var i := FindEntity(outputs, id);
      if i == |outputs| { return NotFound; }
      if !fits { return BadRequest; }
      outputs := outputs[i := e.(active := outputs[i].active)];
      return if saved then Done else Internal;
    }

    method DeleteOutputConfig(id: string, saved: bool) returns (status: Status)
      modifies this
      ensures (Value(), status) == Handle(old(Value()), DeleteOutput(id), saved)
    {
      for j := 0 to |flows|
        invariant forall k :: 0 <= k < j ==> id !in flows[k].outputIds
        invariant Value() == old(Value())
      {
        if id in flows[j].outputIds { return Conflict; }
      }
      var kept := Retain(outputs, id);
      ShorterIffHad(outputs, id);
      if |kept| == |outputs| { return NotFound; }
      outputs := kept;
      return if saved then Done else Internal;
    }

    method RemoveFlow(id: string, saved: bool) returns (status: Status)
      modifies this
      ensures (Value(), status) == Handle(old(Value()), DeleteFlow(id), saved)
    {
      var i := FindFlow(flows, id);
      if i == |flows| { return NotFound; }
      flows := flows[..i] + flows[i + 1..];
      return if saved then Done else Internal;
    }

    method AddFlow(f: Flow, valid: bool, runningFlows: set<string>, saved: bool) returns (status: Status)
      modifies this
      ensures (Value(), status) == Handle(old(Value()), CreateFlow(f, valid, runningFlows), saved)
    {
      if !valid { return BadRequest; }
      if f.enabled {
        var held := IsHeldElsewhere(flows, f, runningFlows);
        if held { return BadRequest; }
      }
      var i := FindFlow(flows, f.id);
      if i < |flows| { return Conflict; }
      var ok := ResolveFlow(Value(), f);
      if !ok { return BadRequest; }
      flows := flows + [f];
      return if saved then Done else Internal;
    }

    method AssignOutput(flowId: string, outputId: string, saved: bool) returns (status: Status)
      modifies this
      ensures (Value(), status) == Handle(old(Value()), AddOutput(flowId, outputId), saved)
    {
      var i := FindFlow(flows, flowId);
      if i == |flows| { return NotFound; }
      var o := FindEntity(outputs, outputId);
      if o == |outputs| { return NotFound; }
      if outputId in flows[i].outputIds { return Conflict; }
      for j := 0 to |flows|
        invariant forall k :: 0 <= k < j ==> flows[k].id == flowId || outputId !in flows[k].outputIds
        invariant Value() == old(Value())
      {
        if flows[j].id != flowId && outputId in flows[j].outputIds { return Conflict; }
      }
      flows := flows[i := flows[i].(outputIds := flows[i].outputIds + [outputId])];
      return if saved then Done else Internal;
    }

    /** The read section of `remove_output`, before the runtime is asked: it changes nothing, so a
        removal is what its write section does, however other requests come between. */
    method CheckAssigned(flowId: string, outputId: string) returns (status: Status)
      ensures status == if exists i :: 0 <= i < |flows| && i == FlowAt(flows, flowId) && outputId in flows[i].outputIds
                        then Done else NotFound
    {
      var i := FindFlow(flows, flowId);
      if i == |flows| { return NotFound; }
      return if outputId in flows[i].outputIds then Done else NotFound;
    }

    method UnassignOutput(flowId: string, outputId: string, detaches: bool, saved: bool) returns (status: Status)
      modifies this
      ensures (Value(), status) == Handle(old(Value()), RemoveOutput(flowId, outputId, detaches), saved)
    {
      if !detaches { return Conflict; }
      var i := FindFlow(flows, flowId);
      if i == |flows| { return NotFound; }
      var ids := flows[i].outputIds;
      var k := FindId(ids, outputId);
      if k == |ids| { return NotFound; }
      flows := flows[i := flows[i].(outputIds := ids[..k] + ids[k + 1..])];
      return if saved then Done else Internal;
    }

    method SwitchInput(flowId: string, inputId: string, rest: bool, saved: bool) returns (status: Status)
      modifies this
      ensures (Value(), status) == Handle(old(Value()), ActivateInput(flowId, inputId, rest), saved)
    {
      var i := FindFlow(flows, flowId);
      if i == |flows| { return NotFound; }
      var members := flows[i].inputIds;
      if inputId !in members { return BadRequest; }
      var before := inputs;
      for j := 0 to |before|
        invariant |inputs| == |before| && outputs == old(outputs) && flows == old(flows)
        invariant forall k :: 0 <= k < j ==> inputs[k] == Switched(before, members, inputId)[k]
        invariant forall k :: j <= k < |before| ==> inputs[k] == before[k]
      {
        if inputs[j].id in members { inputs := inputs[j := inputs[j].(active := inputs[j].id == inputId)]; }
      }
      assert inputs == Switched(before, members, inputId);
      var accepted := ValidateConfig(Value());
      if !(accepted && rest) { return BadRequest; }
      return if saved then Done else Internal;
    }
  }
}
