/** One pass of the ControlPlane reconciler as a machine: each step makes one API
    call and then computes, locally, which call comes next. Between two steps the
    rest of the cluster is free to move, and any call may fail. */
module ControlPlanePass {
  import opened Wrappers
  import opened EnvVars
  import opened ControlPlaneEnv
  import opened Conditions
  import opened Metadata
  import opened Deployments
  import opened Cluster
  import opened ControlPlaneObjects

  /** How a pass ended. */
  datatype Result = Finished | Requeued | Failed(error: Error)

  /** The next API call of a pass. */
  datatype Pc =
    | GetControlPlane
    | ListBindings
    | DeleteBindings(bindings: seq<Ref>, failed: bool)
    | ListRoles
    | DeleteRoles(roles: seq<Ref>, failed: bool)
    | PutControlPlane(retry: bool)          // ends the pass
    | GetDataPlane
    | ListServices(dataPlane: Uid)
    | PutEnvironment                        // the pass goes on with the reply
    | ListKind(kind: Kind)
    | GetAuthority(secret: Object)          // reads the CA that signs a certificate
    | CreateOwned(newKind: Kind, created: Object)
    | UpdateOwned(ref: Ref, updated: Object)
    | GetStatus(retry: bool)
    | PutStatus(retry: bool)                // ends the pass
    | Done(result: Result)

  /** A pass in flight: its next call and its in-memory object. */
  datatype Proc = Proc(pc: Pc, cp: ControlPlane, names: Names)

  datatype World = World(state: State, proc: Proc)

  /** What befalls a call: it is served, it never arrives, or it is served and
      the reply is lost. */
  datatype Fault = Served | NotDelivered | ReplyLost

  /** The environment's part in a step: what others did just before the call, the
      clock, the fate of the call, and the name suffix the server picks. */
  datatype Choice = Choice(disturb: State -> State, now: int, fault: Fault, suffix: string)

  const BLANK := ControlPlane(Meta("", "", "", 0, 0, map[], [], [], None), None, None, [], [], None, [])

  function Start(): Proc {
    Proc(GetControlPlane, BLANK, Names("", "", ""))
  }

  function Stop(p: Proc, result: Result): Proc {
    p.(pc := Done(result))
  }

  // ---------------------------------------------------------------------------
  // Calls under faults
  // ---------------------------------------------------------------------------

  /** The state after a write, and what the caller sees of the reply. */
  function Landed<T>(s: State, reply: Reply<T>, fault: Fault): State {
    if fault != NotDelivered && reply.Accepted? then reply.state else s
  }

  function Seen<T>(s: State, reply: Reply<T>, fault: Fault): Reply<T> {
    if fault == Served then reply else Refused(Unavailable)
  }

  // ---------------------------------------------------------------------------
  // Local computation between calls
  // ---------------------------------------------------------------------------

  function AfterGet(p: Proc, cp: ControlPlane, now: int): Proc {
    if cp.meta.deletion.Some? then
      if cp.meta.deletion.value > now then Stop(p, Requeued) else p.(cp := cp, pc := ListBindings)
    else
      var finalizers := WithFinalizers(cp.meta.finalizers, [CLEANUP_ROLE, CLEANUP_BINDING]);
      if finalizers != cp.meta.finalizers then
        p.(cp := cp.(meta := cp.meta.(finalizers := finalizers)), pc := PutControlPlane(false))
      else AfterFinalizers(p, cp.(conditions := WithReadyReset(cp.conditions, now)), now)
  }

  function AfterFinalizers(p: Proc, cp: ControlPlane, now: int): Proc {
    if Find(cp.conditions, PROVISIONED).None? then
      p.(cp := cp.(conditions := WithScheduled(cp.conditions, now)), pc := GetStatus(false))
    else if DataPlaneIsSet(cp) then p.(cp := cp, pc := GetDataPlane)
    else AfterService(p.(cp := cp), "", now)
  }

  function AfterService(p: Proc, service: string, now: int): Proc {
    var cp := p.cp;
    var defaulted := Defaulted(cp.env, cp.meta.namespace, service, {});
    if !DefaultsHold(cp.env, cp.meta.namespace, service, {}) then
      p.(cp := cp.(env := defaulted), pc := PutControlPlane(true))
    else if !Follows(defaulted, DataPlaneIsSet(cp), cp.meta.namespace, service) then
      p.(cp := cp.(env := Followed(defaulted, DataPlaneIsSet(cp), cp.meta.namespace, service)), pc := PutEnvironment)
    else AfterEnvironment(p, cp.(env := defaulted), now)
  }

  lemma AfterServiceIgnoresPc(p: Proc, q: Proc, service: string, now: int)
    requires p.cp == q.cp && p.names == q.names
    ensures AfterService(p, service, now) == AfterService(q, service, now)
  {
  }

  function AfterEnvironment(p: Proc, cp: ControlPlane, now: int): Proc {
    p.(cp := cp.(conditions := WithDataPlaneStatus(cp.conditions, DataPlaneIsSet(cp), now)),
       pc := ListKind(ServiceAccounts))
  }

  function AfterBindings(p: Proc): Proc {
    var finalizers := Without(p.cp.meta.finalizers, CLEANUP_BINDING);
    if finalizers != p.cp.meta.finalizers then
      p.(cp := p.cp.(meta := p.cp.meta.(finalizers := finalizers)), pc := PutControlPlane(false))
    else p.(pc := ListRoles)
  }

  function AfterRoles(p: Proc): Proc {
    var finalizers := Without(p.cp.meta.finalizers, CLEANUP_ROLE);
    if finalizers != p.cp.meta.finalizers then
      p.(cp := p.cp.(meta := p.cp.meta.(finalizers := finalizers)), pc := PutControlPlane(false))
    else Stop(p, Finished)
  }

  /** The deletion loop over what was listed; it ends the pass if one failed. */
  function BindingsLeft(p: Proc, todo: seq<Ref>, failed: bool): Proc {
    if todo != [] then p.(pc := DeleteBindings(todo, failed))
    else if failed then Stop(p, Failed(Unavailable))
    else AfterBindings(p)
  }

  function RolesLeft(p: Proc, todo: seq<Ref>, failed: bool): Proc {
    if todo != [] then p.(pc := DeleteRoles(todo, failed))
    else if failed then Stop(p, Failed(Unavailable))
    else AfterRoles(p)
  }

  predicate Serving(status: DeploymentStatus) {
    status.replicas != 0 && status.available >= status.replicas
  }

  /** The stage of a kind is settled by the object found for it. */
  function AfterKind(p: Proc, kind: Kind, name: string, body: Body, now: int): Proc {
    match kind
    case ServiceAccounts => p.(names := p.names.(account := name), pc := ListKind(ClusterRoles))
    case ClusterRoles => p.(names := p.names.(role := name), pc := ListKind(ClusterRoleBindings))
    case ClusterRoleBindings => p.(pc := ListKind(Secrets))
    case Secrets => p.(names := p.names.(certificate := name), pc := ListKind(Deployments))
    case _ =>
      if body.Workload? && Serving(body.status) then
        p.(cp := p.cp.(conditions := WithProvisioned(p.cp.conditions, now)), pc := GetStatus(true))
      else Stop(p, Finished)
  }

  function AfterList(cfg: Config, s: State, p: Proc, kind: Kind, items: seq<Ref>, now: int): Proc {
    if |items| > 1 then Stop(p, Failed(TooMany))
    else
      var generated := Generated(cfg, kind, p.cp, p.names);
      if generated.None? then Stop(p, Failed(Unsupported))
      else if |items| == 0 then
        if kind == Secrets then p.(pc := GetAuthority(generated.value))
        else p.(pc := CreateOwned(kind, generated.value))
      else if items[0] !in s.objects then Stop(p, Failed(NotFound))
      else
        var existing := s.objects[items[0]];
        if ObjectNeedsRepair(existing, generated.value, p.cp) then
          p.(pc := UpdateOwned(items[0], RepairedObject(existing, generated.value, p.cp)))
        else AfterKind(p, kind, items[0].name, existing.body, now)
  }

  /** After creating or updating an owned object the pass ends, except that a
      Deployment scaled to nothing is recorded in the status first. */
  function AfterOwned(p: Proc, kind: Kind): Proc {
    if kind == Deployments && !DataPlaneIsSet(p.cp) then p.(pc := GetStatus(false)) else Stop(p, Finished)
  }

  // ---------------------------------------------------------------------------
  // Steps
  // ---------------------------------------------------------------------------

  function RetryOnConflict(retry: bool, error: Error): Result {
    if retry && error == Conflict then Requeued else Failed(error)
  }

  function PutControlPlaneStep(key: Key, w: World, ch: Choice): World
    requires w.proc.pc.PutControlPlane?
  {
    var reply := UpdateControlPlane(w.state, key, w.proc.cp);
    var seen := Seen(w.state, reply, ch.fault);
    World(Landed(w.state, reply, ch.fault),
          Stop(w.proc, if seen.Accepted? then Finished else RetryOnConflict(w.proc.pc.retry, seen.error)))
  }

  function PutEnvironmentStep(key: Key, w: World, ch: Choice): World {
    var reply := UpdateControlPlane(w.state, key, w.proc.cp);
    var seen := Seen(w.state, reply, ch.fault);
    World(Landed(w.state, reply, ch.fault),
          if seen.Accepted? then AfterEnvironment(w.proc, seen.value, ch.now)
          else Stop(w.proc, RetryOnConflict(true, seen.error)))
  }

  function PutStatusStep(key: Key, w: World, ch: Choice): World
    requires w.proc.pc.PutStatus?
  {
    var reply := UpdateStatus(w.state, key, w.proc.cp);
    var seen := Seen(w.state, reply, ch.fault);
    World(Landed(w.state, reply, ch.fault),
          Stop(w.proc, if seen.Accepted? then Finished else RetryOnConflict(w.proc.pc.retry, seen.error)))
  }

  function GetStatusStep(key: Key, w: World, ch: Choice): World
    requires w.proc.pc.GetStatus?
  {
    var stored := if key in w.state.controlPlanes then w.state.controlPlanes[key].conditions else [];
    w.(proc := if ch.fault != Served then Stop(w.proc, Failed(Unavailable))
               else if NeedsUpdate(stored, w.proc.cp.conditions) then w.proc.(pc := PutStatus(w.proc.pc.retry))
               else Stop(w.proc, Finished))
  }

  function CreateStep(w: World, ch: Choice): World
    requires w.proc.pc.CreateOwned?
  {
    var kind := w.proc.pc.newKind;
    var reply := CreateObject(w.state, kind, w.proc.pc.created, ch.suffix);
    var seen := Seen(w.state, reply, ch.fault);
    World(Landed(w.state, reply, ch.fault),
          if seen.Accepted? then AfterOwned(w.proc, kind) else Stop(w.proc, Failed(seen.error)))
  }

  function UpdateStep(w: World, ch: Choice): World
    requires w.proc.pc.UpdateOwned?
  {
    var ref := w.proc.pc.ref;
    var reply := UpdateObject(w.state, ref, w.proc.pc.updated);
    var seen := Seen(w.state, reply, ch.fault);
    World(Landed(w.state, reply, ch.fault),
          if seen.Accepted? then AfterOwned(w.proc, ref.kind) else Stop(w.proc, Failed(seen.error)))
  }

  /** One deletion; failures other than "not found" are remembered, and the loop
      goes on. */
  function DeleteFailed(s: State, ref: Ref, fault: Fault, failed: bool): bool {
    var seen := Seen(s, DeleteObject(s, ref), fault);
    failed || (seen.Refused? && seen.error != NotFound)
  }

  function DeleteBindingsStep(w: World, ch: Choice): World
    requires w.proc.pc.DeleteBindings?
  {
    var todo, failed := w.proc.pc.bindings, w.proc.pc.failed;
    if todo == [] then w.(proc := Stop(w.proc, Finished))
    else World(Landed(w.state, DeleteObject(w.state, todo[0]), ch.fault),
               BindingsLeft(w.proc, todo[1..], DeleteFailed(w.state, todo[0], ch.fault, failed)))
  }

  function DeleteRolesStep(w: World, ch: Choice): World
    requires w.proc.pc.DeleteRoles?
  {
    var todo, failed := w.proc.pc.roles, w.proc.pc.failed;
    if todo == [] then w.(proc := Stop(w.proc, Finished))
    else World(Landed(w.state, DeleteObject(w.state, todo[0]), ch.fault),
               RolesLeft(w.proc, todo[1..], DeleteFailed(w.state, todo[0], ch.fault, failed)))
  }

  ghost function Owned(s: State, kind: Kind, cp: ControlPlane): seq<Ref> {
    ListOwned(s, kind, Scope(kind, cp.meta.namespace), CONTROL_PLANE_VALUE, cp.meta.uid)
  }

  /** The local steps of a call that only reads; `Unavailable` if it fails. */
  ghost function ReadStep(cfg: Config, key: Key, s: State, p: Proc, now: int): Proc {
    match p.pc
    case GetControlPlane =>
      if key !in s.controlPlanes then Stop(p, Finished) else AfterGet(p, s.controlPlanes[key], now)
    case ListBindings => BindingsLeft(p, Owned(s, ClusterRoleBindings, p.cp), false)
    case ListRoles => RolesLeft(p, Owned(s, ClusterRoles, p.cp), false)
    case GetDataPlane =>
      var dataPlane := Key(p.cp.meta.namespace, if p.cp.dataPlane.Some? then p.cp.dataPlane.value else "");
      if dataPlane !in s.dataPlanes then Stop(p, Failed(NotFound))
      else p.(pc := ListServices(s.dataPlanes[dataPlane]))
    case ListServices(uid) =>
      var services := ListOwned(s, Services, Some(p.cp.meta.namespace), DATA_PLANE_VALUE, uid);
      if |services| > 1 then Stop(p, Failed(TooMany))
      else if |services| == 0 then Stop(p, Failed(NotFound))
      else AfterService(p, services[0].name, now)
    case ListKind(kind) => AfterList(cfg, s, p, kind, Owned(s, kind, p.cp), now)
    case GetAuthority(secret) => p.(pc := CreateOwned(Secrets, secret))
    case _ => p
  }

  /** One API call and the computation up to the next one. */
  ghost function Step(cfg: Config, key: Key, w: World, ch: Choice): World {
    match w.proc.pc
    case PutControlPlane(_) => PutControlPlaneStep(key, w, ch)
    case PutEnvironment => PutEnvironmentStep(key, w, ch)
    case GetStatus(_) => GetStatusStep(key, w, ch)
    case PutStatus(_) => PutStatusStep(key, w, ch)
    case CreateOwned(_, _) => CreateStep(w, ch)
    case UpdateOwned(_, _) => UpdateStep(w, ch)
    case DeleteBindings(_, _) => DeleteBindingsStep(w, ch)
    case DeleteRoles(_, _) => DeleteRolesStep(w, ch)
    case Done(_) => w
    case _ =>
      w.(proc := if ch.fault != Served then Stop(w.proc, Failed(Unavailable))
                 else ReadStep(cfg, key, w.state, w.proc, ch.now))
  }

  // ---------------------------------------------------------------------------
  // Whole passes
  // ---------------------------------------------------------------------------

  function KindRank(kind: Kind): nat {
    match kind
    case ServiceAccounts => 12
    case ClusterRoles => 11
    case ClusterRoleBindings => 10
    case Secrets => 9
    case _ => 8
  }

  /** Bounds the calls that a pass can still make. */
  function Rank(pc: Pc): nat {
    match pc
    case GetControlPlane => 20
    case ListBindings => 19
    case DeleteBindings(_, _) => 18
    case ListRoles => 17
    case DeleteRoles(_, _) => 16
    case GetDataPlane => 15
    case ListServices(_) => 14
    case PutEnvironment => 13
    case ListKind(kind) => KindRank(kind)
    case GetAuthority(_) => 7
    case CreateOwned(_, _) => 6
    case UpdateOwned(_, _) => 5
    case GetStatus(_) => 4
    case PutStatus(_) => 3
    case PutControlPlane(_) => 2
    case Done(_) => 0
  }

  function Todo(pc: Pc): nat {
    match pc
    case DeleteBindings(todo, _) => |todo|
    case DeleteRoles(todo, _) => |todo|
    case _ => 0
  }

  lemma AfterServiceMovesOn(p: Proc, service: string, now: int)
    ensures Rank(AfterService(p, service, now).pc) <= 13
  {
    hide Defaulted, DefaultsHold, Followed, Follows, WithDataPlaneStatus;
  }

  lemma AfterGetMovesOn(p: Proc, cp: ControlPlane, now: int)
    ensures Rank(AfterGet(p, cp, now).pc) <= 19
  {
    hide Defaulted, DefaultsHold, Followed, Follows, WithDataPlaneStatus, WithReadyReset, WithScheduled;
    hide WithFinalizers, Find, AfterService;
    var ready := cp.(conditions := WithReadyReset(cp.conditions, now));
    AfterServiceMovesOn(p.(cp := ready), "", now);
  }

  lemma AfterListMovesOn(cfg: Config, s: State, p: Proc, kind: Kind, items: seq<Ref>, now: int)
    ensures Rank(AfterList(cfg, s, p, kind, items, now).pc) < KindRank(kind)
  {
    hide Generated, ObjectNeedsRepair, RepairedObject, WithProvisioned, Serving;
  }

  lemma ReadMovesOn(cfg: Config, key: Key, s: State, p: Proc, now: int)
    requires p.pc.GetControlPlane? || p.pc.ListBindings? || p.pc.ListRoles? || p.pc.GetDataPlane?
             || p.pc.ListServices? || p.pc.ListKind? || p.pc.GetAuthority?
    ensures Rank(ReadStep(cfg, key, s, p, now).pc) < Rank(p.pc)
  {
    match p.pc
    case GetControlPlane =>
      if key in s.controlPlanes {
        AfterGetMovesOn(p, s.controlPlanes[key], now);
      }
    case ListServices(uid) =>
      var services := ListOwned(s, Services, Some(p.cp.meta.namespace), DATA_PLANE_VALUE, uid);
      if |services| == 1 {
        AfterServiceMovesOn(p, services[0].name, now);
      }
    case ListKind(kind) =>
      AfterListMovesOn(cfg, s, p, kind, Owned(s, kind, p.cp), now);
    case _ =>
  }

  /** Every step of an unfinished pass moves on: passes terminate. */
  lemma StepMovesOn(cfg: Config, key: Key, w: World, ch: Choice)
    requires !w.proc.pc.Done?
    ensures var pc' := Step(cfg, key, w, ch).proc.pc;
            Rank(pc') < Rank(w.proc.pc) || (Rank(pc') == Rank(w.proc.pc) && Todo(pc') < Todo(w.proc.pc))
  {
    hide UpdateControlPlane, UpdateStatus, CreateObject, UpdateObject, DeleteObject, NeedsUpdate, ReadStep;
    match w.proc.pc
    case DeleteBindings(_, _) =>
    case DeleteRoles(_, _) =>
    case PutControlPlane(_) =>
    case PutEnvironment =>
    case GetStatus(_) =>
    case PutStatus(_) =>
    case CreateOwned(_, _) =>
    case UpdateOwned(_, _) =>
    case _ => ReadMovesOn(cfg, key, w.state, w.proc, ch.now);
  }

  /** The pass from `w` on, its calls numbered from `i`. */
  ghost function Run(cfg: Config, key: Key, w: World, script: nat -> Choice, i: nat): World
    decreases Rank(w.proc.pc), Todo(w.proc.pc)
  {
    if w.proc.pc.Done? then w
    else
      var before := w.(state := script(i).disturb(w.state));
      StepMovesOn(cfg, key, before, script(i));
      Run(cfg, key, Step(cfg, key, before, script(i)), script, i + 1)
  }

  function Quiet(now: int, suffix: string): Choice {
    Choice(s => s, now, Served, suffix)
  }

  /** The rest of a pass whose calls all meet the same fate. */
  ghost function Finish(cfg: Config, key: Key, w: World, ch: Choice): World
    decreases Rank(w.proc.pc), Todo(w.proc.pc)
  {
    if w.proc.pc.Done? then w
    else
      StepMovesOn(cfg, key, w, ch);
      Finish(cfg, key, Step(cfg, key, w, ch), ch)
  }

  lemma FinishStep(cfg: Config, key: Key, w: World, ch: Choice)
    ensures Finish(cfg, key, w, ch) == if w.proc.pc.Done? then w else Finish(cfg, key, Step(cfg, key, w, ch), ch)
  {
  }

  /** Calls that ask the server to change something. */
  predicate IsWrite(pc: Pc) {
    || pc.PutControlPlane? || pc.PutEnvironment? || pc.PutStatus? || pc.CreateOwned? || pc.UpdateOwned?
    || pc.DeleteBindings? || pc.DeleteRoles?
  }

  /** The number of such calls in the rest of a pass, whether they succeed or not. */
  ghost function Writes(cfg: Config, key: Key, w: World, ch: Choice): nat
    decreases Rank(w.proc.pc), Todo(w.proc.pc)
  {
    if w.proc.pc.Done? then 0
    else
      StepMovesOn(cfg, key, w, ch);
      (if IsWrite(w.proc.pc) then 1 else 0) + Writes(cfg, key, Step(cfg, key, w, ch), ch)
  }

  lemma WritesStep(cfg: Config, key: Key, w: World, ch: Choice)
    ensures Writes(cfg, key, w, ch) ==
            if w.proc.pc.Done? then 0
            else (if IsWrite(w.proc.pc) then 1 else 0) + Writes(cfg, key, Step(cfg, key, w, ch), ch)
  {
  }

  /** A whole pass with no interference and no failing call. */
  ghost function Pass(cfg: Config, key: Key, s: State, now: int, suffix: string): State {
    Finish(cfg, key, World(s, Start()), Quiet(now, suffix)).state
  }

  /** An undisturbed pass is the run of any quiet script. */
  lemma {:induction false} QuietRun(cfg: Config, key: Key, w: World, script: nat -> Choice, now: int, suffix: string,
                                    i: nat)
    requires forall j: nat :: script(j) == Quiet(now, suffix)
    ensures Run(cfg, key, w, script, i) == Finish(cfg, key, w, Quiet(now, suffix))
    decreases Rank(w.proc.pc), Todo(w.proc.pc)
  {
    if !w.proc.pc.Done? {
      var ch := Quiet(now, suffix);
      StepMovesOn(cfg, key, w, ch);
      assert w.(state := ch.disturb(w.state)) == w;
      QuietRun(cfg, key, Step(cfg, key, w, ch), script, now, suffix, i + 1);
    }
  }
}
