/** The API client of the reconciler, and its copy of the ControlPlane, both of
    which it changes in place. */
module ControlPlaneClient {
  import opened Wrappers
  import opened EnvVars
  import opened ControlPlaneEnv
  import opened Conditions
  import opened Metadata
  import opened Deployments
  import opened Cluster
  import opened ControlPlaneObjects
  import opened ControlPlanePass

  datatype Outcome<T> = Ok(value: T) | Err(error: Error)

  /** A listed object with the reference that it is stored under. */
  datatype Listed = Listed(ref: Ref, content: Object)

  // ---------------------------------------------------------------------------
  // The API client
  // ---------------------------------------------------------------------------

  /** Stands for the API server and for all that happens between its calls: the
      script says what others do before each call, and how the call fares. */
  class ApiClient {
    var state: State
    var calls: nat
    const script: nat -> Choice
    const listing: set<Ref> -> seq<Ref>

    constructor (state: State, script: nat -> Choice, listing: set<Ref> -> seq<Ref>)
      ensures this.state == state && calls == 0 && this.script == script && this.listing == listing
    {
      this.state, this.calls, this.script, this.listing := state, 0, script, listing;
    }

    /** Lists come in the server's order. */
    ghost predicate Valid() {
      forall refs :: listing(refs) == Listing(refs)
    }

    /** The clock as of the last call. */
    function Now(): int
      reads this
    {
      if calls == 0 then 0 else script(calls - 1).now
    }

    method Arrive() returns (choice: Choice)
      modifies this
      ensures calls == old(calls) + 1 && choice == script(old(calls))
      ensures state == choice.disturb(old(state))
    {
      choice := script(calls);
      state := choice.disturb(state);
      calls := calls + 1;
    }

    method Get(key: Key) returns (got: Outcome<ControlPlane>)
      modifies this
      ensures var choice := script(old(calls));
              && calls == old(calls) + 1 && state == choice.disturb(old(state))
              && got == if choice.fault != Served then Err(Unavailable)
                        else if key !in state.controlPlanes then Err(NotFound)
                        else Ok(state.controlPlanes[key])
    {
      var choice := Arrive();
      if choice.fault != Served {
        return Err(Unavailable);
      }
      got := if key in state.controlPlanes then Ok(state.controlPlanes[key]) else Err(NotFound);
    }

    method Update(key: Key, cp: ControlPlane) returns (got: Outcome<ControlPlane>)
      modifies this
      ensures var choice := script(old(calls));
              var reply := UpdateControlPlane(choice.disturb(old(state)), key, cp);
              var seen := Seen(choice.disturb(old(state)), reply, choice.fault);
              && calls == old(calls) + 1 && state == Landed(choice.disturb(old(state)), reply, choice.fault)
              && got == if seen.Accepted? then Ok(seen.value) else Err(seen.error)
    {
      var choice := Arrive();
      var reply := UpdateControlPlane(state, key, cp);
      var seen := Seen(state, reply, choice.fault);
      state := Landed(state, reply, choice.fault);
      got := if seen.Accepted? then Ok(seen.value) else Err(seen.error);
    }

    method StatusUpdate(key: Key, cp: ControlPlane) returns (error: Option<Error>)
      modifies this
      ensures var choice := script(old(calls));
              var reply := UpdateStatus(choice.disturb(old(state)), key, cp);
              var seen := Seen(choice.disturb(old(state)), reply, choice.fault);
              && calls == old(calls) + 1 && state == Landed(choice.disturb(old(state)), reply, choice.fault)
              && error == if seen.Accepted? then None else Some(seen.error)
    {
      var choice := Arrive();
      var reply := UpdateStatus(state, key, cp);
      var seen := Seen(state, reply, choice.fault);
      state := Landed(state, reply, choice.fault);
      error := if seen.Accepted? then None else Some(seen.error);
    }

    method Create(kind: Kind, o: Object) returns (error: Option<Error>)
      modifies this
      ensures var choice := script(old(calls));
              var reply := CreateObject(choice.disturb(old(state)), kind, o, choice.suffix);
              var seen := Seen(choice.disturb(old(state)), reply, choice.fault);
              && calls == old(calls) + 1 && state == Landed(choice.disturb(old(state)), reply, choice.fault)
              && error == if seen.Accepted? then None else Some(seen.error)
    {
      var choice := Arrive();
      var reply := CreateObject(state, kind, o, choice.suffix);
      var seen := Seen(state, reply, choice.fault);
      state := Landed(state, reply, choice.fault);
      error := if seen.Accepted? then None else Some(seen.error);
    }

    method Store(ref: Ref, o: Object) returns (error: Option<Error>)
      modifies this
      ensures var choice := script(old(calls));
              var reply := UpdateObject(choice.disturb(old(state)), ref, o);
              var seen := Seen(choice.disturb(old(state)), reply, choice.fault);
              && calls == old(calls) + 1 && state == Landed(choice.disturb(old(state)), reply, choice.fault)
              && error == if seen.Accepted? then None else Some(seen.error)
    {
      var choice := Arrive();
      var reply := UpdateObject(state, ref, o);
      var seen := Seen(state, reply, choice.fault);
      state := Landed(state, reply, choice.fault);
      error := if seen.Accepted? then None else Some(seen.error);
    }

    method Delete(ref: Ref) returns (error: Option<Error>)
      modifies this
      ensures var choice := script(old(calls));
              var reply := DeleteObject(choice.disturb(old(state)), ref);
              var seen := Seen(choice.disturb(old(state)), reply, choice.fault);
              && calls == old(calls) + 1 && state == Landed(choice.disturb(old(state)), reply, choice.fault)
              && error == if seen.Accepted? then None else Some(seen.error)
    {
      var choice := Arrive();
      var reply := DeleteObject(state, ref);
      var seen := Seen(state, reply, choice.fault);
      state := Landed(state, reply, choice.fault);
      error := if seen.Accepted? then None else Some(seen.error);
    }

    /** A call whose answer does not matter for this model. */
    method Read() returns (error: Option<Error>)
      modifies this
      ensures var choice := script(old(calls));
              && calls == old(calls) + 1 && state == choice.disturb(old(state))
              && error == if choice.fault != Served then Some(Unavailable) else None
    {
      var choice := Arrive();
      error := if choice.fault != Served then Some(Unavailable) else None;
    }

    method FindDataPlane(key: Key) returns (got: Outcome<Uid>)
      modifies this
      ensures var choice := script(old(calls));
              && calls == old(calls) + 1 && state == choice.disturb(old(state))
              && got == if choice.fault != Served then Err(Unavailable)
                        else if key !in state.dataPlanes then Err(NotFound)
                        else Ok(state.dataPlanes[key])
    {
      var choice := Arrive();
      if choice.fault != Served {
        return Err(Unavailable);
      }
      got := if key in state.dataPlanes then Ok(state.dataPlanes[key]) else Err(NotFound);
    }

    /** Lists by label, then keeps what the owner owns. */
    method ListForOwner(kind: Kind, scope: Option<string>, value: string, uid: Uid) returns (got: Outcome<seq<Listed>>)
      requires Valid()
      modifies this
      ensures var choice := script(old(calls));
              && calls == old(calls) + 1 && state == choice.disturb(old(state))
              && (if choice.fault != Served then got == Err(Unavailable)
                  else && got.Ok? && Refs(got.value) == ListOwned(state, kind, scope, value, uid)
                       && forall l | l in got.value ::
                            && l.ref in state.objects && l.content == state.objects[l.ref]
                            && l.ref.kind == kind && Carries(l.content.meta, CONTROLLED_LABEL, value))
    {
      hide Carries, OwnedBy, OwnedItems, Listing;
      var choice := Arrive();
      if choice.fault != Served {
        return Err(Unavailable);
      }
      var labelled := Labelled(state, kind, scope, value);
      ListingIsEnumeration(labelled);
      var items := listing(labelled);
      var owned := FilterOwned(state, items, uid);
      ListOwnedIsOwnedRefs(state, kind, scope, value, uid);
      var listed := WithContents(state, owned);
      got := Ok(listed);
    }
  }

  method WithContents(s: State, refs: seq<Ref>) returns (listed: seq<Listed>)
    requires forall r | r in refs :: r in s.objects
    ensures Refs(listed) == refs && forall l | l in listed :: l.ref in refs && l.content == s.objects[l.ref]
  {
    listed := [];
    for i := 0 to |refs|
      invariant Refs(listed) == refs[..i]
      invariant forall l | l in listed :: l.ref in refs && l.content == s.objects[l.ref]
    {
      listed := listed + [Listed(refs[i], s.objects[refs[i]])];
    }
  }

  function Refs(listed: seq<Listed>): (refs: seq<Ref>)
    ensures |refs| == |listed|
    ensures forall i | 0 <= i < |listed| :: refs[i] == listed[i].ref
  {
    seq(|listed|, i requires 0 <= i < |listed| => listed[i].ref)
  }

  // ---------------------------------------------------------------------------
  // The object in memory
  // ---------------------------------------------------------------------------

  /** The reconciler's copy of a ControlPlane. */
  class ControlPlaneCopy {
    var meta: Meta
    var image: Option<string>
    var version: Option<string>
    var envFrom: seq<EnvFromSource>
    const options: DeploymentOptions
    const status: ConditionsAware

    constructor (cp: ControlPlane)
      ensures Value() == cp && fresh(options) && fresh(status)
    {
      meta, image, version, envFrom := cp.meta, cp.image, cp.version, cp.envFrom;
      options := new DeploymentOptions(cp.env, cp.dataPlane);
      status := new ConditionsAware(cp.conditions);
    }

    function Value(): ControlPlane
      reads this, options, status
    {
      ControlPlane(meta, image, version, options.env, envFrom, options.dataPlane, status.conditions)
    }

    /** A write refreshes the copy from the reply. */
    method Refresh(cp: ControlPlane)
      modifies this, options, status
      ensures Value() == cp
    {
      meta, image, version, envFrom := cp.meta, cp.image, cp.version, cp.envFrom;
      options.env, options.dataPlane := cp.env, cp.dataPlane;
      status.conditions := cp.conditions;
    }

    method EnsureIsMarkedScheduled(now: int) returns (marked: bool)
      modifies status
      ensures marked <==> Find(old(status.conditions), PROVISIONED).None?
      ensures status.conditions == if marked then WithScheduled(old(status.conditions), now) else old(status.conditions)
      ensures marked ==>
                var found := Find(status.conditions, "Provisioned");
                && found.Some?
                && VerdictOf(found.value) == Verdict(StatusFalse, "PodsNotReady",
                                                     "ControlPlane resource is scheduled for provisioning")
    {
      SchedulingSays(status.conditions, now, "");
      var present := status.GetCondition(PROVISIONED);
      marked := present.None?;
      if marked {
        status.SetCondition(NewCondition(PROVISIONED, StatusFalse, PODS_NOT_READY,
                                         "ControlPlane resource is scheduled for provisioning", now));
      }
    }

    method EnsureDataPlaneStatus(now: int) returns (dataPlaneIsSet: bool)
      modifies status
      ensures dataPlaneIsSet <==> DataPlaneIsSet(old(Value()))
      ensures status.conditions == WithDataPlaneStatus(old(status.conditions), dataPlaneIsSet, now)
      ensures SaysWhether(old(status.conditions), status.conditions, dataPlaneIsSet)
      ensures Find(status.conditions, "Provisioned").value.reason ==
              if old(options.dataPlane.Some? && options.dataPlane.value != "") then "PodsNotReady" else "NoDataplane"
    {
      MarkingSaysWhether(status.conditions, DataPlaneIsSet(Value()), now, "");
      dataPlaneIsSet := options.dataPlane.Some? && options.dataPlane.value != "";
      var present := status.GetCondition(PROVISIONED);
      var wanted := NewCondition(PROVISIONED, StatusFalse, NO_DATA_PLANE, "DataPlane is not set", now);
      if dataPlaneIsSet {
        wanted := NewCondition(PROVISIONED, StatusFalse, PODS_NOT_READY,
                               "DataPlane was set, ControlPlane resource is scheduled for provisioning", now);
      }
      if present.None? || present.value.status != wanted.status || present.value.reason != wanted.reason {
        status.SetCondition(wanted);
      }
    }

    method EnsureIsMarkedProvisioned(now: int)
      modifies status
      ensures status.conditions == WithProvisioned(old(status.conditions), now)
      ensures var found := Find(status.conditions, "Provisioned");
              && found.Some?
              && VerdictOf(found.value) == Verdict(StatusTrue, "PodsReady", "pods for all Deployments are ready")
    {
      ConcludingSays(status.conditions, now);
      status.SetCondition(NewCondition(PROVISIONED, StatusTrue, PODS_READY, "pods for all Deployments are ready", now));
      status.SetReady(now);
    }
  }
}
