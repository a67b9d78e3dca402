/**
 * What one discovery pass does, stated over the model in discovery.dfy:
 * which datasource ids are reused, registered or logged as of unknown type,
 * what is registered and in what batches, how a handler constructor that
 * throws ends the pass, and what a failed fetch and a repeated pass do.
 */
module DiscoveryProperties {
  import opened Options
  import opened Discovery

  // ---------------------------------------------------------------------------
  // The filters distribute over concatenation

  lemma AppendAssociative<T>(a: seq<T>, b: seq<T>, c: seq<T>)
    ensures (a + b) + c == a + (b + c)
  {
  }

  /** The calls so far plus one more loop iteration's calls are the calls of one more step. */
  lemma LogStep(before: seq<Event>, plan: seq<Step>, i: nat)
    requires i < |plan|
    ensures (before + Events(plan[..i])) + StepEvents(plan[i]) == before + Events(plan[..i + 1])
  {
    var p := plan[..i + 1];
    assert p[..|p| - 1] == plan[..i];
    AppendAssociative(before, Events(plan[..i]), StepEvents(plan[i]));
  }

  lemma DropPrefix<T>(a: seq<T>, b: seq<T>)
    ensures (a + b)[|a|..] == b
  {
  }

  /** The record built for each datasource is `ToContext` of it. */
  lemma DevicesAreContexts(datasources: seq<Datasource>)
    ensures forall i :: 0 <= i < |datasources| ==> DeviceContexts(datasources)[i] == ToContext(datasources[i])
  {
  }

  /** The two shapes of a pass, one per fetch outcome. */
  lemma DiscoverEventsUnfold(baseUrl: string, accessories: seq<Accessory>, response: FetchResult,
                             generate: string -> Uuid)
    ensures response.NotOk? ==>
      DiscoverEvents(baseUrl, accessories, response, generate) ==
        [FetchDatasources(baseUrl + DatasourcesPath), FetchFailed]
    ensures response.Ok? ==>
      DiscoverEvents(baseUrl, accessories, response, generate) ==
        [FetchDatasources(baseUrl + DatasourcesPath)]
        + PassEvents(Plan(accessories, DeviceContexts(response.datasources), generate))
  {
  }

  lemma {:induction false} RegistrationsAppend(a: seq<Event>, b: seq<Event>)
    ensures Registrations(a + b) == Registrations(a) + Registrations(b)
    decreases |b|
  {
    if b != [] {
      assert (a + b)[..|a + b| - 1] == a + b[..|b| - 1];
      RegistrationsAppend(a, b[..|b| - 1]);
    } else {
      assert a + b == a;
    }
  }

  lemma {:induction false} DispatchedAppend(a: seq<Event>, b: seq<Event>)
    ensures Dispatched(a + b) == Dispatched(a) + Dispatched(b)
    decreases |b|
  {
    if b != [] {
      assert (a + b)[..|a + b| - 1] == a + b[..|b| - 1];
      DispatchedAppend(a, b[..|b| - 1]);
    } else {
      assert a + b == a;
    }
  }

  lemma {:induction false} OutcomesAppend(a: seq<Event>, b: seq<Event>)
    ensures Outcomes(a + b) == Outcomes(a) + Outcomes(b)
    decreases |b|
  {
    if b != [] {
      assert (a + b)[..|a + b| - 1] == a + b[..|b| - 1];
      OutcomesAppend(a, b[..|b| - 1]);
    } else {
      assert a + b == a;
    }
  }

  lemma RegistrationsOne(e: Event)
    ensures Registrations([e]) == if e.RegisterAccessories? then [e.batch] else []
  {
    assert [e][..0] == [];
  }

  lemma DispatchedOne(e: Event)
    ensures Dispatched([e]) == if e.AttachHandler? || e.UnknownType? || e.HandlerThrew? then [e.accessory] else []
  {
    assert [e][..0] == [];
  }

  lemma OutcomesOne(e: Event)
    ensures Outcomes([e]) ==
      match e
      case AttachHandler(_, kind) => [Attached(kind)]
      case UnknownType(_, _) => [NoHandler]
      case HandlerThrew(_, kind) => [Threw(kind)]
      case _ => []
  {
    assert [e][..0] == [];
  }

  /** `createAccessoryByType` makes one call, which is what `OutcomeOf` says it should be. */
  lemma DispatchEffects(accessory: Accessory, tag: string)
    ensures Dispatched(DispatchEvents(accessory, tag)) == [accessory]
    ensures Registrations(DispatchEvents(accessory, tag)) == []
    ensures Outcomes(DispatchEvents(accessory, tag)) == [OutcomeOf(accessory, tag)]
  {
    var d := DispatchEvents(accessory, tag);
    assert d == [d[0]];
    DispatchedOne(d[0]);
    RegistrationsOne(d[0]);
    OutcomesOne(d[0]);
  }

  lemma RegisterStepDispatched(device: DeviceContext, created: Accessory)
    ensures Dispatched(StepEvents(Register(device, created))) == [created]
  {
    var c := [ConstructAccessory(device.dsName, created.uuid)];
    var d := DispatchEvents(created, device.dsType);
    var r := [RegisterAccessories([created])];
    DispatchedOne(c[0]);
    DispatchedOne(r[0]);
    DispatchEffects(created, device.dsType);
    DispatchedAppend(c, d);
    DispatchedAppend(c + d, r);
  }

  lemma RegisterStepRegistrations(device: DeviceContext, created: Accessory)
    ensures Registrations(StepEvents(Register(device, created))) == [[created]]
  {
    var c := [ConstructAccessory(device.dsName, created.uuid)];
    var d := DispatchEvents(created, device.dsType);
    var r := [RegisterAccessories([created])];
    RegistrationsOne(c[0]);
    RegistrationsOne(r[0]);
    DispatchEffects(created, device.dsType);
    RegistrationsAppend(c, d);
    RegistrationsAppend(c + d, r);
  }

  lemma RegisterStepOutcomes(device: DeviceContext, created: Accessory)
    ensures Outcomes(StepEvents(Register(device, created))) == [OutcomeOf(created, device.dsType)]
  {
    var c := [ConstructAccessory(device.dsName, created.uuid)];
    var d := DispatchEvents(created, device.dsType);
    var r := [RegisterAccessories([created])];
    OutcomesOne(c[0]);
    OutcomesOne(r[0]);
    DispatchEffects(created, device.dsType);
    OutcomesAppend(c, d);
    OutcomesAppend(c + d, r);
  }

  /** Exactly one dispatch per step. */
  lemma StepDispatched(s: Step)
    ensures Dispatched(StepEvents(s)) == [Target(s)]
  {
    match s
    case Reuse(device, _, restored) =>
      DispatchEffects(restored, device.dsType);
    case Register(device, created) =>
      RegisterStepDispatched(device, created);
  }

  /** A registration only for a new accessory. */
  lemma StepRegistrations(s: Step)
    ensures Registrations(StepEvents(s)) == if s.Register? then [[s.created]] else []
  {
    match s
    case Reuse(device, _, restored) =>
      DispatchEffects(restored, device.dsType);
    case Register(device, created) =>
      RegisterStepRegistrations(device, created);
  }

  /** The one dispatch of a step has the outcome `OutcomeOf` predicts. */
  lemma StepOutcomes(s: Step)
    ensures Outcomes(StepEvents(s)) == [OutcomeOf(Target(s), s.device.dsType)]
  {
    match s
    case Reuse(device, _, restored) =>
      DispatchEffects(restored, device.dsType);
    case Register(device, created) =>
      RegisterStepOutcomes(device, created);
  }

  // ---------------------------------------------------------------------------
  // Where the loop stops

  /**
   * `createAccessoryByType` throws on a device exactly when its tag names a
   * handler and the first restored accessory with its identity holds no
   * device record; a new accessory always carries one.
   */
  lemma ThrowsExactly(accessories: seq<Accessory>, device: DeviceContext, generate: string -> Uuid)
    ensures var found := FindByUuid(accessories, Identity(generate, device.dsId));
      Throws(Decide(accessories, device, generate)) <==>
        && HandlerFor(device.dsType).Some?
        && found.Some?
        && accessories[found.value].device.None?
  {
  }

  lemma ReachedFirstThrow(plan: seq<Step>, k: nat)
    requires k < |plan| && Throws(plan[k])
    requires forall j :: 0 <= j < k ==> !Throws(plan[j])
    ensures Reached(plan) == k + 1
  {
  }

  lemma ReachedNoThrow(plan: seq<Step>)
    requires forall j :: 0 <= j < |plan| ==> !Throws(plan[j])
    ensures Reached(plan) == |plan|
  {
  }

  /** When step `i` is the first to throw, the pass is the first `i + 1` loop iterations. */
  lemma PassAfterThrow(plan: seq<Step>, i: nat)
    requires i < |plan| && Throws(plan[i])
    requires forall j :: 0 <= j < i ==> !Throws(plan[j])
    ensures PassEvents(plan) == Events(plan[..i + 1])
  {
    ReachedFirstThrow(plan, i);
  }

  /** When no step throws, the pass is every loop iteration. */
  lemma PassWithoutThrow(plan: seq<Step>)
    requires forall j :: 0 <= j < |plan| ==> !Throws(plan[j])
    ensures PassEvents(plan) == Events(plan[..|plan|])
  {
    ReachedNoThrow(plan);
  }

  lemma NoThrowExtends(plan: seq<Step>, i: nat)
    requires i < |plan| && !Throws(plan[i])
    requires forall j :: 0 <= j < i ==> !Throws(plan[j])
    ensures forall j :: 0 <= j < i + 1 ==> !Throws(plan[j])
  {
  }

  /** A plan none of whose steps throws comes from devices none of whose decisions throws. */
  lemma NoThrowAnywhere(accessories: seq<Accessory>, devices: seq<DeviceContext>, generate: string -> Uuid)
    requires forall j :: 0 <= j < |devices| ==> !Throws(Plan(accessories, devices, generate)[j])
    ensures !exists j :: 0 <= j < |devices| && Throws(Decide(accessories, devices[j], generate))
  {
    forall j | 0 <= j < |devices|
      ensures !Throws(Decide(accessories, devices[j], generate))
    {
      assert Plan(accessories, devices, generate)[j] == Decide(accessories, devices[j], generate);
    }
  }

  // ---------------------------------------------------------------------------
  // One outcome per device

  lemma {:induction false} OutcomeCounts(plan: seq<Step>)
    ensures ReusedCount(plan) + RegisteredCount(plan) == |plan|
  {
    if plan != [] {
      OutcomeCounts(plan[..|plan| - 1]);
    }
  }

  /** The steps the loop runs are each a reuse or a registration, and all steps run when none throws. */
  lemma ReachedCounts(plan: seq<Step>)
    ensures ReusedCount(plan[..Reached(plan)]) + RegisteredCount(plan[..Reached(plan)]) == Reached(plan)
    ensures (forall i :: 0 <= i < |plan| ==> !Throws(plan[i])) ==> Reached(plan) == |plan|
  {
    OutcomeCounts(plan[..Reached(plan)]);
    if forall i :: 0 <= i < |plan| ==> !Throws(plan[i]) {
      ReachedNoThrow(plan);
    }
  }

  /**
   * Every fetched datasource gets exactly one decision, in fetched order; the
   * pass carries out those of the datasources it reaches, each of which is
   * either reused or registered, and it reaches all of them when no handler
   * throws.
   */
  lemma OneOutcomePerDatasource(accessories: seq<Accessory>, datasources: seq<Datasource>, generate: string -> Uuid)
    ensures var plan := Plan(accessories, DeviceContexts(datasources), generate);
      && |plan| == |datasources|
      && (forall i :: 0 <= i < |plan| ==> plan[i].device.dsId == datasources[i].id)
      && ReusedCount(plan) + RegisteredCount(plan) == |datasources|
    ensures var plan := Plan(accessories, DeviceContexts(datasources), generate);
      var reached := plan[..Reached(plan)];
      && ReusedCount(reached) + RegisteredCount(reached) == Reached(plan)
      && ((forall i :: 0 <= i < |datasources| ==> !Throws(plan[i])) ==> Reached(plan) == |datasources|)
  {
    var plan := Plan(accessories, DeviceContexts(datasources), generate);
    OutcomeCounts(plan);
    ReachedCounts(plan);
  }

  // ---------------------------------------------------------------------------
  // Which ids end up where

  /** Among the first `n` devices, an id is reused exactly when some restored accessory carries its identity. */
  lemma ReusedIdsOfPlan(accessories: seq<Accessory>, devices: seq<DeviceContext>, generate: string -> Uuid, n: nat)
    requires n <= |devices|
    ensures ReusedIds(Plan(accessories, devices, generate)[..n]) ==
      set i | 0 <= i < n && HasUuid(accessories, Identity(generate, devices[i].dsId)) :: devices[i].dsId
  {
    var plan := Plan(accessories, devices, generate)[..n];
    var want := set i | 0 <= i < n && HasUuid(accessories, Identity(generate, devices[i].dsId)) :: devices[i].dsId;
    forall x | x in ReusedIds(plan) ensures x in want {
      var i :| 0 <= i < |plan| && plan[i].Reuse? && plan[i].device.dsId == x;
      assert plan[i] == Decide(accessories, devices[i], generate);
      assert HasUuid(accessories, Identity(generate, devices[i].dsId)) && devices[i].dsId == x;
    }
    forall x | x in want ensures x in ReusedIds(plan) {
      var i :| 0 <= i < n && HasUuid(accessories, Identity(generate, devices[i].dsId)) && devices[i].dsId == x;
      assert plan[i] == Decide(accessories, devices[i], generate);
      assert plan[i].Reuse? && plan[i].device.dsId == x;
    }
  }

  /** Among the first `n` devices, an id is registered exactly when no restored accessory carries its identity. */
  lemma RegisteredIdsOfPlan(accessories: seq<Accessory>, devices: seq<DeviceContext>, generate: string -> Uuid, n: nat)
    requires n <= |devices|
    ensures RegisteredIds(Plan(accessories, devices, generate)[..n]) ==
      set i | 0 <= i < n && !HasUuid(accessories, Identity(generate, devices[i].dsId)) :: devices[i].dsId
  {
    var plan := Plan(accessories, devices, generate)[..n];
    var want := set i | 0 <= i < n && !HasUuid(accessories, Identity(generate, devices[i].dsId)) :: devices[i].dsId;
    forall x | x in RegisteredIds(plan) ensures x in want {
      var i :| 0 <= i < |plan| && plan[i].Register? && plan[i].device.dsId == x;
      assert plan[i] == Decide(accessories, devices[i], generate);
      assert !HasUuid(accessories, Identity(generate, devices[i].dsId)) && devices[i].dsId == x;
    }
    forall x | x in want ensures x in RegisteredIds(plan) {
      var i :| 0 <= i < n && !HasUuid(accessories, Identity(generate, devices[i].dsId)) && devices[i].dsId == x;
      assert plan[i] == Decide(accessories, devices[i], generate);
      assert plan[i].Register? && plan[i].device.dsId == x;
    }
  }

  /** Selecting among the first `n` records by id is selecting among the first `n` datasources by id. */
  lemma IdsOfDatasources(datasources: seq<Datasource>, n: nat, keep: int -> bool)
    requires n <= |datasources|
    ensures (set i | 0 <= i < n && keep(DeviceContexts(datasources)[i].dsId) :: DeviceContexts(datasources)[i].dsId)
      == (set i | 0 <= i < n && keep(datasources[i].id) :: datasources[i].id)
  {
    var devices := DeviceContexts(datasources);
    var byDevice := set i | 0 <= i < n && keep(devices[i].dsId) :: devices[i].dsId;
    var byDatasource := set i | 0 <= i < n && keep(datasources[i].id) :: datasources[i].id;
    forall x | x in byDevice ensures x in byDatasource {
      var i :| 0 <= i < n && keep(devices[i].dsId) && devices[i].dsId == x;
      assert devices[i].dsId == datasources[i].id;
    }
    forall x | x in byDatasource ensures x in byDevice {
      var i :| 0 <= i < n && keep(datasources[i].id) && datasources[i].id == x;
      assert devices[i].dsId == datasources[i].id;
    }
  }

  /** Among the datasources the pass reaches, an id is reused exactly when some restored accessory carries its identity. */
  lemma ReusedIdsExactly(accessories: seq<Accessory>, datasources: seq<Datasource>, generate: string -> Uuid)
    ensures var plan := Plan(accessories, DeviceContexts(datasources), generate);
      var n := Reached(plan);
      ReusedIds(plan[..n]) ==
        set i | 0 <= i < n && HasUuid(accessories, Identity(generate, datasources[i].id)) :: datasources[i].id
  {
    var devices := DeviceContexts(datasources);
    var n := Reached(Plan(accessories, devices, generate));
    ReusedIdsOfPlan(accessories, devices, generate, n);
    IdsOfDatasources(datasources, n, id => HasUuid(accessories, Identity(generate, id)));
  }

  /** Among the datasources the pass reaches, an id is registered exactly when no restored accessory carries its identity. */
  lemma RegisteredIdsExactly(accessories: seq<Accessory>, datasources: seq<Datasource>, generate: string -> Uuid)
    ensures var plan := Plan(accessories, DeviceContexts(datasources), generate);
      var n := Reached(plan);
      RegisteredIds(plan[..n]) ==
        set i | 0 <= i < n && !HasUuid(accessories, Identity(generate, datasources[i].id)) :: datasources[i].id
  {
    var devices := DeviceContexts(datasources);
    var n := Reached(Plan(accessories, devices, generate));
    RegisteredIdsOfPlan(accessories, devices, generate, n);
    IdsOfDatasources(datasources, n, id => !HasUuid(accessories, Identity(generate, id)));
  }

  lemma PartitionOfPlan(accessories: seq<Accessory>, devices: seq<DeviceContext>, generate: string -> Uuid, n: nat)
    requires n <= |devices|
    ensures var plan := Plan(accessories, devices, generate)[..n];
      && ReusedIds(plan) !! RegisteredIds(plan)
      && ReusedIds(plan) + RegisteredIds(plan) == set i | 0 <= i < n :: devices[i].dsId
  {
    var plan := Plan(accessories, devices, generate)[..n];
    ReusedIdsOfPlan(accessories, devices, generate, n);
    RegisteredIdsOfPlan(accessories, devices, generate, n);
    var all := set i | 0 <= i < n :: devices[i].dsId;
    forall x | x in all ensures x in ReusedIds(plan) + RegisteredIds(plan) {
      var i :| 0 <= i < n && devices[i].dsId == x;
      assert plan[i] == Decide(accessories, devices[i], generate);
    }
  }

  /** No id the pass reaches is both reused and registered, and every one it reaches is one of the two. */
  lemma ReusedAndRegisteredPartitionIds(accessories: seq<Accessory>, datasources: seq<Datasource>, generate: string -> Uuid)
    ensures var plan := Plan(accessories, DeviceContexts(datasources), generate);
      var n := Reached(plan);
      && ReusedIds(plan[..n]) !! RegisteredIds(plan[..n])
      && ReusedIds(plan[..n]) + RegisteredIds(plan[..n]) == set i | 0 <= i < n :: datasources[i].id
  {
    var devices := DeviceContexts(datasources);
    var n := Reached(Plan(accessories, devices, generate));
    PartitionOfPlan(accessories, devices, generate, n);
    IdsOfDatasources(datasources, n, id => true);
  }

  // ---------------------------------------------------------------------------
  // What is registered and dispatched

  /** The registrations of a pass are one-element batches of its new accessories, in order. */
  lemma {:induction false} RegistrationsOfPlan(plan: seq<Step>)
    ensures |Registrations(Events(plan))| == |NewAccessories(plan)| == RegisteredCount(plan)
    ensures forall k :: 0 <= k < |NewAccessories(plan)| ==> Registrations(Events(plan))[k] == [NewAccessories(plan)[k]]
  {
    if plan != [] {
      var init, last := plan[..|plan| - 1], plan[|plan| - 1];
      RegistrationsOfPlan(init);
      assert Events(plan) == Events(init) + StepEvents(last);
      RegistrationsAppend(Events(init), StepEvents(last));
      StepRegistrations(last);
      assert NewAccessories(plan) == NewAccessories(init) + if last.Register? then [last.created] else [];
    }
  }

  /** The accessories handed to `createAccessoryByType` are the steps' targets, one per device, in order. */
  lemma {:induction false} DispatchedOfPlan(plan: seq<Step>)
    ensures Dispatched(Events(plan)) == Targets(plan)
  {
    if plan != [] {
      var init, last := plan[..|plan| - 1], plan[|plan| - 1];
      DispatchedOfPlan(init);
      DispatchedAppend(Events(init), StepEvents(last));
      StepDispatched(last);
    }
  }

  /** The host calls show, for each step in order, the outcome `OutcomeOf` predicts for its target and tag. */
  lemma {:induction false} OutcomesOfPlan(plan: seq<Step>)
    ensures Outcomes(Events(plan)) == PlannedOutcomes(plan)
  {
    if plan != [] {
      var init, last := plan[..|plan| - 1], plan[|plan| - 1];
      OutcomesOfPlan(init);
      OutcomesAppend(Events(init), StepEvents(last));
      StepOutcomes(last);
    }
  }

  /** The unknown-type error is logged for exactly the steps whose tag names no handler. */
  lemma UnknownTypeIdsOfPlan(plan: seq<Step>)
    ensures UnknownTypeIds(plan) ==
      set i | 0 <= i < |plan| && HandlerFor(plan[i].device.dsType).None? :: plan[i].device.dsId
  {
    OutcomesOfPlan(plan);
  }

  /** Each step of a plan prefix is about its own device. */
  lemma PlanDevice(accessories: seq<Accessory>, devices: seq<DeviceContext>, generate: string -> Uuid, n: nat, i: nat)
    requires i < n <= |devices|
    ensures |Plan(accessories, devices, generate)[..n]| == n
    ensures Plan(accessories, devices, generate)[..n][i].device == devices[i]
  {
    assert Plan(accessories, devices, generate)[i] == Decide(accessories, devices[i], generate);
  }

  /** Among the first `n` devices, the unknown-type error is logged for those whose tag names no handler. */
  lemma UnknownTypeIdsOfDevices(accessories: seq<Accessory>, devices: seq<DeviceContext>, generate: string -> Uuid, n: nat)
    requires n <= |devices|
    ensures UnknownTypeIds(Plan(accessories, devices, generate)[..n]) ==
      set i | 0 <= i < n && HandlerFor(devices[i].dsType).None? :: devices[i].dsId
  {
    var r := Plan(accessories, devices, generate)[..n];
    UnknownTypeIdsOfPlan(r);
    var want := set i | 0 <= i < n && HandlerFor(devices[i].dsType).None? :: devices[i].dsId;
    var got := set i | 0 <= i < |r| && HandlerFor(r[i].device.dsType).None? :: r[i].device.dsId;
    forall x | x in got ensures x in want {
      var i :| 0 <= i < |r| && HandlerFor(r[i].device.dsType).None? && r[i].device.dsId == x;
      PlanDevice(accessories, devices, generate, n, i);
    }
    forall x | x in want ensures x in got {
      var i :| 0 <= i < n && HandlerFor(devices[i].dsType).None? && devices[i].dsId == x;
      PlanDevice(accessories, devices, generate, n, i);
    }
  }

  /** The same, for the records built from the first `n` fetched datasources, by their tags. */
  lemma UnknownTypeIdsOfDatasources(accessories: seq<Accessory>, datasources: seq<Datasource>,
                                    generate: string -> Uuid, n: nat)
    requires n <= |datasources|
    ensures UnknownTypeIds(Plan(accessories, DeviceContexts(datasources), generate)[..n]) ==
      set i | 0 <= i < n && datasources[i].typeTag != "CO2" && datasources[i].typeTag != "IRRIGATION"
        :: datasources[i].id
  {
    var devices := DeviceContexts(datasources);
    UnknownTypeIdsOfDevices(accessories, devices, generate, n);
    var byHandler := set i | 0 <= i < n && HandlerFor(devices[i].dsType).None? :: devices[i].dsId;
    var byTag := set i | 0 <= i < n && datasources[i].typeTag != "CO2" && datasources[i].typeTag != "IRRIGATION"
      :: datasources[i].id;
    forall x | x in byHandler ensures x in byTag {
      var i :| 0 <= i < n && HandlerFor(devices[i].dsType).None? && devices[i].dsId == x;
      assert devices[i].dsType == datasources[i].typeTag && devices[i].dsId == datasources[i].id;
      assert datasources[i].typeTag != "CO2" && datasources[i].typeTag != "IRRIGATION";
    }
    forall x | x in byTag ensures x in byHandler {
      var i :| 0 <= i < n && datasources[i].typeTag != "CO2" && datasources[i].typeTag != "IRRIGATION"
        && datasources[i].id == x;
      assert devices[i].dsType == datasources[i].typeTag && devices[i].dsId == datasources[i].id;
    }
    assert byHandler == byTag;
  }

  /** Among the datasources the pass reaches, the unknown-type error is logged for those tagged neither "CO2" nor "IRRIGATION". */
  lemma UnknownTypeIdsExactly(accessories: seq<Accessory>, datasources: seq<Datasource>, generate: string -> Uuid)
    ensures var plan := Plan(accessories, DeviceContexts(datasources), generate);
      var n := Reached(plan);
      UnknownTypeIds(plan[..n]) ==
        set i | 0 <= i < n && datasources[i].typeTag != "CO2" && datasources[i].typeTag != "IRRIGATION"
          :: datasources[i].id
  {
    var plan := Plan(accessories, DeviceContexts(datasources), generate);
    UnknownTypeIdsOfDatasources(accessories, datasources, generate, Reached(plan));
  }

  /** The new accessories are exactly the created accessories of the register steps. */
  lemma {:induction false} NewAccessoriesOfPlan(plan: seq<Step>, a: Accessory)
    ensures a in NewAccessories(plan) <==> exists i :: 0 <= i < |plan| && plan[i].Register? && plan[i].created == a
  {
    if plan != [] {
      var init := plan[..|plan| - 1];
      NewAccessoriesOfPlan(init, a);
      if a in NewAccessories(init) {
        var i :| 0 <= i < |init| && init[i].Register? && init[i].created == a;
        assert plan[i] == init[i];
      }
      if exists i :: 0 <= i < |plan| && plan[i].Register? && plan[i].created == a {
        var i :| 0 <= i < |plan| && plan[i].Register? && plan[i].created == a;
        if i < |init| {
          assert init[i] == plan[i];
        }
      }
    }
  }

  /** The part of a pass after the datasource request. */
  lemma PassTail(baseUrl: string, accessories: seq<Accessory>, datasources: seq<Datasource>,
                 generate: string -> Uuid)
    ensures var plan := Plan(accessories, DeviceContexts(datasources), generate);
      DiscoverEvents(baseUrl, accessories, Ok(datasources), generate) ==
        [FetchDatasources(DatasourcesUrl(baseUrl))] + Events(plan[..Reached(plan)])
  {
  }

  lemma PassDispatched(baseUrl: string, accessories: seq<Accessory>, datasources: seq<Datasource>,
                       generate: string -> Uuid)
    ensures var plan := Plan(accessories, DeviceContexts(datasources), generate);
      Dispatched(DiscoverEvents(baseUrl, accessories, Ok(datasources), generate)) == Targets(plan[..Reached(plan)])
  {
    var plan := Plan(accessories, DeviceContexts(datasources), generate);
    var head := [FetchDatasources(DatasourcesUrl(baseUrl))];
    PassTail(baseUrl, accessories, datasources, generate);
    DispatchedOne(head[0]);
    DispatchedAppend(head, Events(plan[..Reached(plan)]));
    DispatchedOfPlan(plan[..Reached(plan)]);
  }

  lemma PassRegistrations(baseUrl: string, accessories: seq<Accessory>, datasources: seq<Datasource>,
                          generate: string -> Uuid)
    ensures var plan := Plan(accessories, DeviceContexts(datasources), generate);
      Registrations(DiscoverEvents(baseUrl, accessories, Ok(datasources), generate)) ==
        Registrations(Events(plan[..Reached(plan)]))
  {
    var plan := Plan(accessories, DeviceContexts(datasources), generate);
    var head := [FetchDatasources(DatasourcesUrl(baseUrl))];
    PassTail(baseUrl, accessories, datasources, generate);
    RegistrationsOne(head[0]);
    RegistrationsAppend(head, Events(plan[..Reached(plan)]));
  }

  lemma PassOutcomes(baseUrl: string, accessories: seq<Accessory>, datasources: seq<Datasource>,
                     generate: string -> Uuid)
    ensures var plan := Plan(accessories, DeviceContexts(datasources), generate);
      Outcomes(DiscoverEvents(baseUrl, accessories, Ok(datasources), generate)) ==
        Outcomes(Events(plan[..Reached(plan)]))
  {
    var plan := Plan(accessories, DeviceContexts(datasources), generate);
    var head := [FetchDatasources(DatasourcesUrl(baseUrl))];
    PassTail(baseUrl, accessories, datasources, generate);
    OutcomesOne(head[0]);
    OutcomesAppend(head, Events(plan[..Reached(plan)]));
  }

  /**
   * On a successful fetch a pass is the datasource request followed by the
   * host calls of the loop iterations it reaches.
   */
  lemma PassOnSuccess(baseUrl: string, accessories: seq<Accessory>, datasources: seq<Datasource>,
                      generate: string -> Uuid)
    ensures var events := DiscoverEvents(baseUrl, accessories, Ok(datasources), generate);
      var plan := Plan(accessories, DeviceContexts(datasources), generate);
      var reached := plan[..Reached(plan)];
      && events[0] == FetchDatasources(baseUrl + "/api/bridge/datasources")
      && Dispatched(events) == Targets(reached)
      && Registrations(events) == Registrations(Events(reached))
      && Outcomes(events) == Outcomes(Events(reached))
  {
    PassTail(baseUrl, accessories, datasources, generate);
    PassDispatched(baseUrl, accessories, datasources, generate);
    PassRegistrations(baseUrl, accessories, datasources, generate);
    PassOutcomes(baseUrl, accessories, datasources, generate);
  }

  /** The decision for the `i`-th fetched datasource. */
  lemma StepOfDatasource(accessories: seq<Accessory>, datasources: seq<Datasource>, generate: string -> Uuid, i: nat)
    requires i < |datasources|
    ensures Plan(accessories, DeviceContexts(datasources), generate)[i] == Decide(accessories, ToContext(datasources[i]), generate)
  {
    assert DeviceContexts(datasources)[i] == ToContext(datasources[i]);
  }

  /** The accessory dispatched for one datasource. */
  lemma TargetOfDatasource(accessories: seq<Accessory>, ds: Datasource, generate: string -> Uuid)
    ensures var uuid := Identity(generate, ds.id);
      Target(Decide(accessories, ToContext(ds), generate)) ==
        match FindByUuid(accessories, uuid)
        case Some(k) => accessories[k]
        case None => Accessory(ds.name, uuid, Some(ToContext(ds)))
  {
  }

  /**
   * On a successful fetch a pass dispatches once per datasource it reaches,
   * in fetched order, to the first restored accessory with the datasource's
   * identity, or else to a new accessory named after it that carries its
   * record; when no handler throws it reaches every datasource.
   */
  lemma DispatchOnSuccess(baseUrl: string, accessories: seq<Accessory>, datasources: seq<Datasource>,
                          generate: string -> Uuid)
    ensures var events := DiscoverEvents(baseUrl, accessories, Ok(datasources), generate);
      var plan := Plan(accessories, DeviceContexts(datasources), generate);
      && |Dispatched(events)| == Reached(plan)
      && ((forall i :: 0 <= i < |datasources| ==> !Throws(plan[i])) ==> Reached(plan) == |datasources|)
      && forall i :: 0 <= i < Reached(plan) ==>
           var uuid := Identity(generate, datasources[i].id);
           Dispatched(events)[i] ==
             match FindByUuid(accessories, uuid)
             case Some(k) => accessories[k]
             case None => Accessory(datasources[i].name, uuid, Some(ToContext(datasources[i])))
  {
    var events := DiscoverEvents(baseUrl, accessories, Ok(datasources), generate);
    var plan := Plan(accessories, DeviceContexts(datasources), generate);
    var n := Reached(plan);
    PassDispatched(baseUrl, accessories, datasources, generate);
    if forall i :: 0 <= i < |datasources| ==> !Throws(plan[i]) {
      ReachedNoThrow(plan);
    }
    forall i | 0 <= i < n
      ensures var uuid := Identity(generate, datasources[i].id);
        Dispatched(events)[i] ==
          match FindByUuid(accessories, uuid)
          case Some(k) => accessories[k]
          case None => Accessory(datasources[i].name, uuid, Some(ToContext(datasources[i])))
    {
      assert plan[..n][i] == plan[i];
      StepOfDatasource(accessories, datasources, generate, i);
      TargetOfDatasource(accessories, datasources[i], generate);
    }
  }

  /** A step that throws is a reuse of a restored accessory without a device record, and the throw is its only call. */
  lemma ThrowingStep(accessories: seq<Accessory>, device: DeviceContext, generate: string -> Uuid)
    requires Throws(Decide(accessories, device, generate))
    ensures var s := Decide(accessories, device, generate);
      && s.Reuse? && s.restored.device.None?
      && StepEvents(s) == [HandlerThrew(s.restored, HandlerFor(device.dsType).value)]
  {
  }

  /** The loop's calls end with those of the first step that throws. */
  lemma ThrowEndsLoop(plan: seq<Step>, k: nat)
    requires k < |plan| && Throws(plan[k])
    requires forall j :: 0 <= j < k ==> !Throws(plan[j])
    ensures PassEvents(plan) == Events(plan[..k]) + StepEvents(plan[k])
  {
    ReachedFirstThrow(plan, k);
    var reached := plan[..k + 1];
    assert reached[..|reached| - 1] == plan[..k] && reached[|reached| - 1] == plan[k];
  }

  /** The plan-level facts behind `ThrowEndsPass`. */
  lemma ThrowAtDatasource(accessories: seq<Accessory>, datasources: seq<Datasource>, generate: string -> Uuid, k: nat)
    requires k < |datasources|
    requires Throws(Decide(accessories, ToContext(datasources[k]), generate))
    requires forall j :: 0 <= j < k ==> !Throws(Decide(accessories, ToContext(datasources[j]), generate))
    ensures var plan := Plan(accessories, DeviceContexts(datasources), generate);
      && Reached(plan) == k + 1
      && plan[k].Reuse? && plan[k].restored.device.None?
      && StepEvents(plan[k]) == [HandlerThrew(plan[k].restored, HandlerFor(datasources[k].typeTag).value)]
      && PassEvents(plan) == Events(plan[..k]) + StepEvents(plan[k])
  {
    var plan := Plan(accessories, DeviceContexts(datasources), generate);
    DevicesAreContexts(datasources);
    assert plan[k] == Decide(accessories, ToContext(datasources[k]), generate);
    assert forall j :: 0 <= j < k ==> !Throws(plan[j]);
    ReachedFirstThrow(plan, k);
    ThrowingStep(accessories, ToContext(datasources[k]), generate);
    ThrowEndsLoop(plan, k);
  }

  /**
   * When the handler constructor throws on datasource `k` (and on none
   * before it), the pass ends with that throw: the accessory is a restored one
   * without a device record, and no later datasource is dispatched or
   * registered.
   */
  lemma ThrowEndsPass(baseUrl: string, accessories: seq<Accessory>, datasources: seq<Datasource>,
                      generate: string -> Uuid, k: nat)
    requires k < |datasources|
    requires Throws(Decide(accessories, ToContext(datasources[k]), generate))
    requires forall j :: 0 <= j < k ==> !Throws(Decide(accessories, ToContext(datasources[j]), generate))
    ensures var events := DiscoverEvents(baseUrl, accessories, Ok(datasources), generate);
      var plan := Plan(accessories, DeviceContexts(datasources), generate);
      && Reached(plan) == k + 1
      && plan[k].Reuse? && plan[k].restored.device.None?
      && events[|events| - 1] == HandlerThrew(plan[k].restored, HandlerFor(datasources[k].typeTag).value)
      && |Dispatched(events)| == k + 1
      && Registrations(events) == Registrations(Events(plan[..k]))
  {
    var plan := Plan(accessories, DeviceContexts(datasources), generate);
    ThrowAtDatasource(accessories, datasources, generate, k);
    var head := [FetchDatasources(DatasourcesUrl(baseUrl))];
    var last := StepEvents(plan[k]);
    AppendAssociative(head, Events(plan[..k]), last);
    PassOnSuccess(baseUrl, accessories, datasources, generate);
    RegistrationsAppend(Events(plan[..k]), last);
    StepRegistrations(plan[k]);
  }

  /** A one-element batch is registered exactly when its accessory is one of the pass's new accessories. */
  lemma SingletonRegistered(plan: seq<Step>, a: Accessory)
    ensures [a] in Registrations(Events(plan)) <==> a in NewAccessories(plan)
  {
    var regs := Registrations(Events(plan));
    RegistrationsOfPlan(plan);
    if [a] in regs {
      var k :| 0 <= k < |regs| && regs[k] == [a];
      assert NewAccessories(plan)[k] == a;
    }
    if a in NewAccessories(plan) {
      var k :| 0 <= k < |NewAccessories(plan)| && NewAccessories(plan)[k] == a;
      assert regs[k] == [a];
    }
  }

  lemma SingletonBatches(plan: seq<Step>)
    ensures forall k :: 0 <= k < |Registrations(Events(plan))| ==> |Registrations(Events(plan))[k]| == 1
  {
    RegistrationsOfPlan(plan);
  }

  /** The new accessories for the first `n` devices are those built for the ones that match no restored accessory. */
  lemma NewAccessoriesExactly(accessories: seq<Accessory>, devices: seq<DeviceContext>, generate: string -> Uuid,
                              n: nat, a: Accessory)
    requires n <= |devices|
    ensures a in NewAccessories(Plan(accessories, devices, generate)[..n]) <==>
      exists i :: 0 <= i < n && !HasUuid(accessories, Identity(generate, devices[i].dsId))
        && a == Accessory(devices[i].dsName, Identity(generate, devices[i].dsId), Some(devices[i]))
  {
    var plan := Plan(accessories, devices, generate)[..n];
    NewAccessoriesOfPlan(plan, a);
    if exists i :: 0 <= i < n && !HasUuid(accessories, Identity(generate, devices[i].dsId))
        && a == Accessory(devices[i].dsName, Identity(generate, devices[i].dsId), Some(devices[i])) {
      var i :| 0 <= i < n && !HasUuid(accessories, Identity(generate, devices[i].dsId))
        && a == Accessory(devices[i].dsName, Identity(generate, devices[i].dsId), Some(devices[i]));
      assert plan[i] == Decide(accessories, devices[i], generate);
      assert plan[i].Register? && plan[i].created == a;
    }
    if a in NewAccessories(plan) {
      var i :| 0 <= i < |plan| && plan[i].Register? && plan[i].created == a;
      assert plan[i] == Decide(accessories, devices[i], generate);
    }
  }

  /** The same, for the records built from the first `n` fetched datasources. */
  lemma NewAccessoriesOfDatasources(accessories: seq<Accessory>, datasources: seq<Datasource>,
                                    generate: string -> Uuid, n: nat, a: Accessory)
    requires n <= |datasources|
    ensures a in NewAccessories(Plan(accessories, DeviceContexts(datasources), generate)[..n]) <==>
      exists i :: 0 <= i < n && !HasUuid(accessories, Identity(generate, datasources[i].id))
        && a == Accessory(datasources[i].name, Identity(generate, datasources[i].id), Some(ToContext(datasources[i])))
  {
    var devices := DeviceContexts(datasources);
    NewAccessoriesExactly(accessories, devices, generate, n, a);
    DevicesAreContexts(datasources);
    if a in NewAccessories(Plan(accessories, devices, generate)[..n]) {
      var i :| 0 <= i < n && !HasUuid(accessories, Identity(generate, devices[i].dsId))
        && a == Accessory(devices[i].dsName, Identity(generate, devices[i].dsId), Some(devices[i]));
      assert devices[i] == ToContext(datasources[i]);
    }
    if exists i :: 0 <= i < n && !HasUuid(accessories, Identity(generate, datasources[i].id))
        && a == Accessory(datasources[i].name, Identity(generate, datasources[i].id), Some(ToContext(datasources[i]))) {
      var i :| 0 <= i < n && !HasUuid(accessories, Identity(generate, datasources[i].id))
        && a == Accessory(datasources[i].name, Identity(generate, datasources[i].id), Some(ToContext(datasources[i])));
      assert devices[i] == ToContext(datasources[i]);
    }
  }

  /**
   * On a successful fetch every registration is a one-element batch, and the
   * accessories registered are exactly the new accessories of the datasources
   * the pass reaches that no restored accessory matches.
   */
  lemma RegisterOnSuccess(baseUrl: string, accessories: seq<Accessory>, datasources: seq<Datasource>,
                          generate: string -> Uuid)
    ensures var events := DiscoverEvents(baseUrl, accessories, Ok(datasources), generate);
      var n := Reached(Plan(accessories, DeviceContexts(datasources), generate));
      && (forall k :: 0 <= k < |Registrations(events)| ==> |Registrations(events)[k]| == 1)
      && (forall a :: [a] in Registrations(events) <==>
            exists i :: 0 <= i < n && !HasUuid(accessories, Identity(generate, datasources[i].id))
              && a == Accessory(datasources[i].name, Identity(generate, datasources[i].id), Some(ToContext(datasources[i]))))
  {
    var plan := Plan(accessories, DeviceContexts(datasources), generate);
    var n := Reached(plan);
    var reached := plan[..n];
    PassRegistrations(baseUrl, accessories, datasources, generate);
    SingletonBatches(reached);
    forall a
      ensures [a] in Registrations(Events(reached)) <==>
        exists i :: 0 <= i < n && !HasUuid(accessories, Identity(generate, datasources[i].id))
          && a == Accessory(datasources[i].name, Identity(generate, datasources[i].id), Some(ToContext(datasources[i])))
    {
      SingletonRegistered(reached, a);
      NewAccessoriesOfDatasources(accessories, datasources, generate, n, a);
    }
  }

  /** A new device whose type tag has no handler is still registered, unless an earlier handler threw. */
  lemma UnknownTypeStillRegistered(baseUrl: string, accessories: seq<Accessory>, datasources: seq<Datasource>,
                                   generate: string -> Uuid, i: nat)
    requires i < |datasources|
    requires !HasUuid(accessories, Identity(generate, datasources[i].id))
    requires datasources[i].typeTag != "CO2" && datasources[i].typeTag != "IRRIGATION"
    requires forall j :: 0 <= j < i ==> !Throws(Decide(accessories, ToContext(datasources[j]), generate))
    ensures var events := DiscoverEvents(baseUrl, accessories, Ok(datasources), generate);
      [Accessory(datasources[i].name, Identity(generate, datasources[i].id), Some(ToContext(datasources[i])))]
        in Registrations(events)
  {
    var plan := Plan(accessories, DeviceContexts(datasources), generate);
    DevicesAreContexts(datasources);
    assert forall j :: 0 <= j < i ==> !Throws(plan[j]);
    assert i < Reached(plan);
    RegisterOnSuccess(baseUrl, accessories, datasources, generate);
  }

  /** A failed datasource fetch constructs, dispatches and registers nothing. */
  lemma FailedFetchTouchesNothing(baseUrl: string, accessories: seq<Accessory>, generate: string -> Uuid)
    ensures DiscoverEvents(baseUrl, accessories, NotOk, generate) ==
      [FetchDatasources(baseUrl + "/api/bridge/datasources"), FetchFailed]
    ensures Registrations(DiscoverEvents(baseUrl, accessories, NotOk, generate)) == []
    ensures Dispatched(DiscoverEvents(baseUrl, accessories, NotOk, generate)) == []
  {
    var head, tail := [FetchDatasources(DatasourcesUrl(baseUrl))], [FetchFailed];
    DiscoverEventsUnfold(baseUrl, accessories, NotOk, generate);
    assert DiscoverEvents(baseUrl, accessories, NotOk, generate) == head + tail;
    RegistrationsOne(head[0]);
    RegistrationsOne(tail[0]);
    DispatchedOne(head[0]);
    DispatchedOne(tail[0]);
    RegistrationsAppend(head, tail);
    DispatchedAppend(head, tail);
  }

  // ---------------------------------------------------------------------------
  // Identity collisions and injectivity

  /** Two devices with the same id always get the same decision. */
  lemma SameIdSameOutcome(accessories: seq<Accessory>, devices: seq<DeviceContext>, generate: string -> Uuid,
                          i: nat, j: nat)
    requires i < |devices| && j < |devices|
    requires devices[i].dsId == devices[j].dsId
    ensures var plan := Plan(accessories, devices, generate);
      && plan[i].Reuse? == plan[j].Reuse?
      && (plan[i].Reuse? ==> plan[i].index == plan[j].index)
  {
  }

  /**
   * If the UUID function is injective, devices with different ids never share
   * a restored accessory.
   */
  lemma DistinctIdsDistinctRestored(accessories: seq<Accessory>, devices: seq<DeviceContext>,
                                    generate: string -> Uuid, i: nat, j: nat)
    requires Injective(generate)
    requires i < |devices| && j < |devices|
    requires devices[i].dsId != devices[j].dsId
    ensures var plan := Plan(accessories, devices, generate);
      plan[i].Reuse? && plan[j].Reuse? ==> plan[i].index != plan[j].index
  {
    var plan := Plan(accessories, devices, generate);
    if plan[i].Reuse? && plan[j].Reuse? && plan[i].index == plan[j].index {
      IdentityInjective(generate, devices[i].dsId, devices[j].dsId);
    }
  }

  // ---------------------------------------------------------------------------
  // Concrete passes

  /**
   * One accessory restored for id 7 with its record, datasources 7 and 9
   * fetched: 7 reuses the restored accessory, 9 is registered as a new
   * accessory regardless of its tag.
   */
  lemma RestoredSevenNewNine(baseUrl: string, generate: string -> Uuid, restoredName: string, tag: string)
    requires Identity(generate, 7) != Identity(generate, 9)
    ensures var seven := Datasource(7, "Office", Connected, "CO2");
      var nine := Datasource(9, "Ficus", Connected, tag);
      var restored := Accessory(restoredName, Identity(generate, 7), Some(ToContext(seven)));
      var events := DiscoverEvents(baseUrl, [restored], Ok([seven, nine]), generate);
      var created := Accessory("Ficus", Identity(generate, 9), Some(ToContext(nine)));
      && Dispatched(events) == [restored, created]
      && Registrations(events) == [[created]]
  {
    var seven := Datasource(7, "Office", Connected, "CO2");
    var nine := Datasource(9, "Ficus", Connected, tag);
    var restored := Accessory(restoredName, Identity(generate, 7), Some(ToContext(seven)));
    var created := Accessory("Ficus", Identity(generate, 9), Some(ToContext(nine)));
    var plan := Plan([restored], DeviceContexts([seven, nine]), generate);
    assert plan[0] == Reuse(ToContext(seven), 0, restored);
    assert plan[1] == Register(ToContext(nine), created);
    ReachedNoThrow(plan);
    assert plan[..Reached(plan)] == plan;
    var first := plan[..1];
    assert first[..0] == [] && plan[..|plan| - 1] == first;
    assert first[|first| - 1] == plan[0] && first[..|first| - 1] == [];
    assert Targets(plan) == [restored, created];
    assert NewAccessories(first) == [];
    assert NewAccessories(plan) == [created];
    RegistrationsOfPlan(plan);
    PassOnSuccess(baseUrl, [restored], [seven, nine], generate);
  }

  /**
   * The same fetch, but the accessory restored for id 7 holds no device
   * record: the CO2 handler's constructor throws on it, and 9 is never
   * dispatched or registered.
   */
  lemma RestoredWithoutRecordStopsPass(baseUrl: string, generate: string -> Uuid, restoredName: string, tag: string)
    ensures var seven := Datasource(7, "Office", Connected, "CO2");
      var nine := Datasource(9, "Ficus", Connected, tag);
      var restored := Accessory(restoredName, Identity(generate, 7), None);
      var events := DiscoverEvents(baseUrl, [restored], Ok([seven, nine]), generate);
      && events[|events| - 1] == HandlerThrew(restored, Co2Handler)
      && Dispatched(events) == [restored]
      && Registrations(events) == []
  {
    var seven := Datasource(7, "Office", Connected, "CO2");
    var nine := Datasource(9, "Ficus", Connected, tag);
    var restored := Accessory(restoredName, Identity(generate, 7), None);
    assert Decide([restored], ToContext(seven), generate) == Reuse(ToContext(seven), 0, restored);
    ThrowEndsPass(baseUrl, [restored], [seven, nine], generate, 0);
    DispatchOnSuccess(baseUrl, [restored], [seven, nine], generate);
    var plan := Plan([restored], DeviceContexts([seven, nine]), generate);
    assert plan[..0] == [];
  }

  /** With nothing restored, a device fetched by two passes is registered twice. */
  lemma NotIdempotent(baseUrl: string, generate: string -> Uuid)
    ensures var ds := Datasource(7, "Office", Connected, "CO2");
      var once := DiscoverEvents(baseUrl, [], Ok([ds]), generate);
      var created := Accessory("Office", Identity(generate, 7), Some(ToContext(ds)));
      Registrations(once + once) == [[created], [created]]
  {
    var ds := Datasource(7, "Office", Connected, "CO2");
    var once := DiscoverEvents(baseUrl, [], Ok([ds]), generate);
    var created := Accessory("Office", Identity(generate, 7), Some(ToContext(ds)));
    var plan := Plan([], DeviceContexts([ds]), generate);
    assert plan[0] == Register(ToContext(ds), created);
    ReachedNoThrow(plan);
    assert plan[..Reached(plan)] == plan;
    assert plan[..|plan| - 1] == [];
    assert NewAccessories(plan) == NewAccessories([]) + [created];
    RegistrationsOfPlan(plan);
    PassOnSuccess(baseUrl, [], [ds], generate);
    RegistrationsAppend(once, once);
  }
}
