/**
 * The value-level part of the platform's discovery pass: the records built
 * from the fetched datasource list, the identity of a device, the lookup of a
 * restored accessory, the type-tag dispatch, and the sequence of host calls a
 * whole pass makes. The class in platform.dfy performs this pass step by step
 * and is proved to append exactly `DiscoverEvents` to its log.
 */
module Discovery {
  import opened Options
  import NumberFormat

  /** What `hap.uuid.generate` returns; its hashing is not modelled. */
  type Uuid = string

  datatype Status = Connected | Disconnected

  /** One element of the JSON array returned by `GET /api/bridge/datasources`. */
  datatype Datasource = Datasource(id: int, name: string, status: Status, typeTag: string)

  datatype Label = Label(displayName: string)

  /** The record stored in `accessory.context.device`. */
  datatype DeviceContext = DeviceContext(
    dsId: int,
    dsName: string,
    dsType: string,
    air: Label,
    temp: Label,
    humidity: Label,
    moisture: Label)

  /**
   * A platform accessory as far as discovery sees it: its display name, its
   * UUID and the device record in its context (absent when the host restored
   * an accessory whose context holds none).
   */
  datatype Accessory = Accessory(displayName: string, uuid: Uuid, device: Option<DeviceContext>)

  /** The outcome of fetching the datasource list. */
  datatype FetchResult = NotOk | Ok(datasources: seq<Datasource>)

  datatype HandlerKind = Co2Handler | IrrigationHandler

  /** The host calls a discovery pass makes, in the order it makes them. */
  datatype Event =
    | FetchDatasources(url: string)
    | FetchFailed
    | ConstructAccessory(displayName: string, uuid: Uuid)
    | AttachHandler(accessory: Accessory, kind: HandlerKind)
    | UnknownType(accessory: Accessory, tag: string)
    /**
     * The handler constructor reads the accessory's device record; when the
     * context holds none the read throws, and nothing in the pass catches it.
     */
    | HandlerThrew(accessory: Accessory, kind: HandlerKind)
    | RegisterAccessories(batch: seq<Accessory>)

  /** What `createAccessoryByType` did with one accessory, as read back from the host calls. */
  datatype HandlerOutcome = Attached(kind: HandlerKind) | NoHandler | Threw(kind: HandlerKind)

  /** What the loop decides for one device. */
  datatype Step =
    | Reuse(device: DeviceContext, index: nat, restored: Accessory)
    | Register(device: DeviceContext, created: Accessory)

  const DatasourcesPath := "/api/bridge/datasources"
  const AirLabel := "Air quality"
  const TempLabel := "Temperature"
  const HumidityLabel := "Humidity"
  const MoistureLabel := "Plant Moisture Sensor"

  function DatasourcesUrl(baseUrl: string): string {
    baseUrl + DatasourcesPath
  }

  // ---------------------------------------------------------------------------
  // Datasources to device records

  function ToContext(ds: Datasource): DeviceContext {
    DeviceContext(ds.id, ds.name, ds.typeTag,
                  Label(AirLabel), Label(TempLabel), Label(HumidityLabel), Label(MoistureLabel))
  }

  /** The `datasources.map(...)` that builds one context record per datasource. */
  function DeviceContexts(datasources: seq<Datasource>): (devices: seq<DeviceContext>)
    ensures |devices| == |datasources|
    ensures forall i :: 0 <= i < |datasources| ==>
      && devices[i].dsId == datasources[i].id
      && devices[i].dsName == datasources[i].name
      && devices[i].dsType == datasources[i].typeTag
      && devices[i].air == Label(AirLabel)
      && devices[i].temp == Label(TempLabel)
      && devices[i].humidity == Label(HumidityLabel)
      && devices[i].moisture == Label(MoistureLabel)
  {
    if datasources == [] then []
    else [ToContext(datasources[0])] + DeviceContexts(datasources[1..])
  }

  // ---------------------------------------------------------------------------
  // Identity and lookup

  /** `hap.uuid.generate(String(dsId))`. */
  function Identity(generate: string -> Uuid, id: int): Uuid {
    generate(NumberFormat.NumberToString(id))
  }

  /** A hypothesis about the host's UUID function that the code does not guarantee. */
  ghost predicate Injective(generate: string -> Uuid) {
    forall s, t :: generate(s) == generate(t) ==> s == t
  }

  lemma IdentityInjective(generate: string -> Uuid, a: int, b: int)
    requires Injective(generate)
    requires Identity(generate, a) == Identity(generate, b)
    ensures a == b
  {
    NumberFormat.NumberToStringInjective(a, b);
  }

  predicate HasUuid(accessories: seq<Accessory>, uuid: Uuid) {
    exists i :: 0 <= i < |accessories| && accessories[i].uuid == uuid
  }

  /** `accessories.find(a => a.UUID === uuid)`, giving the position of the hit. */
  function FindByUuid(accessories: seq<Accessory>, uuid: Uuid): (r: Option<nat>)
    ensures r.Some? <==> HasUuid(accessories, uuid)
    ensures r.Some? ==> r.value < |accessories| && accessories[r.value].uuid == uuid
    ensures r.Some? ==> forall j :: 0 <= j < r.value ==> accessories[j].uuid != uuid
  {
    if accessories == [] then None
    else if accessories[0].uuid == uuid then Some(0)
    else match FindByUuid(accessories[1..], uuid)
      case Some(k) => Some(k + 1)
      case None => None
  }

  /** An accessory restored later is found only when none restored earlier matches. */
  lemma {:induction false} FindAfterAppend(accessories: seq<Accessory>, a: Accessory, uuid: Uuid)
    ensures FindByUuid(accessories + [a], uuid) ==
      if FindByUuid(accessories, uuid).Some? then FindByUuid(accessories, uuid)
      else if a.uuid == uuid then Some(|accessories|)
      else None
  {
    if accessories != [] {
      assert (accessories + [a])[1..] == accessories[1..] + [a];
      FindAfterAppend(accessories[1..], a, uuid);
    }
  }

  // ---------------------------------------------------------------------------
  // Dispatch by type tag

  /** The handler a type tag names. */
  function HandlerFor(tag: string): Option<HandlerKind> {
    if tag == "CO2" then Some(Co2Handler)
    else if tag == "IRRIGATION" then Some(IrrigationHandler)
    else None
  }

  /**
   * What dispatching an accessory should come to: no handler for an unknown
   * tag; otherwise the handler is attached when the accessory carries a
   * device record, and its constructor throws when it does not.
   */
  function OutcomeOf(accessory: Accessory, tag: string): HandlerOutcome {
    match HandlerFor(tag)
    case None => NoHandler
    case Some(kind) => if accessory.device.Some? then Attached(kind) else Threw(kind)
  }

  /** Constructing the handler of `kind` for `accessory`. */
  function HandlerEvents(accessory: Accessory, kind: HandlerKind): seq<Event> {
    if accessory.device.None? then [HandlerThrew(accessory, kind)]
    else [AttachHandler(accessory, kind)]
  }

  /** The one host-visible effect of `createAccessoryByType(accessory, tag)`. */
  function DispatchEvents(accessory: Accessory, tag: string): seq<Event> {
    if tag == "CO2" then HandlerEvents(accessory, Co2Handler)
    else if tag == "IRRIGATION" then HandlerEvents(accessory, IrrigationHandler)
    else [UnknownType(accessory, tag)]
  }

  lemma DispatchOutcome(accessory: Accessory, tag: string)
    ensures DispatchEvents(accessory, tag) == [AttachHandler(accessory, Co2Handler)] <==>
      tag == "CO2" && accessory.device.Some?
    ensures DispatchEvents(accessory, tag) == [AttachHandler(accessory, IrrigationHandler)] <==>
      tag == "IRRIGATION" && accessory.device.Some?
    ensures DispatchEvents(accessory, tag) == [HandlerThrew(accessory, Co2Handler)] <==>
      tag == "CO2" && accessory.device.None?
    ensures DispatchEvents(accessory, tag) == [HandlerThrew(accessory, IrrigationHandler)] <==>
      tag == "IRRIGATION" && accessory.device.None?
    ensures DispatchEvents(accessory, tag) == [UnknownType(accessory, tag)] <==>
      tag != "CO2" && tag != "IRRIGATION"
  {
  }

  // ---------------------------------------------------------------------------
  // The reuse-or-register decision and the whole pass

  /** What the loop body does with one device. */
  function Decide(accessories: seq<Accessory>, device: DeviceContext, generate: string -> Uuid): (s: Step)
    ensures s.device == device
    ensures s.Reuse? <==> HasUuid(accessories, Identity(generate, device.dsId))
    ensures s.Reuse? ==>
      && s.index < |accessories|
      && s.restored == accessories[s.index]
      && s.restored.uuid == Identity(generate, device.dsId)
      && forall j :: 0 <= j < s.index ==> accessories[j].uuid != Identity(generate, device.dsId)
    ensures s.Register? ==>
      s.created == Accessory(device.dsName, Identity(generate, device.dsId), Some(device))
  {
    var uuid := Identity(generate, device.dsId);
    match FindByUuid(accessories, uuid)
    case Some(k) => Reuse(device, k, accessories[k])
    case None => Register(device, Accessory(device.dsName, uuid, Some(device)))
  }

  /** The decisions for a list of devices, in list order. */
  function Plan(accessories: seq<Accessory>, devices: seq<DeviceContext>, generate: string -> Uuid): (p: seq<Step>)
    ensures |p| == |devices|
    ensures forall i :: 0 <= i < |devices| ==> p[i] == Decide(accessories, devices[i], generate)
  {
    if devices == [] then []
    else Plan(accessories, devices[..|devices| - 1], generate) + [Decide(accessories, devices[|devices| - 1], generate)]
  }

  /** The accessory handed to `createAccessoryByType` for a step. */
  function Target(s: Step): Accessory {
    match s
    case Reuse(_, _, restored) => restored
    case Register(_, created) => created
  }

  /** Whether `createAccessoryByType` throws on this step. */
  predicate Throws(s: Step) {
    OutcomeOf(Target(s), s.device.dsType).Threw?
  }

  function StepEvents(s: Step): seq<Event> {
    match s
    case Reuse(device, _, restored) => DispatchEvents(restored, device.dsType)
    case Register(device, created) =>
      [ConstructAccessory(device.dsName, created.uuid)]
      + DispatchEvents(created, device.dsType)
      + [RegisterAccessories([created])]
  }

  function Events(plan: seq<Step>): seq<Event> {
    if plan == [] then []
    else Events(plan[..|plan| - 1]) + StepEvents(plan[|plan| - 1])
  }

  /**
   * How many steps of a plan the loop runs: all of them, or up to and
   * including the first whose handler constructor throws.
   */
  function Reached(plan: seq<Step>): (n: nat)
    ensures n <= |plan|
    ensures forall j :: 0 <= j < n - 1 ==> !Throws(plan[j])
    ensures n < |plan| ==> 0 < n && Throws(plan[n - 1])
  {
    if plan == [] then 0
    else if Throws(plan[0]) then 1
    else 1 + Reached(plan[1..])
  }

  /** The host calls of the steps the loop runs before it ends or throws. */
  function PassEvents(plan: seq<Step>): seq<Event> {
    Events(plan[..Reached(plan)])
  }

  /** Every host call one `discoverDevices` pass makes. */
  function DiscoverEvents(baseUrl: string, accessories: seq<Accessory>, response: FetchResult,
                          generate: string -> Uuid): seq<Event>
  {
    [FetchDatasources(DatasourcesUrl(baseUrl))] +
    match response
    case NotOk => [FetchFailed]
    case Ok(datasources) => PassEvents(Plan(accessories, DeviceContexts(datasources), generate))
  }

  // ---------------------------------------------------------------------------
  // Views of a pass

  function ReusedCount(plan: seq<Step>): nat {
    if plan == [] then 0
    else ReusedCount(plan[..|plan| - 1]) + (if plan[|plan| - 1].Reuse? then 1 else 0)
  }

  function RegisteredCount(plan: seq<Step>): nat {
    if plan == [] then 0
    else RegisteredCount(plan[..|plan| - 1]) + (if plan[|plan| - 1].Register? then 1 else 0)
  }

  function ReusedIds(plan: seq<Step>): set<int> {
    set i | 0 <= i < |plan| && plan[i].Reuse? :: plan[i].device.dsId
  }

  function RegisteredIds(plan: seq<Step>): set<int> {
    set i | 0 <= i < |plan| && plan[i].Register? :: plan[i].device.dsId
  }

  /** The ids of the steps for which the host calls show the unknown-type error. */
  function UnknownTypeIds(plan: seq<Step>): set<int> {
    var outcomes := Outcomes(Events(plan));
    set i | 0 <= i < |plan| && i < |outcomes| && outcomes[i] == NoHandler :: plan[i].device.dsId
  }

  /** The accessories created by a pass, in creation order. */
  function NewAccessories(plan: seq<Step>): seq<Accessory> {
    if plan == [] then []
    else
      var last := plan[|plan| - 1];
      NewAccessories(plan[..|plan| - 1]) + (if last.Register? then [last.created] else [])
  }

  /** The batches passed to `registerPlatformAccessories`, in call order. */
  function Registrations(events: seq<Event>): seq<seq<Accessory>> {
    if events == [] then []
    else
      var last := events[|events| - 1];
      Registrations(events[..|events| - 1]) + (if last.RegisterAccessories? then [last.batch] else [])
  }

  /** The accessories passed to `createAccessoryByType`, in call order. */
  function Dispatched(events: seq<Event>): seq<Accessory> {
    if events == [] then []
    else
      var last := events[|events| - 1];
      Dispatched(events[..|events| - 1]) +
      (if last.AttachHandler? || last.UnknownType? || last.HandlerThrew? then [last.accessory] else [])
  }

  /** The outcome of each `createAccessoryByType` call, in call order. */
  function Outcomes(events: seq<Event>): seq<HandlerOutcome> {
    if events == [] then []
    else
      var last := events[|events| - 1];
      Outcomes(events[..|events| - 1]) +
      match last
      case AttachHandler(_, kind) => [Attached(kind)]
      case UnknownType(_, _) => [NoHandler]
      case HandlerThrew(_, kind) => [Threw(kind)]
      case _ => []
  }

  /** The outcome `OutcomeOf` predicts for each step, in loop order. */
  function PlannedOutcomes(plan: seq<Step>): (os: seq<HandlerOutcome>)
    ensures |os| == |plan|
    ensures forall i :: 0 <= i < |plan| ==> os[i] == OutcomeOf(Target(plan[i]), plan[i].device.dsType)
  {
    if plan == [] then []
    else PlannedOutcomes(plan[..|plan| - 1]) + [OutcomeOf(Target(plan[|plan| - 1]), plan[|plan| - 1].device.dsType)]
  }

  /** The accessory each step hands to `createAccessoryByType`, in loop order. */
  function Targets(plan: seq<Step>): (ts: seq<Accessory>)
    ensures |ts| == |plan|
    ensures forall i :: 0 <= i < |plan| ==> ts[i] == Target(plan[i])
  {
    if plan == [] then [] else Targets(plan[..|plan| - 1]) + [Target(plan[|plan| - 1])]
  }
}
