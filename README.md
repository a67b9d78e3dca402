# PiHome platform discovery, modelled in Dafny

This project models the discovery and reconciliation step of the PiHome
Homebridge platform (`PiHomeHomebridgePlatform` in `src/platform.ts`).
Homebridge hands the platform the accessories it restored from its cache
(`configureAccessory`). After launch, the platform fetches the datasource list
from the PiHome server and builds one context record per datasource. Each device
gets an identity, `hap.uuid.generate(String(dsId))`. If a restored accessory has
that UUID, the platform reuses the first one. Otherwise it constructs a new
accessory and registers it. Either way it passes the accessory to a type-tag
dispatcher (`createAccessoryByType`).

The handler constructors read the accessory's device record
(`src/accessoryCo2.ts:48-50`, `src/accessoryIrrigation.ts:22-30`). A restored
accessory whose context holds no record therefore makes the constructor throw.
Nothing in the pass catches the exception. The loop ends there, the pass's
promise is rejected, and no later datasource is dispatched or registered. The
model follows this closely:

- `OutcomeOf` says which of three outcomes a dispatch has: attached, no handler, or threw.
- `Reached` counts the loop iterations that run.
- `PassEvents` is the host calls of just those iterations.

Files:

- `options.dfy`: module `Options`, the `Option` type.
- `number_format.dfy`: module `NumberFormat`. JavaScript's `String(n)` for an
  integer id, its inverse `ParseNumber`, and the round trip between them.
- `discovery.dfy`: module `Discovery`, the value-level model:
  - datasources and context records;
  - `FindByUuid` (the `find` lookup);
  - `HandlerFor` (the dispatch choice);
  - `Decide` and `Plan` (the reuse-or-register decision per device);
  - `DiscoverEvents`, the sequence of host calls one pass makes;
  - views of the decisions: ids reused and registered, and the accessories
    created;
  - views of that sequence of host calls: ids logged as of unknown type,
    accessories registered, accessories dispatched, and the outcome of each
    dispatch.
- `discovery_properties.dfy`: module `DiscoveryProperties`, lemmas about those views.
- `platform.dfy`: module `HomebridgePlatform`, the class `PiHomePlatform`:
  - a field `accessories` that `ConfigureAccessory` appends to;
  - a ghost `log` of host calls;
  - `DiscoverDevices`, whose loop is proved to append exactly `DiscoverEvents`.

Abstractions:

- The HTTP request for the datasource list is a parameter. `FetchResult` is
  either `NotOk` or `Ok(datasources)` with the decoded JSON array.
- `hap.uuid.generate` is an arbitrary total function `string -> Uuid` held by
  the platform. Its injectivity is assumed only where a lemma says so
  (`Injective`).
- Host calls are entries in the ghost log:
  - `new api.platformAccessory(name, uuid)` is `ConstructAccessory`;
  - constructing a CO2 or irrigation handler is `AttachHandler`, and
    `HandlerThrew` when the constructor throws;
  - the error logged for an unknown type tag is `UnknownType`;
  - `registerPlatformAccessories` is `RegisterAccessories`;
  - the request and the error logged when it is not OK are `FetchDatasources` and `FetchFailed`.
- An accessory is a value: display name, UUID, and the device record in its
  context. The `context.device = device` assignment after construction is folded
  into the value that is then dispatched and registered.

Facts about the code that the model keeps:

- The response type declares `Type: "CO2" | "IRRIGATION"` (`src/platform.ts:34`),
  but nothing checks it at run time. A new device with any other type tag is
  still constructed and registered. Only its handler is missing, and an error is
  logged. Registration does not depend on dispatch unless dispatch throws
  (`src/platform.ts:139-142`).
- `discoverDevices` never adds what it registers to `accessories`. So a second
  pass in the same process registers the same new accessories again. Discovery is
  not idempotent (`NotIdempotent`, `DiscoverTwice`).
- The context record holds `dsId`, `dsName`, `dsType` and four display names. It
  does not hold the server URL.
- A reused accessory keeps the context it was restored with. Its record is not
  refreshed from the fetched datasource. Only the fetched type tag drives dispatch.

## Model

| member | source | states |
|---|---|---|
| `NumberFormat.NaturalToString` | src/platform.ts:117 | The decimal rendering is non-empty and all digits. It starts with '0' only for 0, and is one digit exactly for values below 10. |
| `NumberFormat.NumberToString` | src/platform.ts:117 | `String(id)` starts with '-' exactly for negative ids. The rest is digits, with no leading zero unless the id is 0. |
| `NumberFormat.NumberRoundTrip` | src/platform.ts:117 | Parsing `String(id)` gives back `id`. |
| `NumberFormat.NumberToStringInjective` | src/platform.ts:117 | Distinct ids are rendered as distinct strings. |
| `Discovery.IdentityInjective` | src/platform.ts:117 | If `generate` is injective, two ids with the same identity are equal. |
| `Discovery.DeviceContexts` | src/platform.ts:96-113 | One record per datasource, same length and order. Each record copies `Id`, `Name` and `Type` into `dsId`, `dsName` and `dsType`. Its display names are "Air quality", "Temperature", "Humidity" and "Plant Moisture Sensor". |
| `Discovery.FindByUuid` | src/platform.ts:121-122 | The lookup succeeds exactly when some accessory has the UUID. On success it gives the first such accessory in list order. |
| `Discovery.FindAfterAppend` | src/platform.ts:70-75 | An accessory appended by `configureAccessory` is found only when no accessory restored earlier has the UUID. An earlier match always wins. |
| `Discovery.DispatchOutcome` | src/platform.ts:147-155 | `createAccessoryByType` makes exactly one call, and each of the following holds in both directions. "CO2" attaches the CO2 handler when the accessory holds a device record, and throws when it holds none. "IRRIGATION" does the same with the irrigation handler. Any other tag logs an error and attaches nothing. |
| `Discovery.Decide` | src/platform.ts:117-143 | A device reuses an accessory exactly when one carries `generate(String(dsId))`. It reuses the first such one. Otherwise it gets a new accessory named `dsName` with that UUID and the device record as context. |
| `Discovery.Plan` | src/platform.ts:116-144 | One decision per device, in device order. |
| `Discovery.Reached` | src/platform.ts:116-144 | The loop runs either every step or stops at the first step whose handler constructor throws. No step before the last one run throws, and when the loop stops early the last step run throws. |
| `DiscoveryProperties.ThrowsExactly` | src/platform.ts:121-127 | A device's dispatch throws exactly when its tag names a handler and the first restored accessory with its identity holds no device record. A new accessory never throws, because it is given the device record first. |
| `DiscoveryProperties.OutcomeCounts` | src/platform.ts:116-144 | #reused + #registered = #devices. |
| `DiscoveryProperties.OneOutcomePerDatasource` | src/platform.ts:116-144 | Every fetched datasource gets exactly one decision, in fetched order. The pass carries out the first `Reached(plan)` of them, and among those #reused + #registered = #reached. When no handler throws, every datasource is reached. |
| `DiscoveryProperties.ReusedIdsOfPlan` | src/platform.ts:117-127 | Among the first `n` devices, the reused ids are exactly the ids whose identity some restored accessory carries. |
| `DiscoveryProperties.RegisteredIdsOfPlan` | src/platform.ts:128-143 | Among the first `n` devices, the registered ids are exactly the ids whose identity no restored accessory carries. |
| `DiscoveryProperties.ReusedIdsExactly` | src/platform.ts:117-127 | The same, for the datasources the pass reaches. |
| `DiscoveryProperties.RegisteredIdsExactly` | src/platform.ts:128-143 | The same, for the datasources the pass reaches. |
| `DiscoveryProperties.PartitionOfPlan` | src/platform.ts:116-144 | Among the first `n` devices, no id is both reused and registered, and together the two sets cover every id. |
| `DiscoveryProperties.ReusedAndRegisteredPartitionIds` | src/platform.ts:116-144 | The same, for the datasources the pass reaches. |
| `DiscoveryProperties.OutcomesOfPlan` | src/platform.ts:124-155 | Reading the host calls back gives one dispatch outcome per step, in order. Each is the outcome `OutcomeOf` predicts for the step's accessory and tag. |
| `DiscoveryProperties.UnknownTypeIdsOfPlan` | src/platform.ts:147-155 | The steps whose host calls show the unknown-type error are exactly those whose type tag names no handler. |
| `DiscoveryProperties.UnknownTypeIdsOfDevices` | src/platform.ts:147-155 | The same, among the first `n` devices. |
| `DiscoveryProperties.UnknownTypeIdsExactly` | src/platform.ts:147-155 | Among the datasources the pass reaches, the unknown-type error is logged for exactly those tagged neither "CO2" nor "IRRIGATION". |
| `DiscoveryProperties.RegistrationsOfPlan` | src/platform.ts:128-143 | The registration calls are one-element batches of the new accessories, in order. There are as many as there are register decisions. |
| `DiscoveryProperties.DispatchedOfPlan` | src/platform.ts:124-142 | Over the steps that run, `createAccessoryByType` is called once per step, in order, on the reused or the new accessory. |
| `DiscoveryProperties.NewAccessoriesOfPlan` | src/platform.ts:128-138 | The new accessories are exactly the created accessories of the register decisions. |
| `DiscoveryProperties.NewAccessoriesExactly` | src/platform.ts:128-138 | A new accessory exists for a device exactly when no restored accessory matches it. It is named after the device, carries its identity, and holds the device record as context. |
| `DiscoveryProperties.NewAccessoriesOfDatasources` | src/platform.ts:96-138 | The same, stated for the fetched datasources. |
| `DiscoveryProperties.SingletonRegistered` | src/platform.ts:142 | A one-element batch is registered exactly when its accessory is one of the new accessories. |
| `DiscoveryProperties.PassOnSuccess` | src/platform.ts:83-144 | A successful pass first requests `url + "/api/bridge/datasources"`. Its dispatches, registrations and dispatch outcomes are those of the loop iterations that run. |
| `DiscoveryProperties.DispatchOnSuccess` | src/platform.ts:116-144 | After a successful fetch there is one dispatch per datasource the pass reaches, in fetched order, and every datasource is reached when no handler throws. Each dispatch goes to the first matching restored accessory, or else to a new accessory built from that datasource. |
| `DiscoveryProperties.ThrowEndsPass` | src/platform.ts:124-126 | If datasource `k` is the first whose handler constructor throws, the pass runs exactly `k + 1` iterations. The accessory is a restored one without a device record, and the last host call is the throw. There are `k + 1` dispatches, and the registrations are those of the first `k` datasources only. |
| `DiscoveryProperties.RegisterOnSuccess` | src/platform.ts:128-143 | After a successful fetch every registration is a one-element batch. The accessories registered are exactly the new accessories of the unmatched datasources the pass reaches. |
| `DiscoveryProperties.UnknownTypeStillRegistered` | src/platform.ts:139-142 | An unmatched datasource with an unknown type tag is still registered, provided no earlier datasource's handler threw. |
| `DiscoveryProperties.FailedFetchTouchesNothing` | src/platform.ts:85-90 | A response that is not OK yields only the request and the error. Nothing is constructed, dispatched or registered. |
| `DiscoveryProperties.SameIdSameOutcome` | src/platform.ts:117-122 | Two devices with the same id get the same kind of decision, reuse or register. If reused, both reuse the same restored accessory. |
| `DiscoveryProperties.DistinctIdsDistinctRestored` | src/platform.ts:117-122 | If `generate` is injective, devices with different ids never reuse the same restored accessory. |
| `DiscoveryProperties.RestoredSevenNewNine` | src/platform.ts:116-144 | Setup: one accessory restored for id 7, holding its device record; ids 7 and 9 fetched. Result: 7 reuses the restored accessory; 9 gets exactly one new registration, whatever its type tag. |
| `DiscoveryProperties.RestoredWithoutRecordStopsPass` | src/platform.ts:124-126 | Setup: the same, but the accessory restored for id 7 holds no device record. Result: the CO2 handler throws on it, that is the last host call, and 9 is neither dispatched nor registered. |
| `DiscoveryProperties.NotIdempotent` | src/platform.ts:116-144 | With nothing restored, a device fetched by two passes is registered twice. |
| `HomebridgePlatform.PiHomePlatform.constructor` | src/platform.ts:47-57 | A new platform has no restored accessories and no logged host calls. |
| `HomebridgePlatform.PiHomePlatform.ConfigureAccessory` | src/platform.ts:70-75 | The restored accessory is appended to the end of `accessories`. Nothing else changes. |
| `HomebridgePlatform.PiHomePlatform.CreateAccessoryByType` | src/platform.ts:147-155 | Appends exactly the one dispatch call for the tag to the log. It reports a throw exactly when `OutcomeOf` says the handler constructor throws. `accessories` is unchanged. |
| `HomebridgePlatform.PiHomePlatform.ConstructHandler` | src/accessoryCo2.ts:48-50 | Constructing a handler throws exactly when the accessory holds no device record; otherwise the handler is attached. Likewise `src/accessoryIrrigation.ts:22-30`. |
| `HomebridgePlatform.PiHomePlatform.ReuseOrRegister` | src/platform.ts:117-143 | One loop iteration appends exactly the host calls of the device's decision. It reports a throw exactly when the decision's dispatch throws, and then the new accessory is not registered. |
| `HomebridgePlatform.PiHomePlatform.ReconcileDevices` | src/platform.ts:116-144 | The loop appends the host calls of the iterations that run, in device order: all of them, or up to and including the first that throws. It reports a throw exactly when some device's dispatch throws. `accessories` is unchanged. |
| `HomebridgePlatform.PiHomePlatform.DiscoverDevices` | src/platform.ts:81-145 | A pass appends exactly `DiscoverEvents` for the fetch outcome. The pass is rejected exactly when the fetch succeeded and some datasource's dispatch throws. `accessories` is unchanged, so nothing registered is recorded. |
| `HomebridgePlatform.DiscoverTwice` | src/platform.ts:116-144 | Two passes in one process append the same host calls twice. The second registers again everything the first registered. |

## Left out

- `src/utils.ts` (`fetchMetric`) is not part of this model. It is network I/O
  and JSON decoding, and nothing in the discovery code calls it.
- `src/accessoryCo2.ts` and `src/accessoryIrrigation.ts` are modelled only as far
  as their constructors read the device record. The model keeps whether that read
  throws (`ConstructHandler`). The services and characteristics the constructors
  add are left out, and so are the read handlers, which return constants.
- The context type declares the four display-name objects optional
  (`src/platform.ts:11-22`). A restored record that lacks the one a handler reads
  would throw the same way. In the model a record always holds all four, so only
  a missing record throws.
- `src/index.ts` (registering the platform with Homebridge) is host plumbing.
- The `didFinishLaunching` callback and `async`/`await` are not modelled.
  `DiscoverDevices` is called directly with the outcome of the request.
- Not modelled: a `fetch` that throws, and a body that `res.json()` cannot
  decode. Both end the pass with a rejected promise. The model starts from an
  already decoded datasource list.
- Informational and debug log messages are left out. Only the two error paths
  appear in the log.
- `hap.uuid.generate` is an arbitrary function; its hashing is the host's.
- `NumberFormat.NumberToString`: does not model JavaScript's rendering of
  non-integral numbers, of integers beyond 2^53, or of magnitudes of 1e21 and
  above. Above 2^53, JavaScript prints the shortest digits that round-trip the
  double: `String(2**60)` is "1152921504606847000", not the exact value. At
  1e21 and above it uses exponent notation. The model gives the exact decimal of
  any integer, so for ids beyond 2^53 its identities are not the code's.
- Accessories are values, not host objects. The model does not capture the
  services and characteristics a handler adds to an accessory, or aliasing
  between the restored accessory and the one the host holds.
- The `Status` of a datasource is carried in the model but, as in the code,
  never read.
