/**
 * The platform object the host drives: it collects the accessories the host
 * restores from its cache, and on a discovery pass reuses or registers one
 * accessory per fetched datasource. The host calls it makes are appended to a
 * ghost log, so that each method is proved to make exactly the calls the
 * value-level model in discovery.dfy describes.
 */
module HomebridgePlatform {
  import opened Options
  import opened Discovery
  import DiscoveryProperties

  datatype Config = Config(name: string, pihomeApiUrl: string)

  class PiHomePlatform {
    const config: Config
    /** The host's `hap.uuid.generate`. */
    const generate: string -> Uuid
    /** The accessories restored from the host's cache, in the order they were handed over. */
    var accessories: seq<Accessory>
    /** The host calls made so far. */
    ghost var log: seq<Event>

    constructor (config: Config, generate: string -> Uuid)
      ensures this.config == config && this.generate == generate
      ensures accessories == [] && log == []
    {
      this.config := config;
      this.generate := generate;
      accessories := [];
      log := [];
    }

    /** Called by the host once per accessory it restores from its cache. */
    method ConfigureAccessory(accessory: Accessory)
      modifies this`accessories
      ensures accessories == old(accessories) + [accessory]
      ensures log == old(log)
    {
      accessories := accessories + [accessory];
    }

    /**
     * Attaches the handler the type tag names, or logs an error when it names
     * none. The handler constructors read the accessory's device record, so
     * for an accessory that holds none they throw; `threw` reports that.
     */
    method CreateAccessoryByType(accessory: Accessory, tag: string) returns (threw: bool)
      modifies this`log
      ensures log == old(log) + DispatchEvents(accessory, tag)
      ensures threw <==> OutcomeOf(accessory, tag).Threw?
      ensures accessories == old(accessories)
    {
      threw := false;
      if tag == "CO2" {
        threw := ConstructHandler(accessory, Co2Handler);
      } else if tag == "IRRIGATION" {
        threw := ConstructHandler(accessory, IrrigationHandler);
      } else {
        log := log + [UnknownType(accessory, tag)];
      }
    }

    /** `new PiHomePlatformAccessoryCo2(...)` or `new PiHomePlatformAccessoryIrrigation(...)`. */
    method ConstructHandler(accessory: Accessory, kind: HandlerKind) returns (threw: bool)
      modifies this`log
      ensures log == old(log) + HandlerEvents(accessory, kind)
      ensures threw <==> accessory.device.None?
      ensures accessories == old(accessories)
    {
      if accessory.device.None? {
        log := log + [HandlerThrew(accessory, kind)];
        return true;
      }
      log := log + [AttachHandler(accessory, kind)];
      return false;
    }

    /** The body of the discovery loop for one device; `threw` reports an exception escaping it. */
    method ReuseOrRegister(device: DeviceContext) returns (threw: bool)
      modifies this`log
      ensures log == old(log) + StepEvents(Decide(accessories, device, generate))
      ensures threw <==> Throws(Decide(accessories, device, generate))
      ensures accessories == old(accessories)
    {
      var uuid := generate(NumberFormat.NumberToString(device.dsId));
      var existing := FindByUuid(accessories, uuid);
      if existing.Some? {
        threw := CreateAccessoryByType(accessories[existing.value], device.dsType);
      } else {
        var accessory := Accessory(device.dsName, uuid, Some(device));
        log := log + [ConstructAccessory(device.dsName, uuid)];
        threw := CreateAccessoryByType(accessory, device.dsType);
        if !threw {
          log := log + [RegisterAccessories([accessory])];
        }
      }
    }

    /**
     * The `for` loop of a discovery pass: each device, in order, reuses the
     * first restored accessory with its identity or gets a new one registered,
     * until a handler constructor throws, which ends the loop.
     */
    method ReconcileDevices(devices: seq<DeviceContext>) returns (threw: bool)
      modifies this`log
      ensures log == old(log) + PassEvents(Plan(accessories, devices, generate))
      ensures threw <==> exists i :: 0 <= i < |devices| && Throws(Decide(accessories, devices[i], generate))
      ensures accessories == old(accessories)
    {
      ghost var restored := accessories;
      ghost var plan := Plan(restored, devices, generate);
      var i := 0;
      assert plan[..0] == [];
      while i < |devices|
        invariant 0 <= i <= |devices|
        invariant accessories == restored
        invariant forall j :: 0 <= j < i ==> !Throws(plan[j])
        invariant log == old(log) + Events(plan[..i])
      {
        threw := ReuseOrRegister(devices[i]);
        assert plan[i] == Decide(restored, devices[i], generate);
        DiscoveryProperties.LogStep(old(log), plan, i);
        if threw {
          DiscoveryProperties.PassAfterThrow(plan, i);
          return;
        }
        DiscoveryProperties.NoThrowExtends(plan, i);
        i := i + 1;
      }
      DiscoveryProperties.PassWithoutThrow(plan);
      DiscoveryProperties.NoThrowAnywhere(restored, devices, generate);
      return false;
    }

    /**
     * One discovery pass, given the outcome of the datasource request. It
     * makes exactly the host calls of `DiscoverEvents` and leaves the restored
     * accessories as they were; `rejected` reports that a handler constructor
     * threw, which rejects the pass's promise.
     */
    method DiscoverDevices(config: Config, response: FetchResult) returns (rejected: bool)
      modifies this`log
      ensures log == old(log) + DiscoverEvents(config.pihomeApiUrl, accessories, response, generate)
      ensures rejected <==>
        response.Ok? &&
        exists i :: 0 <= i < |response.datasources| &&
          Throws(Decide(accessories, DeviceContexts(response.datasources)[i], generate))
      ensures accessories == old(accessories)
    {
      var url := config.pihomeApiUrl;
      var request := FetchDatasources(url + DatasourcesPath);
      log := log + [request];
      DiscoveryProperties.DiscoverEventsUnfold(url, accessories, response, generate);
      if response.NotOk? {
        log := log + [FetchFailed];
        return false;
      }
      var devices := DeviceContexts(response.datasources);
      rejected := ReconcileDevices(devices);
      DiscoveryProperties.AppendAssociative(old(log), [request], PassEvents(Plan(accessories, devices, generate)));
    }
  }

  /**
   * Two passes in one process over the same answer: the second makes the
   * same host calls as the first, registrations included, because a pass
   * does not add what it registers to `accessories`.
   */
  method DiscoverTwice(platform: PiHomePlatform, response: FetchResult)
    modifies platform`log
    ensures var once := DiscoverEvents(platform.config.pihomeApiUrl, platform.accessories, response, platform.generate);
      && platform.log == old(platform.log) + once + once
      && Registrations(platform.log[|old(platform.log)|..]) == Registrations(once) + Registrations(once)
  {
    var _ := platform.DiscoverDevices(platform.config, response);
    var _ := platform.DiscoverDevices(platform.config, response);
    ghost var once := DiscoverEvents(platform.config.pihomeApiUrl, platform.accessories, response, platform.generate);
    DiscoveryProperties.AppendAssociative(old(platform.log), once, once);
    DiscoveryProperties.DropPrefix(old(platform.log), once + once);
    DiscoveryProperties.RegistrationsAppend(once, once);
  }
}
