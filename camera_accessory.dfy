/**
 * The camera accessory (src/accessory/CameraAccessory.ts): which HomeKit services
 * and controllers its schema calls for, and how status batches ring the doorbell
 * and drive the motion sensor.
 *
 * The host accessory is reduced to the set of services it holds (`getService` or
 * `addService` adds a service once and reuses it), the handlers bound to them, the
 * programmable-switch events fired and the MotionDetected value. The streaming
 * delegate is reduced to whether it exists and how many controllers were
 * configured for it.
 */
module Camera {
  import opened Wrappers
  import opened Schema
  import DoorbellEvent
  import MotionTimer

  datatype Service =
    | LightbulbService
    | DoorbellService
    | MotionSensorService
    | SwitchService(subtype: string)

  /** A characteristic handler bound to a service for a schema entry. */
  datatype Binding =
    | OnOffBinding(service: Service, schema: SchemaEntry)       // configureOn
    | BrightnessBinding(service: Service, schema: SchemaEntry)  // the onGet/onSet pair of module Brightness
    | SwitchEventBinding(service: Service, schema: SchemaEntry) // configureProgrammableSwitchEvent

  /** How `onMotionDetected` handled a status. */
  datatype MotionOutcome =
    | NotInitialized  // dropped before initialization
    | DecodeError     // not a string: `Buffer.from` throws and nothing changes
    | EmptyPayload    // decoded to nothing: ignored
    | MotionStarted   // motion set and the expiry timer restarted

  /**
   * The status entry `onDeviceStatusUpdate` hands to `onMotionDetected`: the
   * batch's first entry with the motion-detect code, when the schema has it.
   */
  function MotionStatusEntry(schemas: seq<SchemaEntry>, status: seq<StatusEntry>): (r: Option<StatusEntry>)
    ensures r.Some? ==> r.value in status && r.value.code == "movement_detect_pic"
    ensures r.Some? <==> HasCode(schemas, "movement_detect_pic") &&
                         exists e :: e in status && e.code == "movement_detect_pic"
  {
    FindSchemaSingle(schemas, "movement_detect_pic");
    FindStatusFound(status, "movement_detect_pic");
    var motionSchema := FindSchema(schemas, MOTION_DETECT);
    if motionSchema.Some? then FindStatus(status, Some(motionSchema.value.code)) else None
  }

  /** With the motion-detect schema present, the routed entry is the batch's first motion-detect entry. */
  lemma MotionStatusEntryIsFirst(schemas: seq<SchemaEntry>, status: seq<StatusEntry>, i: int)
    requires HasCode(schemas, "movement_detect_pic") && FirstWithCode(status, i, "movement_detect_pic")
    ensures MotionStatusEntry(schemas, status) == Some(status[i])
  {
    FindSchemaSingle(schemas, "movement_detect_pic");
    FindStatusFirst(status, i, "movement_detect_pic");
  }

  /**
   * How `onMotionDetected` handles a status: dropped before initialization,
   * a decode error for a value that is not a string, ignored when the decoded
   * payload is empty, and otherwise motion.
   */
  function MotionOutcomeOf(initialized: bool, status: StatusEntry, decode: string -> string): (r: MotionOutcome)
    ensures r == MotionStarted <==>
            initialized && status.value.StringValue? && |decode(status.value.s)| > 0
    ensures r == NotInitialized <==> !initialized
  {
    if !initialized then NotInitialized
    else if !status.value.StringValue? then DecodeError
    else if |decode(status.value.s)| == 0 then EmptyPayload
    else MotionStarted
  }

  /** The services `configureDoorbell` adds: the doorbell on a gated device with a ring or alarm schema. */
  function DoorbellServices(schemas: seq<SchemaEntry>): set<Service> {
    if DoorbellEvent.IsDoorbell(schemas) && FindSchema(schemas, DOORBELL_RING + ALARM_MESSAGE).Some?
    then {DoorbellService} else {}
  }

  /** The handler `configureDoorbell` binds: the switch event for the ring schema, else the alarm schema. */
  function DoorbellBindings(schemas: seq<SchemaEntry>): seq<Binding> {
    var schema := FindSchema(schemas, DOORBELL_RING + ALARM_MESSAGE);
    if DoorbellEvent.IsDoorbell(schemas) && schema.Some?
    then [SwitchEventBinding(DoorbellService, schema.value)] else []
  }

  /** The services `configureFloodLight` adds: the light when the `floodlight_switch` schema exists. */
  function FloodLightServices(schemas: seq<SchemaEntry>): set<Service> {
    if FindSchema(schemas, LIGHT_ON).Some? then {LightbulbService} else {}
  }

  /** The handlers `configureFloodLight` binds: on/off, then brightness when `floodlight_lightness` exists. */
  function FloodLightBindings(schemas: seq<SchemaEntry>): seq<Binding> {
    var on := FindSchema(schemas, LIGHT_ON);
    var level := FindSchema(schemas, LIGHT_BRIGHTNESS);
    if on.None? then []
    else [OnOffBinding(LightbulbService, on.value)] +
         (if level.Some? then [BrightnessBinding(LightbulbService, level.value)] else [])
  }

  /** The services `configureMotion` adds: the motion sensor, and a switch for `motion_switch`. */
  function MotionServices(schemas: seq<SchemaEntry>): set<Service> {
    var on := FindSchema(schemas, MOTION_ON);
    {MotionSensorService} + (if on.Some? then {SwitchService(on.value.code)} else {})
  }

  /** The handler `configureMotion` binds: on/off for the `motion_switch` schema. */
  function MotionBindings(schemas: seq<SchemaEntry>): seq<Binding> {
    var on := FindSchema(schemas, MOTION_ON);
    if on.Some? then [OnOffBinding(SwitchService(on.value.code), on.value)] else []
  }

  /** The HomeKit services `configureServices` adds for a schema table. */
  function SetupServices(schemas: seq<SchemaEntry>): (r: set<Service>)
    ensures MotionSensorService in r
    ensures LightbulbService in r <==> FindSchema(schemas, LIGHT_ON).Some?
    ensures DoorbellService in r <==>
            DoorbellEvent.IsDoorbell(schemas) && FindSchema(schemas, DOORBELL_RING + ALARM_MESSAGE).Some?
    ensures forall t :: SwitchService(t) in r <==> FindSchema(schemas, MOTION_ON).Some? && t == "motion_switch"
  {
    FindSchemaSingle(schemas, "motion_switch");
    DoorbellServices(schemas) + FloodLightServices(schemas) + MotionServices(schemas)
  }

  /**
   * The handlers `configureServices` binds, in the order it binds them: the
   * doorbell's switch event, the floodlight's on/off then brightness, and the
   * motion switch's on/off.
   */
  function SetupBindings(schemas: seq<SchemaEntry>): (r: seq<Binding>)
    ensures |r| <= 4
  {
    DoorbellBindings(schemas) + FloodLightBindings(schemas) + MotionBindings(schemas)
  }

  /**
   * Every handler `configureServices` binds is for an entry of the schema
   * table and sits on a service it adds; switch events go to the doorbell.
   */
  lemma SetupBindsAddedServices(schemas: seq<SchemaEntry>)
    ensures forall b :: b in SetupBindings(schemas) ==> b.schema in schemas
    ensures forall b :: b in SetupBindings(schemas) && b.SwitchEventBinding? ==> b.service == DoorbellService
    ensures forall b :: b in SetupBindings(schemas) ==> b.service in SetupServices(schemas)
  {
    var d, f, m := DoorbellBindings(schemas), FloodLightBindings(schemas), MotionBindings(schemas);
    assert SetupBindings(schemas) == d + f + m;
    assert forall b :: b in d ==> b.service in DoorbellServices(schemas);
    assert forall b :: b in f ==> b.service in FloodLightServices(schemas);
    assert forall b :: b in m ==> b.service in MotionServices(schemas);
  }

  class CameraAccessory {
    const schemas: seq<SchemaEntry>
    const isVirtual: bool

    /** BaseAccessory's `intialized` flag. */
    var initialized: bool
    var services: set<Service>
    var bindings: seq<Binding>
    var switchEvents: seq<StatusEntry>
    /** `this.stream !== undefined`. */
    var stream: bool
    var controllers: nat
    /** The MotionDetected characteristic. */
    var motionDetected: bool
    /** When the pending expiry timer fires, if one is pending. */
    var deadline: Option<int>

    /**
     * At most one streaming controller, and none on a virtual device; no timer
     * is pending before initialization.
     */
    ghost predicate Valid()
      reads this
    {
      controllers == (if stream then 1 else 0) &&
      (stream ==> !isVirtual) &&
      (!initialized ==> deadline.None?)
    }

    function MotionStatus(): MotionTimer.MotionState
      reads this
    {
      MotionTimer.MotionState(motionDetected, deadline)
    }

    constructor (schemas: seq<SchemaEntry>, isVirtual: bool)
      ensures Valid()
      ensures this.schemas == schemas && this.isVirtual == isVirtual
      ensures !initialized && services == {} && bindings == [] && switchEvents == []
      ensures !stream && MotionStatus() == MotionTimer.Idle
    {
      this.schemas, this.isVirtual := schemas, isVirtual;
      initialized, services, bindings, switchEvents := false, {}, [], [];
      stream, controllers := false, 0;
      motionDetected, deadline := false, None;
    }

    /** `configureServices`: the four capabilities, in the source's order. */
    method ConfigureServices()
      requires Valid()
      modifies this`services, this`bindings, this`stream, this`controllers, this`motionDetected
      ensures Valid()
      ensures stream == (old(stream) || !isVirtual)
      ensures !motionDetected && deadline == old(deadline)
      ensures services == old(services) + SetupServices(schemas)
      ensures bindings == old(bindings) + SetupBindings(schemas)
    {
      ghost var d, f, m := DoorbellBindings(schemas), FloodLightBindings(schemas), MotionBindings(schemas);
      ConfigureDoorbell();
      ConfigureCamera();
      ConfigureFloodLight();
      ConfigureMotion();
      assert bindings == old(bindings) + d + f + m;
      assert old(bindings) + d + f + m == old(bindings) + (d + f + m);
    }

    /**
     * `configureFloodLight`: nothing without the `floodlight_switch` schema;
     * otherwise the light service with its on/off handler, and the brightness
     * handlers when the `floodlight_lightness` schema exists.
     */
    method ConfigureFloodLight()
      requires Valid()
      modifies this`services, this`bindings
      ensures Valid()
      ensures services == old(services) + FloodLightServices(schemas)
      ensures bindings == old(bindings) + FloodLightBindings(schemas)
    {
      var onSchema := FindSchema(schemas, LIGHT_ON);
      if onSchema.None? {
        return;
      }
      services := services + {LightbulbService};
      bindings := bindings + [OnOffBinding(LightbulbService, onSchema.value)];
      var brightnessSchema := FindSchema(schemas, LIGHT_BRIGHTNESS);
      if brightnessSchema.Some? {
        bindings := bindings + [BrightnessBinding(LightbulbService, brightnessSchema.value)];
      }
    }

    /**
     * `configureMotion`: a switch for the `motion_switch` schema when it exists,
     * and always the motion sensor with MotionDetected set to false.
     */
    method ConfigureMotion()
      requires Valid()
      modifies this`services, this`bindings, this`motionDetected
      ensures Valid()
      ensures !motionDetected
      ensures services == old(services) + MotionServices(schemas)
      ensures bindings == old(bindings) + MotionBindings(schemas)
    {
      var onSchema := FindSchema(schemas, MOTION_ON);
      if onSchema.Some? {
        var onService := SwitchService(onSchema.value.code);
        services := services + {onService};
        bindings := bindings + [OnOffBinding(onService, onSchema.value)];
      }
      services := services + {MotionSensorService};
      motionDetected := false;
    }

    /**
     * `configureDoorbell`: only on a device that passes the DOORBELL check, and
     * only when a ring or alarm-message schema exists, the doorbell service gets
     * a switch-event handler for that schema (the ring schema first).
     */
    method ConfigureDoorbell()
      requires Valid()
      modifies this`services, this`bindings
      ensures Valid()
      ensures services == old(services) + DoorbellServices(schemas)
      ensures bindings == old(bindings) + DoorbellBindings(schemas)
    {
      if FindSchema(schemas, DOORBELL).None? {
        return;
      }
      var schema := FindSchema(schemas, DOORBELL_RING + ALARM_MESSAGE);
      if schema.None? {
        return;
      }
      services := services + {DoorbellService};
      bindings := bindings + [SwitchEventBinding(DoorbellService, schema.value)];
    }

    /**
     * `configureCamera`: creates the streaming delegate and configures its
     * controller, unless one exists already or the device is virtual.
     */
    method ConfigureCamera()
      requires Valid()
      modifies this`stream, this`controllers
      ensures Valid()
      ensures stream == (old(stream) || !isVirtual)
      ensures controllers == if old(stream) || isVirtual then old(controllers) else old(controllers) + 1
    {
      if stream {
        return;
      }
      if isVirtual {
        return;
      }
      stream := true;
      controllers := controllers + 1;
    }

    /** BaseAccessory raises `intialized` once configuration is done. */
    method CompleteInitialization()
      requires Valid()
      modifies this`initialized
      ensures Valid() && initialized
    {
      initialized := true;
    }

    /**
     * `onDeviceStatusUpdate`: rings the doorbell with the entry the batch selects,
     * if any, and passes the batch's motion-detect entry to `onMotionDetected`.
     */
    method OnDeviceStatusUpdate(status: seq<StatusEntry>, now: int, decode: string -> string)
      returns (rang: Option<StatusEntry>, motion: Option<MotionOutcome>)
      requires Valid()
      modifies this`services, this`switchEvents, this`motionDetected, this`deadline
      ensures Valid()
      ensures rang == DoorbellEvent.SelectDoorbellEvent(schemas, status)
      ensures switchEvents == old(switchEvents) + (if rang.Some? then [rang.value] else [])
      ensures var entry := MotionStatusEntry(schemas, status);
              motion == (if entry.Some? then Some(MotionOutcomeOf(initialized, entry.value, decode)) else None) &&
              MotionStatus() ==
                if entry.Some? && entry.value.value.StringValue? then
                  MotionTimer.OnMotion(old(MotionStatus()), initialized, decode(entry.value.value.s), now)
                else old(MotionStatus())
      ensures services == old(services) + (if rang.Some? then {DoorbellService} else {}) +
                          (if motion == Some(MotionStarted) then {MotionSensorService} else {})
    {
      rang := DoorbellEvent.SelectDoorbellEvent(schemas, status);
      if rang.Some? {
        services := services + {DoorbellService};
        switchEvents := switchEvents + [rang.value];
      }
      var entry := MotionStatusEntry(schemas, status);
      if entry.Some? {
        var outcome := OnMotionDetected(entry.value, now, decode);
        motion := Some(outcome);
      } else {
        motion := None;
      }
    }

    /**
     * `onMotionDetected`: before initialization, for a value that is not a
     * string, or for an empty decoded payload nothing changes; otherwise motion
     * is set and the pending deadline replaced by `now + 30000`.
     */
    method OnMotionDetected(status: StatusEntry, now: int, decode: string -> string)
      returns (outcome: MotionOutcome)
      requires Valid()
      modifies this`services, this`motionDetected, this`deadline
      ensures Valid()
      ensures outcome == MotionOutcomeOf(initialized, status, decode)
      ensures MotionStatus() ==
              if status.value.StringValue? then
                MotionTimer.OnMotion(old(MotionStatus()), initialized, decode(status.value.s), now)
              else old(MotionStatus())
      ensures services == old(services) + (if outcome == MotionStarted then {MotionSensorService} else {})
    {
      if !initialized {
        return NotInitialized;
      }
      if !status.value.StringValue? {
        return DecodeError;
      }
      var data := decode(status.value.s);
      if |data| == 0 {
        return EmptyPayload;
      }
      services := services + {MotionSensorService};
      motionDetected := true;
      deadline := Some(now + MotionTimer.MOTION_TIMEOUT_MS);
      outcome := MotionStarted;
    }

    /** The pending expiry timer fires once time reaches its deadline, clearing motion. */
    method Tick(now: int)
      requires Valid()
      modifies this`motionDetected, this`deadline
      ensures Valid()
      ensures MotionStatus() == MotionTimer.Expire(old(MotionStatus()), now)
    {
      if deadline.Some? && deadline.value <= now {
        motionDetected := false;
        deadline := None;
      }
    }
  }

  /**
   * A motion at 0 s and another at 10 s keep motion detected at 30 s; it clears
   * at 40 s. A camera set up twice still has one streaming controller.
   */
  method CameraScenario()
  {
    var schemas := [SchemaEntry("movement_detect_pic", OtherProperty)];
    var camera := new CameraAccessory(schemas, false);
    camera.ConfigureServices();
    assert camera.services == {MotionSensorService} && camera.bindings == [];
    camera.ConfigureCamera();
    assert camera.stream && camera.controllers == 1;
    camera.CompleteInitialization();
    var decode := (s: string) => s;
    var outcome := camera.OnMotionDetected(StatusEntry("movement_detect_pic", StringValue("bW90aW9u")), 0, decode);
    assert outcome == MotionStarted;
    outcome := camera.OnMotionDetected(StatusEntry("movement_detect_pic", StringValue("bW90aW9u")), 10000, decode);
    camera.Tick(30000);
    assert camera.motionDetected;
    camera.Tick(40000);
    assert !camera.motionDetected;
  }
}
