/**
 * Which entry of a status batch, if any, rings the doorbell
 * (`onDeviceStatusUpdate`, src/accessory/CameraAccessory.ts lines 126-136).
 */
module DoorbellEvent {
  import opened Wrappers
  import opened Schema

  /**
   * `(value as string).length > 1`. The single-character heartbeat '$' fails it;
   * a number or a boolean has no length, and `undefined > 1` is false.
   */
  predicate LongerThanOne(v: StatusValue) {
    v.StringValue? && |v.s| > 1
  }

  /** `schema?.code`. */
  function CodeOf(schema: Option<SchemaEntry>): Option<string> {
    if schema.Some? then Some(schema.value.code) else None
  }

  /** The device passes the DOORBELL check: `getSchema(...SCHEMA_CODE.DOORBELL)` is defined. */
  predicate IsDoorbell(schemas: seq<SchemaEntry>) {
    FindSchema(schemas, DOORBELL).Some?
  }

  /**
   * The status entry a batch rings the doorbell with: the first ring entry when
   * its value is longer than one character, otherwise the first alarm-message
   * entry under the same condition, and only on a device that passes the
   * DOORBELL check and has a ring or an alarm-message schema.
   */
  function SelectDoorbellEvent(schemas: seq<SchemaEntry>, status: seq<StatusEntry>): (r: Option<StatusEntry>)
    ensures r.Some? ==> r.value in status && LongerThanOne(r.value.value)
    ensures r.Some? ==> IsDoorbell(schemas)
    ensures r.Some? ==> (r.value.code == "doorbell_pic" && HasCode(schemas, "doorbell_pic")) ||
                        (r.value.code == "alarm_message" && HasCode(schemas, "alarm_message"))
  {
    var ringSchema := FindSchema(schemas, DOORBELL_RING);
    var alarmSchema := FindSchema(schemas, ALARM_MESSAGE);
    if IsDoorbell(schemas) && (ringSchema.Some? || alarmSchema.Some?) then
      var ringStatus := FindStatus(status, CodeOf(ringSchema));
      var alarmStatus := FindStatus(status, CodeOf(alarmSchema));
      if ringStatus.Some? && LongerThanOne(ringStatus.value.value) then ringStatus
      else if alarmStatus.Some? && LongerThanOne(alarmStatus.value.value) then alarmStatus
      else None
    else None
  }

  /**
   * The DOORBELL check passes when EITHER `wireless_powermode` or
   * `doorbell_ring_exist` is in the table; it does not need both.
   */
  lemma DoorbellGateEitherCode(schemas: seq<SchemaEntry>)
    ensures IsDoorbell(schemas) <==>
            HasCode(schemas, "wireless_powermode") || HasCode(schemas, "doorbell_ring_exist")
  {
    FindSchemaFound(schemas, DOORBELL);
    assert forall c :: c in DOORBELL <==> c == "wireless_powermode" || c == "doorbell_ring_exist";
  }

  /**
   * When the ring schema exists and the batch's first ring entry is longer than
   * one character, the doorbell rings with that entry, whatever the batch holds
   * under the alarm-message code.
   */
  lemma RingEntryWins(schemas: seq<SchemaEntry>, status: seq<StatusEntry>, i: int)
    requires IsDoorbell(schemas) && HasCode(schemas, "doorbell_pic")
    requires FirstWithCode(status, i, "doorbell_pic") && LongerThanOne(status[i].value)
    ensures SelectDoorbellEvent(schemas, status) == Some(status[i])
  {
    FindSchemaSingle(schemas, "doorbell_pic");
    FindStatusFirst(status, i, "doorbell_pic");
  }

  /** The first entry of the batch that carries `code` exists and is longer than one character. */
  ghost predicate FirstQualifies(status: seq<StatusEntry>, code: string) {
    exists i :: FirstWithCode(status, i, code) && LongerThanOne(status[i].value)
  }

  /** `find` followed by the length test decides `FirstQualifies`. */
  lemma FindStatusQualifies(status: seq<StatusEntry>, code: string)
    ensures FirstQualifies(status, code) <==>
            FindStatus(status, Some(code)).Some? && LongerThanOne(FindStatus(status, Some(code)).value.value)
  {
    if FindStatus(status, Some(code)).Some? {
      FindStatusIsFirst(status, code);
    }
    forall i | FirstWithCode(status, i, code)
      ensures FindStatus(status, Some(code)) == Some(status[i])
    {
      FindStatusFirst(status, i, code);
    }
  }

  /** The ring and alarm-message lookups each reduce to their single code. */
  lemma DoorbellCodeLookups(schemas: seq<SchemaEntry>)
    ensures CodeOf(FindSchema(schemas, DOORBELL_RING)) ==
            if HasCode(schemas, "doorbell_pic") then Some("doorbell_pic") else None
    ensures CodeOf(FindSchema(schemas, ALARM_MESSAGE)) ==
            if HasCode(schemas, "alarm_message") then Some("alarm_message") else None
  {
    FindSchemaSingle(schemas, "doorbell_pic");
    FindSchemaSingle(schemas, "alarm_message");
  }

  /**
   * An alarm-message entry rings the doorbell only when the ring code does not
   * qualify: no ring schema, or a batch whose first ring entry is missing or at
   * most one character long.
   */
  lemma AlarmOnlyWhenRingDoesNotQualify(schemas: seq<SchemaEntry>, status: seq<StatusEntry>, e: StatusEntry)
    requires SelectDoorbellEvent(schemas, status) == Some(e) && e.code == "alarm_message"
    ensures !HasCode(schemas, "doorbell_pic") || !FirstQualifies(status, "doorbell_pic")
  {
    DoorbellCodeLookups(schemas);
    FindStatusQualifies(status, "doorbell_pic");
  }

  /**
   * When the ring code does not qualify, the doorbell rings with the batch's
   * first alarm-message entry if that entry is longer than one character, even
   * when later ring or alarm-message entries would qualify.
   */
  lemma AlarmFallbackUsesFirstAlarmEntry(schemas: seq<SchemaEntry>, status: seq<StatusEntry>, j: int)
    requires IsDoorbell(schemas) && HasCode(schemas, "alarm_message")
    requires !HasCode(schemas, "doorbell_pic") || !FirstQualifies(status, "doorbell_pic")
    requires FirstWithCode(status, j, "alarm_message") && LongerThanOne(status[j].value)
    ensures SelectDoorbellEvent(schemas, status) == Some(status[j])
  {
    DoorbellCodeLookups(schemas);
    FindStatusQualifies(status, "doorbell_pic");
    FindStatusFirst(status, j, "alarm_message");
  }

  /**
   * A batch in which no value is longer than one character (heartbeats such as
   * '$', numbers, booleans) never rings the doorbell, whichever codes carry them.
   */
  lemma ShortValuesNeverRing(schemas: seq<SchemaEntry>, status: seq<StatusEntry>)
    requires forall e :: e in status ==> !LongerThanOne(e.value)
    ensures SelectDoorbellEvent(schemas, status).None?
  {
  }

  /**
   * The doorbell rings exactly when the device passes the DOORBELL check and the
   * first entry of the ring code, or failing that of the alarm-message code, is
   * longer than one character; the batch yields at most that one entry.
   */
  lemma SelectDoorbellEventExactly(schemas: seq<SchemaEntry>, status: seq<StatusEntry>)
    ensures SelectDoorbellEvent(schemas, status).Some? <==>
            IsDoorbell(schemas) &&
            ((HasCode(schemas, "doorbell_pic") && FirstQualifies(status, "doorbell_pic")) ||
             (HasCode(schemas, "alarm_message") && FirstQualifies(status, "alarm_message")))
  {
    DoorbellCodeLookups(schemas);
    FindStatusQualifies(status, "doorbell_pic");
    FindStatusQualifies(status, "alarm_message");
  }

  /**
   * The schema `configureDoorbell` binds the switch event to,
   * `getSchema(...DOORBELL_RING, ...ALARM_MESSAGE)`: the ring schema when the
   * table has one, otherwise the alarm-message schema.
   */
  lemma DoorbellBindingPrefersRing(schemas: seq<SchemaEntry>)
    ensures FindSchema(schemas, DOORBELL_RING + ALARM_MESSAGE) ==
            if HasCode(schemas, "doorbell_pic") then FindByCode(schemas, "doorbell_pic")
            else FindByCode(schemas, "alarm_message")
  {
    FindSchemaConcat(schemas, DOORBELL_RING, ALARM_MESSAGE);
    FindSchemaSingle(schemas, "doorbell_pic");
    FindSchemaSingle(schemas, "alarm_message");
  }

  /**
   * A batch carrying both a ring entry "ab" and an alarm-message entry "xyz" on
   * a doorbell with both schemas rings once, with the ring entry.
   */
  lemma RingAndAlarmInOneBatch()
    ensures var schemas := [SchemaEntry("doorbell_ring_exist", BooleanProperty),
                            SchemaEntry("doorbell_pic", OtherProperty),
                            SchemaEntry("alarm_message", OtherProperty)];
            var status := [StatusEntry("alarm_message", StringValue("xyz")),
                           StatusEntry("doorbell_pic", StringValue("ab"))];
            SelectDoorbellEvent(schemas, status) == Some(status[1])
  {
    var schemas := [SchemaEntry("doorbell_ring_exist", BooleanProperty),
                    SchemaEntry("doorbell_pic", OtherProperty),
                    SchemaEntry("alarm_message", OtherProperty)];
    var status := [StatusEntry("alarm_message", StringValue("xyz")),
                   StatusEntry("doorbell_pic", StringValue("ab"))];
    assert schemas[0] in schemas && schemas[1] in schemas;
    DoorbellGateEitherCode(schemas);
    assert status[..1] == [status[0]];
    RingEntryWins(schemas, status, 1);
  }
}
