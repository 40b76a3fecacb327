/**
 * The device description a Tuya camera reports: its schema table (one entry per
 * reportable or settable attribute) and the status entries it pushes.
 *
 * `getSchema` belongs to BaseAccessory, which is not part of this model; it is
 * modelled as a lookup in caller priority order: the first code of the list
 * that the table holds wins, and for that code the first table entry is used.
 */
module Schema {
  import opened Wrappers

  /** The typed property of a schema entry; only integer bounds are read here. */
  datatype Property =
    | IntegerProperty(min: int, max: int)
    | BooleanProperty
    | OtherProperty

  datatype SchemaEntry = SchemaEntry(code: string, property: Property)

  /** A status value is a boolean, a number or a string (raw payloads are base64 strings). */
  datatype StatusValue =
    | BoolValue(b: bool)
    | IntValue(i: int)
    | StringValue(s: string)

  datatype StatusEntry = StatusEntry(code: string, value: StatusValue)

  // The alternative codes under which each capability may be reported.
  const MOTION_ON: seq<string> := ["motion_switch"]
  const MOTION_DETECT: seq<string> := ["movement_detect_pic"]
  const DOORBELL: seq<string> := ["wireless_powermode", "doorbell_ring_exist"]
  const DOORBELL_RING: seq<string> := ["doorbell_pic"]
  const ALARM_MESSAGE: seq<string> := ["alarm_message"]
  const LIGHT_ON: seq<string> := ["floodlight_switch"]
  const LIGHT_BRIGHTNESS: seq<string> := ["floodlight_lightness"]

  /** The schema table holds an entry for `code`. */
  predicate HasCode(schemas: seq<SchemaEntry>, code: string) {
    exists s :: s in schemas && s.code == code
  }

  /** No entry of `schemas[..i]` carries `code`. */
  ghost predicate NoCodeBefore(schemas: seq<SchemaEntry>, i: int, code: string)
    requires 0 <= i <= |schemas|
  {
    forall s :: s in schemas[..i] ==> s.code != code
  }

  /** The table holds no code of `codes[..k]`. */
  ghost predicate NoneFoundBefore(schemas: seq<SchemaEntry>, codes: seq<string>, k: int)
    requires 0 <= k <= |codes|
  {
    forall c :: c in codes[..k] ==> !HasCode(schemas, c)
  }

  /** The first table entry whose code is `code`. */
  function FindByCode(schemas: seq<SchemaEntry>, code: string): (r: Option<SchemaEntry>)
    ensures r.Some? ==> r.value in schemas && r.value.code == code
  {
    if schemas == [] then None
    else if schemas[0].code == code then Some(schemas[0])
    else FindByCode(schemas[1..], code)
  }

  /** An entry is found exactly when the table holds the code. */
  lemma {:induction false} FindByCodeFound(schemas: seq<SchemaEntry>, code: string)
    ensures FindByCode(schemas, code).Some? <==> HasCode(schemas, code)
  {
    if schemas != [] && schemas[0].code != code {
      FindByCodeFound(schemas[1..], code);
      assert forall s :: s in schemas ==> s == schemas[0] || s in schemas[1..];
    }
  }

  /** The entry found is the first one carrying the code. */
  lemma {:induction false} FindByCodeFirst(schemas: seq<SchemaEntry>, code: string, i: int)
    requires 0 <= i < |schemas| && schemas[i].code == code && NoCodeBefore(schemas, i, code)
    ensures FindByCode(schemas, code) == Some(schemas[i])
  {
    if i > 0 {
      assert schemas[0] in schemas[..i];
      assert schemas[1..][..i - 1] == schemas[..i][1..];
      FindByCodeFirst(schemas[1..], code, i - 1);
    }
  }

  /**
   * `getSchema(...codes)`: the entry for the first code of `codes` that the table
   * holds, or None when it holds none of them.
   */
  function FindSchema(schemas: seq<SchemaEntry>, codes: seq<string>): (r: Option<SchemaEntry>)
    ensures r.Some? ==> r.value in schemas && r.value.code in codes
  {
    if codes == [] then None
    else
      var first := FindByCode(schemas, codes[0]);
      if first.Some? then first else FindSchema(schemas, codes[1..])
  }

  /** An entry is found exactly when the table holds one of the codes. */
  lemma {:induction false} FindSchemaFound(schemas: seq<SchemaEntry>, codes: seq<string>)
    ensures FindSchema(schemas, codes).Some? <==> exists c :: c in codes && HasCode(schemas, c)
  {
    if codes != [] {
      FindByCodeFound(schemas, codes[0]);
      FindSchemaFound(schemas, codes[1..]);
      assert forall c :: c in codes ==> c == codes[0] || c in codes[1..];
    }
  }

  /**
   * Caller priority: when `codes[k]` is the first listed code the table holds,
   * the lookup is the first entry carrying `codes[k]`.
   */
  lemma {:induction false} FindSchemaFirst(schemas: seq<SchemaEntry>, codes: seq<string>, k: int)
    requires 0 <= k < |codes| && HasCode(schemas, codes[k]) && NoneFoundBefore(schemas, codes, k)
    ensures FindSchema(schemas, codes) == FindByCode(schemas, codes[k])
  {
    if k == 0 {
      FindByCodeFound(schemas, codes[0]);
    } else {
      assert codes[0] in codes[..k];
      FindByCodeFound(schemas, codes[0]);
      assert codes[1..][..k - 1] == codes[..k][1..];
      FindSchemaFirst(schemas, codes[1..], k - 1);
    }
  }

  /**
   * Looking up a concatenated code list is looking up the first part and, only
   * when that finds nothing, the second: the earlier list has priority.
   */
  lemma {:induction false} FindSchemaConcat(schemas: seq<SchemaEntry>, a: seq<string>, b: seq<string>)
    ensures FindSchema(schemas, a + b) ==
            if FindSchema(schemas, a).Some? then FindSchema(schemas, a) else FindSchema(schemas, b)
  {
    if a != [] {
      assert (a + b)[0] == a[0];
      assert (a + b)[1..] == a[1..] + b;
      FindSchemaConcat(schemas, a[1..], b);
    } else {
      assert a + b == b;
    }
  }

  /** Looking up a one-code list is looking up that code. */
  lemma FindSchemaSingle(schemas: seq<SchemaEntry>, code: string)
    ensures FindSchema(schemas, [code]) == FindByCode(schemas, code)
    ensures FindSchema(schemas, [code]).Some? <==> HasCode(schemas, code)
  {
    assert [code][1..] == [];
    FindByCodeFound(schemas, code);
  }

  /**
   * `status.find(s => s.code === code)`: the first entry of the batch carrying
   * `code`; with no code to look for (`schema?.code` is undefined) nothing matches.
   */
  function FindStatus(status: seq<StatusEntry>, code: Option<string>): (r: Option<StatusEntry>)
    ensures code.None? ==> r.None?
    ensures r.Some? ==> r.value in status && code == Some(r.value.code)
  {
    if code.None? || status == [] then None
    else if status[0].code == code.value then Some(status[0])
    else FindStatus(status[1..], code)
  }

  /** The entry at index `i` is the first of the batch that carries `code`. */
  ghost predicate FirstWithCode(status: seq<StatusEntry>, i: int, code: string) {
    0 <= i < |status| && status[i].code == code &&
    forall e :: e in status[..i] ==> e.code != code
  }

  /** `find` returns exactly the first entry with the code looked for. */
  lemma {:induction false} FindStatusFirst(status: seq<StatusEntry>, i: int, code: string)
    requires FirstWithCode(status, i, code)
    ensures FindStatus(status, Some(code)) == Some(status[i])
  {
    if i > 0 {
      assert status[0] in status[..i];
      assert status[1..][..i - 1] == status[..i][1..];
      FindStatusFirst(status[1..], i - 1, code);
    }
  }

  /** `find` finds something exactly when some entry carries the code. */
  lemma {:induction false} FindStatusFound(status: seq<StatusEntry>, code: string)
    ensures FindStatus(status, Some(code)).Some? <==> exists e :: e in status && e.code == code
  {
    if status != [] && status[0].code != code {
      FindStatusFound(status[1..], code);
      assert forall e :: e in status ==> e == status[0] || e in status[1..];
    }
  }

  /** What `find` finds is the first entry carrying the code. */
  lemma {:induction false} FindStatusIsFirst(status: seq<StatusEntry>, code: string)
    requires FindStatus(status, Some(code)).Some?
    ensures exists i :: FirstWithCode(status, i, code) && status[i] == FindStatus(status, Some(code)).value
  {
    if status[0].code == code {
      assert FirstWithCode(status, 0, code);
    } else {
      FindStatusIsFirst(status[1..], code);
      var i :| FirstWithCode(status[1..], i, code) &&
               status[1..][i] == FindStatus(status[1..], Some(code)).value;
      assert status[..i + 1] == [status[0]] + status[1..][..i];
      assert FirstWithCode(status, i + 1, code);
    }
  }
}
