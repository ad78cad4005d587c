/** The per-LED rules: how a telemetry snapshot and the cached LED state
    decide whether a command is sent and what is cached afterwards
    (`_set_bool_led`, `led_update_apr`, `led_update_alt`, the no-op updaters). */
module Rules {
  import opened Device

  /** A value of `KNOWN_LED_STATE`. The program stores 0, 1 and the strings
      "on", "flash", "off", "locked", "armed", and reads None for a missing
      key; the three cases keep Python's truthiness and equality. */
  datatype CacheVal = PyNone | PyInt(i: int) | PyStr(s: string)

  /** Python truthiness: None, 0 and "" are false. */
  predicate Truthy(v: CacheVal)
  {
    match v
    case PyNone => false
    case PyInt(i) => i != 0
    case PyStr(s) => s != ""
  }

  /** `KNOWN_LED_STATE`. */
  type Cache = map<int, CacheVal>

  /** `KNOWN_LED_STATE.get(led_id)`: None for a missing key. */
  function Get(cache: Cache, ledId: int): CacheVal
  {
    if ledId in cache then cache[ledId] else PyNone
  }

  /** A telemetry snapshot: simulator variable name to its current reading. */
  type Snapshot = map<string, int>

  /** `aircraft_state.get(key) or 0`: a missing reading is 0. */
  function Read(snap: Snapshot, key: string): int
  {
    if key in snap then snap[key] else 0
  }

  /** `(aircraft_state.get(key) or 0) > 0`. */
  predicate Flag(snap: Snapshot, key: string)
  {
    Read(snap, key) > 0
  }

  datatype Option<T> = None | Some(value: T)

  /** A decision to write: the command sent and the value cached for the LED. */
  datatype Write = Write(kind: CommandKind, val: CacheVal)

  // Two-state LEDs.

  /** `_set_bool_led` on the cached value and the reading. A write happens
      only when the lit state (reading above 0) differs from the truthiness
      of the cache, and afterwards the cache's truthiness is the lit state;
      a negative reading never writes. */
  function BoolDecide(known: CacheVal, simState: int): (r: Option<Write>)
    ensures r.Some? ==> (r.value.kind == On || r.value.kind == Off)
    ensures r.Some? ==> Truthy(r.value.val) == (simState > 0)
    ensures r.Some? ==> Truthy(known) != (simState > 0)
    ensures r.Some? ==> (r.value.kind == On <==> Truthy(r.value.val))
    ensures r.None? <==> (simState > 0 ==> Truthy(known)) && (simState == 0 ==> !Truthy(known))
    ensures simState < 0 ==> r.None?
  {
    if simState > 0 && !Truthy(known) then Some(Write(On, PyInt(1)))
    else if simState == 0 && Truthy(known) then Some(Write(Off, PyInt(0)))
    else None
  }

  // The approach LED.

  const APR_ON := PyStr("on")
  const APR_FLASH := PyStr("flash")
  const OFF_TAG := PyStr("off")

  /** The six readings `led_update_apr` takes. */
  datatype AprFlags = AprFlags(aprArmed: bool, aprActive: bool, aprCaptured: bool,
                               aprHold: bool, gsArmed: bool, gsActive: bool)

  function AprFlagsOf(snap: Snapshot): AprFlags
  {
    AprFlags(Flag(snap, "AUTOPILOT_APPROACH_ARM"), Flag(snap, "AUTOPILOT_APPROACH_ACTIVE"),
             Flag(snap, "AUTOPILOT_APPROACH_CAPTURED"), Flag(snap, "AUTOPILOT_APPROACH_HOLD"),
             Flag(snap, "AUTOPILOT_GLIDESLOPE_ARM"), Flag(snap, "AUTOPILOT_GLIDESLOPE_ACTIVE"))
  }

  /** The approach is engaged: active, captured, held, or on the glideslope. */
  predicate AprEngaged(f: AprFlags)
  {
    f.aprActive || f.aprCaptured || f.gsActive || f.aprHold
  }

  /** The approach or the glideslope is armed. */
  predicate AprArmed(f: AprFlags)
  {
    f.aprArmed || f.gsArmed
  }

  /** The command that goes with each cached approach tag. */
  function AprKindOf(tag: CacheVal): CommandKind
  {
    if tag == APR_ON then On else if tag == APR_FLASH then Flashing else Off
  }

  /** `led_update_apr`. Every write changes the cached value and sends the
      command that goes with the new tag; "on" is sent only when engaged,
      flashing only when armed, "off" only when all six flags are clear.
      Nothing is written exactly when the cache already holds the tag of
      every condition that holds, so with the approach both engaged and armed
      there is always a write. */
  function AprDecide(known: CacheVal, f: AprFlags): (r: Option<Write>)
    ensures r.Some? ==> r.value.val != known && r.value.kind == AprKindOf(r.value.val)
    ensures r.Some? ==> r.value.val in {APR_ON, APR_FLASH, OFF_TAG}
    ensures r.Some? && r.value.kind == On ==> AprEngaged(f)
    ensures r.Some? && r.value.kind == Flashing ==> AprArmed(f)
    ensures r.Some? && r.value.kind == Off ==> !AprEngaged(f) && !AprArmed(f)
    ensures r.None? <==> (AprEngaged(f) ==> known == APR_ON) && (AprArmed(f) ==> known == APR_FLASH)
                         && (!AprEngaged(f) && !AprArmed(f) ==> known == OFF_TAG)
  {
    if AprEngaged(f) && known != APR_ON then Some(Write(On, APR_ON))
    else if AprArmed(f) && known != APR_FLASH then Some(Write(Flashing, APR_FLASH))
    else if !(f.aprArmed || f.aprActive || f.aprCaptured || f.aprHold || f.gsActive || f.gsArmed)
            && known != OFF_TAG then Some(Write(Off, OFF_TAG))
    else None
  }

  // The altitude LED.

  const ALT_LOCKED := PyStr("locked")
  const ALT_ARMED := PyStr("armed")

  /** `KNOWN_LED_STATE.get(led_id, "off") or "off"`. */
  function AltKnown(cache: Cache, ledId: int): (v: CacheVal)
    ensures Truthy(v)
    ensures !Truthy(Get(cache, ledId)) ==> v == OFF_TAG
    ensures Truthy(Get(cache, ledId)) ==> v == Get(cache, ledId)
  {
    var v := if ledId in cache then cache[ledId] else OFF_TAG;
    if Truthy(v) then v else OFF_TAG
  }

  /** The command that goes with each cached altitude tag. */
  function AltKindOf(tag: CacheVal): CommandKind
  {
    if tag == ALT_LOCKED then On else if tag == ALT_ARMED then Flashing else Off
  }

  /** `led_update_alt` on the normalised cached value. Every write changes
      it and sends the command that goes with the new tag; "on" only when
      locked, flashing only when armed, "off" only when neither. Nothing is
      written exactly when the cache holds the tag of every condition that
      holds. */
  function AltDecide(known: CacheVal, armed: bool, locked: bool): (r: Option<Write>)
    ensures r.Some? ==> r.value.val != known && r.value.kind == AltKindOf(r.value.val)
    ensures r.Some? ==> r.value.val in {ALT_LOCKED, ALT_ARMED, OFF_TAG}
    ensures r.Some? && r.value.kind == On ==> locked
    ensures r.Some? && r.value.kind == Flashing ==> armed
    ensures r.Some? && r.value.kind == Off ==> !locked && !armed
    ensures r.None? <==> (locked ==> known == ALT_LOCKED) && (armed ==> known == ALT_ARMED)
                         && (!locked && !armed ==> known == OFF_TAG)
  {
    if locked && known != ALT_LOCKED then Some(Write(On, ALT_LOCKED))
    else if armed && known != ALT_ARMED then Some(Write(Flashing, ALT_ARMED))
    else if !locked && !armed && known != OFF_TAG then Some(Write(Off, OFF_TAG))
    else None
  }

  // The rule attached to each LED.

  /** The updater functions: `_set_bool_led` on one simulator variable, the
      approach rule, the altitude rule, and `led_update_noop`. */
  datatype Rule = BoolRule(simAttr: string) | AprRule | AltRule | NoopRule

  /** The snapshot of one rule is "engaged and armed at once", the one case in
      which the approach and altitude rules never settle. */
  predicate Oscillating(rule: Rule, snap: Snapshot)
  {
    match rule
    case AprRule => AprEngaged(AprFlagsOf(snap)) && AprArmed(AprFlagsOf(snap))
    case AltRule => Flag(snap, "AUTOPILOT_ALTITUDE_LOCK") && Flag(snap, "AUTOPILOT_ALTITUDE_ARM")
    case _ => false
  }

  /** What one updater decides for LED `ledId` given the cache and the snapshot. */
  function Decide(rule: Rule, cache: Cache, ledId: int, snap: Snapshot): (r: Option<Write>)
    ensures rule.NoopRule? ==> r.None?
    ensures r.Some? ==> Truthy(r.value.val) || r.value.val == PyInt(0)
  {
    match rule
    case BoolRule(attr) => BoolDecide(Get(cache, ledId), Read(snap, attr))
    case AprRule => AprDecide(Get(cache, ledId), AprFlagsOf(snap))
    case AltRule =>
      AltDecide(AltKnown(cache, ledId), Flag(snap, "AUTOPILOT_ALTITUDE_ARM"),
                Flag(snap, "AUTOPILOT_ALTITUDE_LOCK"))
    case NoopRule => None
  }

  /** Every write changes the LED's cache entry (as `get` reads it). */
  lemma DecideChangesEntry(rule: Rule, cache: Cache, ledId: int, snap: Snapshot)
    ensures Decide(rule, cache, ledId, snap).Some? ==>
              Decide(rule, cache, ledId, snap).value.val != Get(cache, ledId)
  {
    if rule.AltRule? && Decide(rule, cache, ledId, snap).Some? {
      assert Truthy(Decide(rule, cache, ledId, snap).value.val);
    }
  }

  // The case tables of the three rules.

  /** `_set_bool_led`: on when the reading is positive and the cache falsy,
      off when the reading is 0 and the cache truthy, nothing otherwise
      (negative readings, already on, already off). */
  lemma BoolTransitions(known: CacheVal, simState: int)
    ensures BoolDecide(known, simState) == Some(Write(On, PyInt(1))) <==>
            simState > 0 && !Truthy(known)
    ensures BoolDecide(known, simState) == Some(Write(Off, PyInt(0))) <==>
            simState == 0 && Truthy(known)
    ensures BoolDecide(known, simState).None? <==>
            !(simState > 0 && !Truthy(known)) && !(simState == 0 && Truthy(known))
  {
  }

  /** `led_update_alt`: locked wins, then armed, then off; each unless the
      normalised cache already holds its tag. A missing, None or 0 entry reads
      as "off", so an all-clear snapshot writes nothing to a fresh entry. */
  lemma AltTransitions(cache: Cache, ledId: int, armed: bool, locked: bool)
    ensures locked ==>
      AltDecide(AltKnown(cache, ledId), armed, locked) ==
        (if AltKnown(cache, ledId) != ALT_LOCKED then Some(Write(On, ALT_LOCKED))
         else if armed then Some(Write(Flashing, ALT_ARMED)) else None)
    ensures !locked && armed ==>
      AltDecide(AltKnown(cache, ledId), armed, locked) ==
        (if AltKnown(cache, ledId) != ALT_ARMED then Some(Write(Flashing, ALT_ARMED)) else None)
    ensures !locked && !armed ==>
      AltDecide(AltKnown(cache, ledId), armed, locked) ==
        (if AltKnown(cache, ledId) != OFF_TAG then Some(Write(Off, OFF_TAG)) else None)
    ensures !locked && !armed && !Truthy(Get(cache, ledId)) ==>
      AltDecide(AltKnown(cache, ledId), armed, locked).None?
  {
  }

  /** `led_update_apr`: engaged writes "on" unless cached "on"; otherwise armed
      writes "flash" unless cached "flash"; "off" is written only when all six
      flags are clear and the cache is not "off". None and 0 are never "off",
      so the first all-clear pass on a fresh or reset entry writes "off". */
  lemma AprTransitions(known: CacheVal, f: AprFlags)
    ensures AprEngaged(f) && known != APR_ON ==> AprDecide(known, f) == Some(Write(On, APR_ON))
    ensures (!AprEngaged(f) || known == APR_ON) && AprArmed(f) && known != APR_FLASH ==>
              AprDecide(known, f) == Some(Write(Flashing, APR_FLASH))
    ensures AprDecide(known, f) == Some(Write(Off, OFF_TAG)) <==>
              f == AprFlags(false, false, false, false, false, false) && known != OFF_TAG
    ensures (known == PyNone || known == PyInt(0)) && !AprEngaged(f) && !AprArmed(f) ==>
              AprDecide(known, f) == Some(Write(Off, OFF_TAG))
  {
  }

  /** A second decision on the value the first one cached writes nothing,
      for every rule, unless the approach or altitude LED is engaged and
      armed at once. */
  lemma {:induction false} DecideSettles(rule: Rule, cache: Cache, ledId: int, snap: Snapshot)
    requires !Oscillating(rule, snap)
    ensures var d := Decide(rule, cache, ledId, snap);
            var after := if d.Some? then cache[ledId := d.value.val] else cache;
            Decide(rule, after, ledId, snap).None?
  {
    var d := Decide(rule, cache, ledId, snap);
    var after := if d.Some? then cache[ledId := d.value.val] else cache;
    if d.Some? {
      assert Get(after, ledId) == d.value.val;
    }
  }

  /** Engaged and armed together: the approach LED alternates. Whatever
      was cached, a write always happens; "on" when the cache is not "on",
      otherwise flashing, so consecutive passes go on, flashing, on, ... */
  lemma AprOscillates(known: CacheVal, f: AprFlags)
    requires AprEngaged(f) && AprArmed(f)
    ensures AprDecide(known, f) == if known != APR_ON then Some(Write(On, APR_ON))
                                   else Some(Write(Flashing, APR_FLASH))
    ensures AprDecide(APR_ON, f) == Some(Write(Flashing, APR_FLASH))
    ensures AprDecide(APR_FLASH, f) == Some(Write(On, APR_ON))
  {
  }

  /** Locked and armed together: the altitude LED alternates between "locked"
      (on) and "armed" (flashing). */
  lemma AltOscillates(known: CacheVal)
    requires Truthy(known)
    ensures AltDecide(known, true, true) == if known != ALT_LOCKED then Some(Write(On, ALT_LOCKED))
                                            else Some(Write(Flashing, ALT_ARMED))
    ensures AltDecide(ALT_LOCKED, true, true) == Some(Write(Flashing, ALT_ARMED))
    ensures AltDecide(ALT_ARMED, true, true) == Some(Write(On, ALT_LOCKED))
  {
  }
}
