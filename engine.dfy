/** The LED synchronisation engine: the module-level cache `KNOWN_LED_STATE`,
    the updaters that read and write it, the pass driver `led_update_loop`,
    and the session of `run_simconnect` (bootstrap, then one pass per
    snapshot). */
module Engine {
  import opened Leds
  import opened Device
  import opened Rules

  /** An entry of `LED_UPDATER_MAP`: the LED and the updater attached to it. */
  type Updater = (FsmGaLed, Rule)

  /** The updater `LED_UPDATER_MAP` attaches to each LED. VNAV uses
      `led_update_noop`, like TRK. */
  function RuleOf(led: FsmGaLed): Rule
  {
    match led
    case Hdg => BoolRule("AUTOPILOT_HEADING_LOCK")
    case Trk => NoopRule
    case Nav => BoolRule("AUTOPILOT_NAV1_LOCK")
    case Apr => AprRule
    case Alt => AltRule
    case Lvl => BoolRule("AUTOPILOT_WING_LEVELER")
    case Vnav => NoopRule
    case Ias => BoolRule("AUTOPILOT_FLIGHT_LEVEL_CHANGE")
    case Ap => BoolRule("AUTOPILOT_MASTER")
    case Fd => BoolRule("AUTOPILOT_FLIGHT_DIRECTOR_ACTIVE")
    case Yd => BoolRule("AUTOPILOT_YAW_DAMPER")
    case Vs => BoolRule("AUTOPILOT_VERTICAL_HOLD")
  }

  /** Only TRK and VNAV have the no-op updater; APR alone has the approach
      rule and ALT alone the altitude rule; every other LED is two-state. */
  lemma RuleOfCases(led: FsmGaLed)
    ensures RuleOf(led).NoopRule? <==> led == Trk || led == Vnav
    ensures RuleOf(led) == AprRule <==> led == Apr
    ensures RuleOf(led) == AltRule <==> led == Alt
    ensures RuleOf(led).BoolRule? <==> led !in {Trk, Vnav, Apr, Alt}
  {
  }

  /** `LED_UPDATER_MAP`, in insertion order: one entry per member, HDG first. */
  function Updaters(): seq<Updater>
  {
    seq(|MEMBERS|, i requires 0 <= i < |MEMBERS| => (MEMBERS[i], RuleOf(MEMBERS[i])))
  }

  /** `int(led_id)` of an entry. */
  function Id(u: Updater): int
  {
    Value(u.0)
  }

  predicate IncreasingIds(us: seq<Updater>)
  {
    forall i, j :: 0 <= i < j < |us| ==> Id(us[i]) < Id(us[j])
  }

  /** The table lists every LED once, in the order HDG (10) .. VS (21) of
      `ALL_LEDS`, and only TRK (11) and VNAV (16) have the no-op updater. */
  lemma UpdaterTable()
    ensures |Updaters()| == |AllLeds()| == 12
    ensures forall i :: 0 <= i < 12 ==> Updaters()[i].0 == MEMBERS[i] && Id(Updaters()[i]) == AllLeds()[i]
    ensures forall i :: 0 <= i < 12 ==> (Updaters()[i].1.NoopRule? <==> i == 1 || i == 6)
    ensures Updaters()[3].1 == AprRule && Updaters()[4].1 == AltRule
    ensures forall i :: 0 <= i < 12 && i != 3 ==> !Updaters()[i].1.AprRule?
    ensures IncreasingIds(Updaters())
  {
    IdRange();
    UpdaterIds();
    UpdaterNoops();
    UpdaterApr();
    UpdatersIncreasing();
  }

  /** The i-th entry of the table is LED 10 + i. */
  lemma UpdaterIds()
    ensures |Updaters()| == 12
    ensures forall i :: 0 <= i < 12 ==> Updaters()[i].0 == MEMBERS[i] && Id(Updaters()[i]) == 10 + i
  {
    MemberValues();
  }

  /** Only entries 1 (TRK) and 6 (VNAV) have the no-op updater. */
  lemma UpdaterNoops()
    ensures forall i :: 0 <= i < |Updaters()| ==> (Updaters()[i].1.NoopRule? <==> i == 1 || i == 6)
  {
  }

  /** Entry 3 (APR, LED 13) is the only approach updater; entry 4 (ALT, LED 14)
      is the only altitude updater. */
  lemma UpdaterApr()
    ensures Updaters()[3].1 == AprRule && Id(Updaters()[3]) == 13
    ensures Updaters()[4].1 == AltRule && Id(Updaters()[4]) == 14
    ensures forall i :: 0 <= i < |Updaters()| && i != 3 ==> !Updaters()[i].1.AprRule?
    ensures forall i :: 0 <= i < |Updaters()| && i != 4 ==> !Updaters()[i].1.AltRule?
  {
  }

  /** The ids of the table strictly increase. */
  lemma UpdatersIncreasing()
    ensures IncreasingIds(Updaters())
  {
    MemberValues();
  }

  // One updater.

  /** The commands one updater sends for LED `ledId`. */
  function StepCmds(ledId: int, rule: Rule, cache: Cache, snap: Snapshot): (r: seq<Command>)
    ensures |r| <= 1
    ensures forall c :: c in r ==> c.ledId == ledId
    ensures rule.NoopRule? ==> r == []
  {
    match Decide(rule, cache, ledId, snap)
    case None => []
    case Some(w) => [SetLed(ledId, w.kind)]
  }

  /** The cache after one updater for LED `ledId`: only that LED's entry can
      change, and it changes exactly when a command was sent. */
  function StepCache(ledId: int, rule: Rule, cache: Cache, snap: Snapshot): (r: Cache)
    ensures r - {ledId} == cache - {ledId}
    ensures StepCmds(ledId, rule, cache, snap) == [] <==> r == cache
    ensures StepCmds(ledId, rule, cache, snap) != [] ==> ledId in r && Get(r, ledId) != Get(cache, ledId)
  {
    DecideChangesEntry(rule, cache, ledId, snap);
    match Decide(rule, cache, ledId, snap)
    case None => cache
    case Some(w) => cache[ledId := w.val]
  }

  /** What an updater decides depends on the cache only through its own entry. */
  lemma DecideReadsOwnEntry(rule: Rule, c: Cache, c': Cache, ledId: int, snap: Snapshot)
    requires Get(c, ledId) == Get(c', ledId)
    ensures Decide(rule, c, ledId, snap) == Decide(rule, c', ledId, snap)
  {
  }

  // One pass.

  /** The LEDs whose updater is not the no-op one. */
  function ActiveIds(us: seq<Updater>): set<int>
  {
    if us == [] then {}
    else (if us[0].1.NoopRule? then {} else {Id(us[0])}) + ActiveIds(us[1..])
  }

  /** The commands of one pass of `led_update_loop`: every updater in turn,
      each seeing the cache the previous ones left. At most one command per
      updater, and only for LEDs that have a real updater. */
  function PassCmds(us: seq<Updater>, cache: Cache, snap: Snapshot): (r: seq<Command>)
    ensures |r| <= |us|
    ensures forall c :: c in r ==> c.ledId in ActiveIds(us)
  {
    if us == [] then []
    else
      StepCmds(Id(us[0]), us[0].1, cache, snap) +
        PassCmds(us[1..], StepCache(Id(us[0]), us[0].1, cache, snap), snap)
  }

  /** The cache after one pass: entries of LEDs without a real updater are
      as before. */
  function PassCache(us: seq<Updater>, cache: Cache, snap: Snapshot): (r: Cache)
    ensures r - ActiveIds(us) == cache - ActiveIds(us)
  {
    if us == [] then cache
    else
      var next := StepCache(Id(us[0]), us[0].1, cache, snap);
      var r := PassCache(us[1..], next, snap);
      PassFrameStep(us, cache, next, r);
      r
  }

  /** The frame of one pass step: the first updater changes only its own
      entry and the rest only theirs. */
  lemma PassFrameStep(us: seq<Updater>, cache: Cache, next: Cache, r: Cache)
    requires us != []
    requires next - {Id(us[0])} == cache - {Id(us[0])}
    requires us[0].1.NoopRule? ==> next == cache
    requires r - ActiveIds(us[1..]) == next - ActiveIds(us[1..])
    ensures r - ActiveIds(us) == cache - ActiveIds(us)
  {
    var a := ActiveIds(us);
    assert ActiveIds(us[1..]) <= a;
    assert (r - ActiveIds(us[1..])) - a == r - a;
    assert (next - ActiveIds(us[1..])) - a == next - a;
    if !us[0].1.NoopRule? {
      assert (next - {Id(us[0])}) - a == next - a;
      assert (cache - {Id(us[0])}) - a == cache - a;
    }
  }

  /** Every id in ActiveIds comes from an updater of the list. */
  lemma {:induction false} ActiveIdsAmong(us: seq<Updater>, k: int)
    requires k in ActiveIds(us)
    ensures exists i :: 0 <= i < |us| && Id(us[i]) == k && !us[i].1.NoopRule?
  {
    if !(!us[0].1.NoopRule? && k == Id(us[0])) {
      ActiveIdsAmong(us[1..], k);
      var i :| 0 <= i < |us[1..]| && Id(us[1..][i]) == k && !us[1..][i].1.NoopRule?;
      assert us[i + 1] == us[1..][i];
    }
  }

  /** One pass over a suffix of the table: its first updater, then the rest. */
  lemma PassSuffix(us: seq<Updater>, i: nat, cache: Cache, snap: Snapshot)
    requires i < |us|
    ensures var next := StepCache(Id(us[i]), us[i].1, cache, snap);
            PassCmds(us[i..], cache, snap) ==
              StepCmds(Id(us[i]), us[i].1, cache, snap) + PassCmds(us[i + 1..], next, snap) &&
            PassCache(us[i..], cache, snap) == PassCache(us[i + 1..], next, snap)
  {
    assert us[i..][0] == us[i] && us[i..][1..] == us[i + 1..];
  }

  /** With increasing ids, the updaters after the first one act only on
      LEDs with larger ids. */
  lemma LaterIdsAbove(us: seq<Updater>)
    requires us != [] && IncreasingIds(us)
    ensures forall k :: k in ActiveIds(us[1..]) ==> Id(us[0]) < k
  {
    forall k | k in ActiveIds(us[1..]) ensures Id(us[0]) < k {
      ActiveIdsAmong(us[1..], k);
      var i :| 0 <= i < |us[1..]| && Id(us[1..][i]) == k && !us[1..][i].1.NoopRule?;
      assert us[1..][i] == us[i + 1];
    }
  }

  /** Entries outside ActiveIds are read the same after the pass. */
  lemma PassKeepsInactive(us: seq<Updater>, cache: Cache, snap: Snapshot, k: int)
    requires k !in ActiveIds(us)
    ensures Get(PassCache(us, cache, snap), k) == Get(cache, k)
  {
    var r := PassCache(us, cache, snap);
    var a := ActiveIds(us);
    assert (k in r) == (k in r - a);
    assert (k in cache) == (k in cache - a);
    if k in r {
      assert r[k] == (r - a)[k];
      assert cache[k] == (cache - a)[k];
    }
  }

  /** The TRK and VNAV updaters never send a command and never touch their
      cache entry, whatever the snapshot. */
  lemma NoopLedsUntouched(cache: Cache, snap: Snapshot)
    ensures forall c :: c in PassCmds(Updaters(), cache, snap) ==> c.ledId != 11 && c.ledId != 16
    ensures Get(PassCache(Updaters(), cache, snap), 11) == Get(cache, 11)
    ensures Get(PassCache(Updaters(), cache, snap), 16) == Get(cache, 16)
    ensures |PassCmds(Updaters(), cache, snap)| <= 12
  {
    UpdaterIds();
    UpdaterNoops();
    forall k | k in ActiveIds(Updaters()) ensures k != 11 && k != 16 {
      ActiveIdsAmong(Updaters(), k);
    }
    PassKeepsInactive(Updaters(), cache, snap, 11);
    PassKeepsInactive(Updaters(), cache, snap, 16);
  }

  predicate CommandsInIdOrder(cmds: seq<Command>)
  {
    forall i, j :: 0 <= i < j < |cmds| ==> cmds[i].ledId < cmds[j].ledId
  }

  /** With increasing ids, a pass sends its commands in increasing LED order,
      so each LED's command comes out in the table's order. */
  lemma {:induction false} PassInOrder(us: seq<Updater>, cache: Cache, snap: Snapshot)
    requires IncreasingIds(us)
    ensures CommandsInIdOrder(PassCmds(us, cache, snap))
  {
    if us != [] {
      var next := StepCache(Id(us[0]), us[0].1, cache, snap);
      var head := StepCmds(Id(us[0]), us[0].1, cache, snap);
      var tail := PassCmds(us[1..], next, snap);
      assert IncreasingIds(us[1..]) by {
        forall i, j | 0 <= i < j < |us[1..]| ensures Id(us[1..][i]) < Id(us[1..][j]) {
          assert us[1..][i] == us[i + 1] && us[1..][j] == us[j + 1];
        }
      }
      PassInOrder(us[1..], next, snap);
      if head != [] {
        LaterIdsAbove(us);
        HeadBelowTail(head[0], tail);
        assert head == [head[0]];
      }
    }
  }

  /** A command below every command of an ordered list can go in front of it. */
  lemma HeadBelowTail(c: Command, tail: seq<Command>)
    requires CommandsInIdOrder(tail)
    requires forall d :: d in tail ==> c.ledId < d.ledId
    ensures CommandsInIdOrder([c] + tail)
  {
    var r := [c] + tail;
    forall i, j | 0 <= i < j < |r| ensures r[i].ledId < r[j].ledId {
      assert r[j] == tail[j - 1] && r[j] in tail;
      if i > 0 {
        assert r[i] == tail[i - 1];
      }
    }
  }

  // Idempotence.

  /** No updater of the list would write on this cache. */
  predicate Settled(us: seq<Updater>, cache: Cache, snap: Snapshot)
  {
    forall i :: 0 <= i < |us| ==> Decide(us[i].1, cache, Id(us[i]), snap).None?
  }

  /** A pass over a settled cache sends nothing and changes nothing. */
  lemma {:induction false} SettledPassIsSilent(us: seq<Updater>, cache: Cache, snap: Snapshot)
    requires Settled(us, cache, snap)
    ensures PassCmds(us, cache, snap) == [] && PassCache(us, cache, snap) == cache
  {
    if us != [] {
      assert Decide(us[0].1, cache, Id(us[0]), snap).None?;
      assert Settled(us[1..], cache, snap) by {
        forall i | 0 <= i < |us[1..]| ensures Decide(us[1..][i].1, cache, Id(us[1..][i]), snap).None? {
          assert us[1..][i] == us[i + 1];
        }
      }
      SettledPassIsSilent(us[1..], cache, snap);
    }
  }

  /** After one pass, no updater whose snapshot is not engaged and armed at
      once would write again: each of them has settled, whatever the
      approach and altitude LEDs do. */
  lemma {:induction false} PassSettles(us: seq<Updater>, cache: Cache, snap: Snapshot)
    requires IncreasingIds(us)
    ensures forall i :: 0 <= i < |us| && !Oscillating(us[i].1, snap) ==>
              Decide(us[i].1, PassCache(us, cache, snap), Id(us[i]), snap).None?
  {
    if us != [] {
      var led, rule := us[0].0, us[0].1;
      var next := StepCache(Value(led), rule, cache, snap);
      var after := PassCache(us[1..], next, snap);
      assert after == PassCache(us, cache, snap);
      PassSettles(us[1..], next, snap);
      if !Oscillating(rule, snap) {
        LaterIdsAbove(us);
        PassKeepsInactive(us[1..], next, snap, Value(led));
        DecideSettles(rule, cache, Value(led), snap);
        DecideReadsOwnEntry(rule, next, after, Value(led), snap);
      }
      forall i | 0 <= i < |us| && !Oscillating(us[i].1, snap)
        ensures Decide(us[i].1, after, Id(us[i]), snap).None?
      {
        if i > 0 {
          assert us[1..][i - 1] == us[i];
        }
      }
    }
  }

  /** The LEDs of the list whose updater would write on this cache. */
  function Unsettled(us: seq<Updater>, cache: Cache, snap: Snapshot): set<int>
  {
    set i | 0 <= i < |us| && Decide(us[i].1, cache, Id(us[i]), snap).Some? :: Id(us[i])
  }

  /** Two caches that agree outside a set of ids read the same outside it. */
  lemma GetOutside(a: Cache, b: Cache, s: set<int>, k: int)
    requires a - s == b - s && k !in s
    ensures Get(a, k) == Get(b, k)
  {
    assert (k in a) == (k in a - s) && (k in b) == (k in b - s);
    if k in a {
      assert a[k] == (a - s)[k] && b[k] == (b - s)[k];
    }
  }

  /** The tail of a list with increasing ids has increasing ids. */
  lemma TailIncreasing(us: seq<Updater>)
    requires us != [] && IncreasingIds(us)
    ensures IncreasingIds(us[1..])
  {
    forall i, j | 0 <= i < j < |us[1..]| ensures Id(us[1..][i]) < Id(us[1..][j]) {
      assert us[1..][i] == us[i + 1] && us[1..][j] == us[j + 1];
    }
  }

  /** The first updater's step does not unsettle any later updater. */
  lemma UnsettledTail(us: seq<Updater>, cache: Cache, snap: Snapshot)
    requires us != [] && IncreasingIds(us)
    ensures Unsettled(us[1..], StepCache(Id(us[0]), us[0].1, cache, snap), snap) <= Unsettled(us, cache, snap)
  {
    var tail, next := us[1..], StepCache(Id(us[0]), us[0].1, cache, snap);
    forall x | x in Unsettled(tail, next, snap) ensures x in Unsettled(us, cache, snap) {
      var j :| 0 <= j < |tail| && Decide(tail[j].1, next, Id(tail[j]), snap).Some? && Id(tail[j]) == x;
      assert tail[j] == us[j + 1];
      GetOutside(next, cache, {Id(us[0])}, x);
      DecideReadsOwnEntry(tail[j].1, next, cache, x, snap);
    }
  }

  /** With increasing ids, a pass sends commands only to the LEDs whose
      updater would write on the cache the pass starts from. */
  lemma {:induction false} PassCmdsUnsettled(us: seq<Updater>, cache: Cache, snap: Snapshot)
    requires IncreasingIds(us)
    ensures forall c :: c in PassCmds(us, cache, snap) ==> c.ledId in Unsettled(us, cache, snap)
  {
    if us != [] {
      var id0, rule0 := Id(us[0]), us[0].1;
      var next := StepCache(id0, rule0, cache, snap);
      TailIncreasing(us);
      PassCmdsUnsettled(us[1..], next, snap);
      UnsettledTail(us, cache, snap);
      if StepCmds(id0, rule0, cache, snap) != [] {
        assert Decide(rule0, cache, id0, snap).Some?;
        assert id0 in Unsettled(us, cache, snap);
      }
      assert PassCmds(us, cache, snap) == StepCmds(id0, rule0, cache, snap) + PassCmds(us[1..], next, snap);
    }
  }

  /** With increasing ids, every LED outside those the pass may write reads
      the same after the pass. */
  lemma {:induction false} PassCacheUnsettled(us: seq<Updater>, cache: Cache, snap: Snapshot)
    requires IncreasingIds(us)
    ensures forall k :: k !in Unsettled(us, cache, snap) ==>
              Get(PassCache(us, cache, snap), k) == Get(cache, k)
  {
    if us != [] {
      var id0, rule0 := Id(us[0]), us[0].1;
      var next := StepCache(id0, rule0, cache, snap);
      var u := Unsettled(us, cache, snap);
      TailIncreasing(us);
      PassCacheUnsettled(us[1..], next, snap);
      UnsettledTail(us, cache, snap);
      forall k | k !in u ensures Get(PassCache(us, cache, snap), k) == Get(cache, k) {
        if k == id0 {
          assert Decide(rule0, cache, id0, snap).None?;
        } else {
          GetOutside(next, cache, {id0}, k);
        }
      }
    }
  }

  /** With increasing ids, the updater at position k acts within the pass as
      it would on the cache the pass starts from. */
  lemma {:induction false} PassAt(us: seq<Updater>, cache: Cache, snap: Snapshot, k: nat)
    requires IncreasingIds(us) && k < |us|
    ensures forall c :: c in StepCmds(Id(us[k]), us[k].1, cache, snap) ==> c in PassCmds(us, cache, snap)
    ensures Get(PassCache(us, cache, snap), Id(us[k])) ==
            Get(StepCache(Id(us[k]), us[k].1, cache, snap), Id(us[k]))
  {
    var id0, tail := Id(us[0]), us[1..];
    var next := StepCache(id0, us[0].1, cache, snap);
    assert PassCmds(us, cache, snap) == StepCmds(id0, us[0].1, cache, snap) + PassCmds(tail, next, snap);
    if k == 0 {
      LaterIdsAbove(us);
      PassKeepsInactive(tail, next, snap, id0);
    } else {
      assert tail[k - 1] == us[k];
      TailIncreasing(us);
      PassAt(tail, next, snap, k - 1);
      var id := Id(us[k]);
      GetOutside(next, cache, {id0}, id);
      DecideReadsOwnEntry(us[k].1, next, cache, id, snap);
    }
  }

  /** The LEDs that never settle on this snapshot: the approach LED (13) when
      the approach is engaged and armed at once, the altitude LED (14) when
      the altitude is locked and armed at once. */
  function Restless(snap: Snapshot): set<int>
  {
    (if Oscillating(AprRule, snap) then {13} else {}) +
    (if Oscillating(AltRule, snap) then {14} else {})
  }

  /** An entry of the table whose snapshot oscillates is a restless LED. */
  lemma OscillatingIsRestless(snap: Snapshot, i: nat)
    requires i < |Updaters()| && Oscillating(Updaters()[i].1, snap)
    ensures Id(Updaters()[i]) in Restless(snap)
  {
    UpdaterIds();
    UpdaterApr();
  }

  /** After one pass, only restless LEDs would still be written. */
  lemma UnsettledAfterPass(cache: Cache, snap: Snapshot)
    ensures Unsettled(Updaters(), PassCache(Updaters(), cache, snap), snap) <= Restless(snap)
  {
    var us := Updaters();
    var first := PassCache(us, cache, snap);
    UpdatersIncreasing();
    PassSettles(us, cache, snap);
    forall x | x in Unsettled(us, first, snap) ensures x in Restless(snap) {
      var i :| 0 <= i < |us| && Decide(us[i].1, first, Id(us[i]), snap).Some? && Id(us[i]) == x;
      OscillatingIsRestless(snap, i);
    }
  }

  /** Idempotence: a second pass over an unchanged snapshot writes only the
      restless LEDs, and every other LED reads as the first pass left it.
      With no restless LED the second pass sends nothing and changes nothing. */
  lemma SecondPassSilent(cache: Cache, snap: Snapshot)
    ensures var first := PassCache(Updaters(), cache, snap);
            forall c :: c in PassCmds(Updaters(), first, snap) ==> c.ledId in Restless(snap)
    ensures var first := PassCache(Updaters(), cache, snap);
            forall k :: k !in Restless(snap) ==> Get(PassCache(Updaters(), first, snap), k) == Get(first, k)
    ensures Restless(snap) == {} ==>
              var first := PassCache(Updaters(), cache, snap);
              PassCmds(Updaters(), first, snap) == [] && PassCache(Updaters(), first, snap) == first
  {
    var us := Updaters();
    var first := PassCache(us, cache, snap);
    UpdatersIncreasing();
    UnsettledAfterPass(cache, snap);
    PassCmdsUnsettled(us, first, snap);
    PassCacheUnsettled(us, first, snap);
    if Restless(snap) == {} {
      forall i | 0 <= i < |us| ensures !Oscillating(us[i].1, snap) {
        if Oscillating(us[i].1, snap) {
          OscillatingIsRestless(snap, i);
        }
      }
      PassSettles(us, cache, snap);
      SettledPassIsSilent(us, first, snap);
    }
  }

  /** With the approach engaged and armed, every pass writes the approach LED:
      its entry changes to "on" (command on) or "flash" (command flashing). */
  lemma AprPassWrites(us: seq<Updater>, cache: Cache, snap: Snapshot, k: nat)
    requires IncreasingIds(us) && k < |us| && us[k].1 == AprRule && Oscillating(AprRule, snap)
    ensures var v := Get(PassCache(us, cache, snap), Id(us[k]));
            v != Get(cache, Id(us[k])) && (v == APR_ON || v == APR_FLASH) &&
            (v == APR_ON ==> SetLed(Id(us[k]), On) in PassCmds(us, cache, snap)) &&
            (v == APR_FLASH ==> SetLed(Id(us[k]), Flashing) in PassCmds(us, cache, snap))
  {
    PassAt(us, cache, snap, k);
    AprOscillates(Get(cache, Id(us[k])), AprFlagsOf(snap));
  }

  /** With the altitude locked and armed, every pass writes the altitude LED:
      its entry changes to "locked" (command on) or "armed" (command flashing). */
  lemma AltPassWrites(us: seq<Updater>, cache: Cache, snap: Snapshot, k: nat)
    requires IncreasingIds(us) && k < |us| && us[k].1 == AltRule && Oscillating(AltRule, snap)
    ensures var v := Get(PassCache(us, cache, snap), Id(us[k]));
            v != Get(cache, Id(us[k])) && (v == ALT_LOCKED || v == ALT_ARMED) &&
            (v == ALT_LOCKED ==> SetLed(Id(us[k]), On) in PassCmds(us, cache, snap)) &&
            (v == ALT_ARMED ==> SetLed(Id(us[k]), Flashing) in PassCmds(us, cache, snap))
  {
    PassAt(us, cache, snap, k);
    AltOscillates(AltKnown(cache, Id(us[k])));
  }

  /** The exception to idempotence: with the approach engaged and armed, two
      consecutive passes both write the approach LED, one "on" and the other
      flashing, and its cache entry goes "on", "flash" or "flash", "on". */
  lemma AprAlternates(cache: Cache, snap: Snapshot)
    requires Oscillating(AprRule, snap)
    ensures var first := PassCache(Updaters(), cache, snap);
            var second := PassCache(Updaters(), first, snap);
            {Get(first, 13), Get(second, 13)} == {APR_ON, APR_FLASH} &&
            (Get(first, 13) == APR_ON ==>
               SetLed(13, On) in PassCmds(Updaters(), cache, snap) &&
               SetLed(13, Flashing) in PassCmds(Updaters(), first, snap)) &&
            (Get(first, 13) == APR_FLASH ==>
               SetLed(13, Flashing) in PassCmds(Updaters(), cache, snap) &&
               SetLed(13, On) in PassCmds(Updaters(), first, snap))
  {
    UpdatersIncreasing();
    UpdaterApr();
    AprPassWrites(Updaters(), cache, snap, 3);
    AprPassWrites(Updaters(), PassCache(Updaters(), cache, snap), snap, 3);
  }

  /** The same for the altitude LED when locked and armed: "locked" (on) and
      "armed" (flashing) in turn. */
  lemma AltAlternates(cache: Cache, snap: Snapshot)
    requires Oscillating(AltRule, snap)
    ensures var first := PassCache(Updaters(), cache, snap);
            var second := PassCache(Updaters(), first, snap);
            {Get(first, 14), Get(second, 14)} == {ALT_LOCKED, ALT_ARMED} &&
            (Get(first, 14) == ALT_LOCKED ==>
               SetLed(14, On) in PassCmds(Updaters(), cache, snap) &&
               SetLed(14, Flashing) in PassCmds(Updaters(), first, snap)) &&
            (Get(first, 14) == ALT_ARMED ==>
               SetLed(14, Flashing) in PassCmds(Updaters(), cache, snap) &&
               SetLed(14, On) in PassCmds(Updaters(), first, snap))
  {
    UpdatersIncreasing();
    UpdaterApr();
    AltPassWrites(Updaters(), cache, snap, 4);
    AltPassWrites(Updaters(), PassCache(Updaters(), cache, snap), snap, 4);
  }

  // The bootstrap of `run_simconnect` and the first pass after it.

  /** The entries the bootstrap writes: 0 for every id of the table. */
  function ZeroCache(): (r: Cache)
    ensures forall k :: k in r <==> 10 <= k <= 21
    ensures forall k :: k in r ==> r[k] == PyInt(0)
  {
    IdRange();
    map k | k in LookupKeys() :: PyInt(0)
  }

  /** A snapshot that raises the rule: the variable of a two-state LED is
      positive, the approach is engaged, the altitude is locked. */
  predicate Raised(rule: Rule, snap: Snapshot)
  {
    match rule
    case BoolRule(a) => Flag(snap, a)
    case AprRule => AprEngaged(AprFlagsOf(snap))
    case AltRule => Flag(snap, "AUTOPILOT_ALTITUDE_LOCK")
    case NoopRule => true
  }

  /** A snapshot in which every flag the rule reads is 0 or missing. */
  predicate Clear(rule: Rule, snap: Snapshot)
  {
    match rule
    case BoolRule(a) => Read(snap, a) == 0
    case AprRule => !AprEngaged(AprFlagsOf(snap)) && !AprArmed(AprFlagsOf(snap))
    case AltRule => !Flag(snap, "AUTOPILOT_ALTITUDE_LOCK") && !Flag(snap, "AUTOPILOT_ALTITUDE_ARM")
    case NoopRule => true
  }

  /** The commands of a first pass over reset entries: with every rule
      raised, "on" for each LED that has a real updater; with every flag
      clear, only the approach LED's "off" (None and 0 are never "off" for
      it, while the two-state and altitude rules read 0 as already off). */
  function ResetPassCmds(us: seq<Updater>, raised: bool): seq<Command>
  {
    if us == [] then [] else ResetCmd(us[0], raised) + ResetPassCmds(us[1..], raised)
  }

  function ResetCmd(u: Updater, raised: bool): seq<Command>
  {
    if raised && !u.1.NoopRule? then [SetLed(Id(u), On)]
    else if !raised && u.1.AprRule? then [SetLed(Id(u), Off)]
    else []
  }

  lemma {:induction false} ResetPass(us: seq<Updater>, cache: Cache, snap: Snapshot, raised: bool)
    requires IncreasingIds(us)
    requires forall i :: 0 <= i < |us| ==> Get(cache, Id(us[i])) == PyInt(0)
    requires forall i :: 0 <= i < |us| ==> if raised then Raised(us[i].1, snap) else Clear(us[i].1, snap)
    ensures PassCmds(us, cache, snap) == ResetPassCmds(us, raised)
  {
    if us != [] {
      var id, rule := Id(us[0]), us[0].1;
      var next := StepCache(id, rule, cache, snap);
      assert if raised then Raised(rule, snap) else Clear(rule, snap);
      forall i | 0 <= i < |us[1..]| ensures Get(next, Id(us[1..][i])) == PyInt(0) {
        assert us[1..][i] == us[i + 1];
        var k := Id(us[i + 1]);
        assert k != id;
        assert (k in next) == (k in next - {id}) && (k in cache) == (k in cache - {id});
        if k in next {
          assert next[k] == (next - {id})[k] == (cache - {id})[k] == cache[k];
        }
      }
      forall i | 0 <= i < |us[1..]|
        ensures if raised then Raised(us[1..][i].1, snap) else Clear(us[1..][i].1, snap)
      {
        assert us[1..][i] == us[i + 1];
      }
      ResetPass(us[1..], next, snap, raised);
    }
  }

  /** With every rule raised, the reset commands are "on" for exactly the
      LEDs that have a real updater. */
  lemma {:induction false} ResetRaisedShape(us: seq<Updater>)
    ensures forall c :: c in ResetPassCmds(us, true) <==> c.kind == On && c.ledId in ActiveIds(us)
  {
    if us != [] {
      ResetRaisedShape(us[1..]);
    }
  }

  /** With every flag clear, a list without the approach updater sends nothing. */
  lemma {:induction false} ResetClearNone(vs: seq<Updater>)
    requires forall i :: 0 <= i < |vs| ==> !vs[i].1.AprRule?
    ensures ResetPassCmds(vs, false) == []
  {
    if vs != [] {
      assert forall i :: 0 <= i < |vs[1..]| ==> vs[1..][i] == vs[i + 1];
      ResetClearNone(vs[1..]);
    }
  }

  /** An updater other than the no-op one puts its LED in ActiveIds. */
  lemma {:induction false} ActiveIdsHas(us: seq<Updater>, i: nat)
    requires i < |us| && !us[i].1.NoopRule?
    ensures Id(us[i]) in ActiveIds(us)
  {
    if i > 0 {
      assert us[1..][i - 1] == us[i];
      ActiveIdsHas(us[1..], i - 1);
    }
  }

  /** The LEDs with a real updater are 10..21 except TRK (11) and VNAV (16). */
  lemma ActiveTable()
    ensures forall k :: k in ActiveIds(Updaters()) <==> 10 <= k <= 21 && k != 11 && k != 16
  {
    UpdaterIds();
    UpdaterNoops();
    forall k | k in ActiveIds(Updaters()) ensures 10 <= k <= 21 && k != 11 && k != 16 {
      ActiveIdsAmong(Updaters(), k);
    }
    forall k | 10 <= k <= 21 && k != 11 && k != 16 ensures k in ActiveIds(Updaters()) {
      ActiveIdsHas(Updaters(), k - 10);
    }
  }

  /** First pass completeness: after the bootstrap, a snapshot that raises
      every rule turns on each of the ten LEDs that have a real updater
      (10, 12..15, 17..21) and sends nothing else, one command per LED in
      id order. */
  lemma FirstPassRaised(before: Cache, snap: Snapshot)
    requires forall i :: 0 <= i < |Updaters()| ==> Raised(Updaters()[i].1, snap)
    ensures forall c :: c in PassCmds(Updaters(), before + ZeroCache(), snap) <==>
              c.kind == On && 10 <= c.ledId <= 21 && c.ledId != 11 && c.ledId != 16
    ensures CommandsInIdOrder(PassCmds(Updaters(), before + ZeroCache(), snap))
  {
    UpdatersIncreasing();
    UpdaterIds();
    var c := before + ZeroCache();
    forall i | 0 <= i < |Updaters()| ensures Get(c, Id(Updaters()[i])) == PyInt(0) {
      assert Id(Updaters()[i]) in ZeroCache();
    }
    ResetPass(Updaters(), c, snap, true);
    ResetRaisedShape(Updaters());
    ActiveTable();
    PassInOrder(Updaters(), c, snap);
  }

  /** With every flag clear, a list whose only approach updater sits at
      position k sends one command: "off" to that LED. */
  lemma {:induction false} ResetClearOne(vs: seq<Updater>, k: nat)
    requires k < |vs| && vs[k].1.AprRule?
    requires forall i :: 0 <= i < |vs| && i != k ==> !vs[i].1.AprRule?
    ensures ResetPassCmds(vs, false) == [SetLed(Id(vs[k]), Off)]
  {
    var tail := vs[1..];
    assert forall i :: 0 <= i < |tail| ==> tail[i] == vs[i + 1];
    if k == 0 {
      ResetClearNone(tail);
    } else {
      ResetClearOne(tail, k - 1);
    }
  }

  lemma ResetClearTable()
    ensures ResetPassCmds(Updaters(), false) == [SetLed(13, Off)]
  {
    UpdaterApr();
    ResetClearOne(Updaters(), 3);
  }

  /** After the bootstrap, a snapshot with every flag clear sends exactly one
      command: "off" to the approach LED. The two-state and altitude LEDs
      stay silent because 0 already reads as off for them. */
  lemma FirstPassClear(before: Cache, snap: Snapshot)
    requires forall i :: 0 <= i < |Updaters()| ==> Clear(Updaters()[i].1, snap)
    ensures PassCmds(Updaters(), before + ZeroCache(), snap) == [SetLed(13, Off)]
  {
    UpdatersIncreasing();
    UpdaterIds();
    var c := before + ZeroCache();
    forall i | 0 <= i < |Updaters()| ensures Get(c, Id(Updaters()[i])) == PyInt(0) {
      assert Id(Updaters()[i]) in ZeroCache();
    }
    ResetPass(Updaters(), c, snap, false);
    ResetClearTable();
  }

  // A session: one pass per snapshot, as `run_simconnect` loops until the
  // simulator quits.

  /** The commands of a session: at most one per updater and pass, and none
      for TRK or VNAV. */
  function SessionCmds(snaps: seq<Snapshot>, cache: Cache): (r: seq<Command>)
    ensures |r| <= |Updaters()| * |snaps|
    ensures forall c :: c in r ==> c.ledId in ActiveIds(Updaters())
  {
    if snaps == [] then []
    else PassCmds(Updaters(), cache, snaps[0]) +
         SessionCmds(snaps[1..], PassCache(Updaters(), cache, snaps[0]))
  }

  /** The cache after a session: only the entries of LEDs with a real
      updater can differ from where it started. */
  function SessionCache(snaps: seq<Snapshot>, cache: Cache): (r: Cache)
    ensures r - ActiveIds(Updaters()) == cache - ActiveIds(Updaters())
  {
    if snaps == [] then cache
    else SessionCache(snaps[1..], PassCache(Updaters(), cache, snaps[0]))
  }

  lemma SessionSuffix(snaps: seq<Snapshot>, n: nat, cache: Cache)
    requires n < |snaps|
    ensures var next := PassCache(Updaters(), cache, snaps[n]);
            SessionCmds(snaps[n..], cache) ==
              PassCmds(Updaters(), cache, snaps[n]) + SessionCmds(snaps[n + 1..], next) &&
            SessionCache(snaps[n..], cache) == SessionCache(snaps[n + 1..], next)
  {
    assert snaps[n..][0] == snaps[n] && snaps[n..][1..] == snaps[n + 1..];
  }

  lemma {:induction false} SettledSessionIsSilent(snaps: seq<Snapshot>, cache: Cache, snap: Snapshot)
    requires forall j :: 0 <= j < |snaps| ==> snaps[j] == snap
    requires Settled(Updaters(), cache, snap)
    ensures SessionCmds(snaps, cache) == [] && SessionCache(snaps, cache) == cache
  {
    if snaps != [] {
      assert snaps[0] == snap;
      SettledPassIsSilent(Updaters(), cache, snap);
      assert forall j :: 0 <= j < |snaps[1..]| ==> snaps[1..][j] == snaps[j + 1];
      SettledSessionIsSilent(snaps[1..], cache, snap);
    }
  }

  /** Every pass after the first over one snapshot writes only restless LEDs. */
  lemma {:induction false} LaterPassesRestless(snaps: seq<Snapshot>, cache: Cache, snap: Snapshot)
    requires forall j :: 0 <= j < |snaps| ==> snaps[j] == snap
    ensures forall c :: c in SessionCmds(snaps, PassCache(Updaters(), cache, snap)) ==> c.ledId in Restless(snap)
  {
    if snaps != [] {
      var first := PassCache(Updaters(), cache, snap);
      assert snaps[0] == snap;
      UpdatersIncreasing();
      UnsettledAfterPass(cache, snap);
      PassCmdsUnsettled(Updaters(), first, snap);
      assert forall j :: 0 <= j < |snaps[1..]| ==> snaps[1..][j] == snaps[j + 1];
      LaterPassesRestless(snaps[1..], first, snap);
    }
  }

  /** A steady snapshot: however many passes run over it, every command
      after the first pass's goes to a restless LED, so with neither the
      approach nor the altitude LED engaged and armed at once, only the first
      pass sends commands. */
  lemma SteadySession(snaps: seq<Snapshot>, cache: Cache, snap: Snapshot)
    requires |snaps| >= 1 && forall j :: 0 <= j < |snaps| ==> snaps[j] == snap
    ensures forall c :: c in SessionCmds(snaps, cache) ==>
              c in PassCmds(Updaters(), cache, snap) || c.ledId in Restless(snap)
    ensures Restless(snap) == {} ==> SessionCmds(snaps, cache) == PassCmds(Updaters(), cache, snap)
  {
    var first := PassCache(Updaters(), cache, snap);
    var later := SessionCmds(snaps[1..], first);
    assert snaps[0] == snap;
    assert SessionCmds(snaps, cache) == PassCmds(Updaters(), cache, snap) + later;
    assert forall j :: 0 <= j < |snaps[1..]| ==> snaps[1..][j] == snaps[j + 1];
    LaterPassesRestless(snaps[1..], cache, snap);
    NoCommandsFor(later, Restless(snap));
  }

  /** Commands that all go to LEDs of an empty set are no commands. */
  lemma NoCommandsFor(cmds: seq<Command>, ids: set<int>)
    requires forall c :: c in cmds ==> c.ledId in ids
    ensures ids == {} ==> cmds == []
  {
    if cmds != [] {
      assert cmds[0] in cmds;
    }
  }

  /** `KNOWN_LED_STATE` and the functions that read and update it. */
  class LedSync {
    var known: Cache

    /** The module-level dictionary starts empty. */
    constructor ()
      ensures known == map[]
    {
      known := map[];
    }

    /** `_set_bool_led`. */
    method SetBoolLed(ledId: int, simAttr: string, fsmga: VkbDevice, aircraftState: Snapshot)
      modifies this, fsmga
      ensures fsmga.log == old(fsmga.log) + StepCmds(ledId, BoolRule(simAttr), old(known), aircraftState)
      ensures known == StepCache(ledId, BoolRule(simAttr), old(known), aircraftState)
    {
      var knownState := Get(known, ledId);
      var simState := Read(aircraftState, simAttr);
      if simState > 0 && !Truthy(knownState) {
        fsmga.SetLedOn(ledId);
        known := known[ledId := PyInt(1)];
        return;
      }
      if simState == 0 && Truthy(knownState) {
        fsmga.SetLedOff(ledId);
        known := known[ledId := PyInt(0)];
      }
    }

    /** `led_update_noop` (also what `led_update_vnav` does): nothing. */
    method UpdateNoop(ledId: int, fsmga: VkbDevice, aircraftState: Snapshot)
      ensures fsmga.log == old(fsmga.log) && known == old(known)
    {
    }

    /** `led_update_apr`. */
    method UpdateApr(ledId: int, fsmga: VkbDevice, aircraftState: Snapshot)
      modifies this, fsmga
      ensures fsmga.log == old(fsmga.log) + StepCmds(ledId, AprRule, old(known), aircraftState)
      ensures known == StepCache(ledId, AprRule, old(known), aircraftState)
    {
      var knownState := Get(known, ledId);
      var aprArmed := Flag(aircraftState, "AUTOPILOT_APPROACH_ARM");
      var aprActive := Flag(aircraftState, "AUTOPILOT_APPROACH_ACTIVE");
      var aprCaptured := Flag(aircraftState, "AUTOPILOT_APPROACH_CAPTURED");
      var aprHold := Flag(aircraftState, "AUTOPILOT_APPROACH_HOLD");
      var gsArmed := Flag(aircraftState, "AUTOPILOT_GLIDESLOPE_ARM");
      var gsActive := Flag(aircraftState, "AUTOPILOT_GLIDESLOPE_ACTIVE");
      assert AprFlagsOf(aircraftState) == AprFlags(aprArmed, aprActive, aprCaptured, aprHold, gsArmed, gsActive);

      if (aprActive || aprCaptured || gsActive || aprHold) && knownState != APR_ON {
        fsmga.SetLedOn(ledId);
        known := known[ledId := APR_ON];
        return;
      }
      if (aprArmed || gsArmed) && knownState != APR_FLASH {
        fsmga.SetLedFlashing(ledId);
        known := known[ledId := APR_FLASH];
        return;
      }
      if !(aprArmed || aprActive || aprCaptured || aprHold || gsActive || gsArmed)
         && knownState != OFF_TAG {
        fsmga.SetLedOff(ledId);
        known := known[ledId := OFF_TAG];
      }
    }

    /** `led_update_alt`. */
    method UpdateAlt(ledId: int, fsmga: VkbDevice, aircraftState: Snapshot)
      modifies this, fsmga
      ensures fsmga.log == old(fsmga.log) + StepCmds(ledId, AltRule, old(known), aircraftState)
      ensures known == StepCache(ledId, AltRule, old(known), aircraftState)
    {
      var stored := if ledId in known then known[ledId] else OFF_TAG;
      var knownState := if Truthy(stored) then stored else OFF_TAG;
      var armed := Flag(aircraftState, "AUTOPILOT_ALTITUDE_ARM");
      var locked := Flag(aircraftState, "AUTOPILOT_ALTITUDE_LOCK");

      if locked && knownState != ALT_LOCKED {
        fsmga.SetLedOn(ledId);
        known := known[ledId := ALT_LOCKED];
        return;
      }
      if armed && knownState != ALT_ARMED {
        fsmga.SetLedFlashing(ledId);
        known := known[ledId := ALT_ARMED];
        return;
      }
      if !locked && !armed && knownState != OFF_TAG {
        fsmga.SetLedOff(ledId);
        known := known[ledId := OFF_TAG];
      }
    }

    /** Calls the updater function of one `LED_UPDATER_MAP` entry. */
    method Update(ledId: int, rule: Rule, fsmga: VkbDevice, aircraftState: Snapshot)
      modifies this, fsmga
      ensures fsmga.log == old(fsmga.log) + StepCmds(ledId, rule, old(known), aircraftState)
      ensures known == StepCache(ledId, rule, old(known), aircraftState)
    {
      match rule
      case BoolRule(attr) => SetBoolLed(ledId, attr, fsmga, aircraftState);
      case AprRule => UpdateApr(ledId, fsmga, aircraftState);
      case AltRule => UpdateAlt(ledId, fsmga, aircraftState);
      case NoopRule => UpdateNoop(ledId, fsmga, aircraftState);
    }

    /** `led_update_loop`: every entry of `LED_UPDATER_MAP` in order. */
    method UpdateLoop(fsmga: VkbDevice, aircraftState: Snapshot)
      modifies this, fsmga
      ensures fsmga.log == old(fsmga.log) + PassCmds(Updaters(), old(known), aircraftState)
      ensures known == PassCache(Updaters(), old(known), aircraftState)
    {
      var us := Updaters();
      for i := 0 to |us|
        invariant fsmga.log + PassCmds(us[i..], known, aircraftState) ==
                  old(fsmga.log) + PassCmds(us, old(known), aircraftState)
        invariant PassCache(us[i..], known, aircraftState) == PassCache(us, old(known), aircraftState)
      {
        PassSuffix(us, i, known, aircraftState);
        AppendAssoc(fsmga.log, StepCmds(Id(us[i]), us[i].1, known, aircraftState),
                    PassCmds(us[i + 1..], StepCache(Id(us[i]), us[i].1, known, aircraftState), aircraftState));
        Update(Id(us[i]), us[i].1, fsmga, aircraftState);
      }
    }

    /** The start of `run_simconnect` after the device is found: every LED
        off, then every id of the table cached as 0. */
    method Bootstrap(fsmga: VkbDevice)
      modifies this, fsmga
      ensures fsmga.log == old(fsmga.log) + AllOffCmds()
      ensures known == old(known) + ZeroCache()
    {
      fsmga.AllLedsOff();
      MarkAllOff();
    }

    /** "Mark all LEDs as known to be off": 0 for every key of the table. */
    method MarkAllOff()
      modifies this
      ensures known == old(known) + ZeroCache()
    {
      MarkOff(LookupKeys());
      IdRange();
    }

    /** The loop of MarkAllOff over a list of ids. */
    method MarkOff(keys: seq<int>)
      modifies this
      ensures known == old(known) + map k | k in keys :: PyInt(0)
    {
      for i := 0 to |keys|
        invariant known == old(known) + map k | k in keys[..i] :: PyInt(0)
      {
        assert keys[..i + 1] == keys[..i] + [keys[i]];
        known := known[keys[i] := PyInt(0)];
      }
      assert keys[..|keys|] == keys;
    }

    /** The `while not sim.quit` loop of `run_simconnect`, one pass per
        snapshot until the simulator quits. */
    method RunPasses(fsmga: VkbDevice, snapshots: seq<Snapshot>)
      modifies this, fsmga
      ensures fsmga.log == old(fsmga.log) + SessionCmds(snapshots, old(known))
      ensures known == SessionCache(snapshots, old(known))
    {
      var n := 0;
      while n < |snapshots|
        invariant 0 <= n <= |snapshots|
        invariant fsmga.log + SessionCmds(snapshots[n..], known) ==
                  old(fsmga.log) + SessionCmds(snapshots, old(known))
        invariant SessionCache(snapshots[n..], known) == SessionCache(snapshots, old(known))
      {
        SessionSuffix(snapshots, n, known);
        AppendAssoc(fsmga.log, PassCmds(Updaters(), known, snapshots[n]),
                    SessionCmds(snapshots[n + 1..], PassCache(Updaters(), known, snapshots[n])));
        UpdateLoop(fsmga, snapshots[n]);
        n := n + 1;
      }
    }

    /** `run_simconnect` with the simulator's run given as the snapshots of
        its passes: find the device (an error ends it before anything is
        sent), bootstrap, then one `led_update_loop` per snapshot. */
    method RunSimConnect(devices: seq<VkbDevice>, snapshots: seq<Snapshot>) returns (r: Result<VkbDevice>)
      modifies this, set d | d in devices
      ensures r == GetFsmga(devices)
      ensures r.Err? ==> known == old(known) && forall d :: d in devices ==> d.log == old(d.log)
      ensures r.Ok? ==>
                r.value.log == old(r.value.log) + AllOffCmds() + SessionCmds(snapshots, old(known) + ZeroCache())
      ensures r.Ok? ==> known == SessionCache(snapshots, old(known) + ZeroCache())
      ensures r.Ok? ==> forall d :: d in devices && d != r.value ==> d.log == old(d.log)
    {
      r := GetFsmga(devices);
      if r.Err? {
        return;
      }
      var fsmga := r.value;
      Bootstrap(fsmga);
      RunPasses(fsmga, snapshots);
    }
  }
}
