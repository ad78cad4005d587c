/** The VKB device as the LED engine sees it: a log of the LED commands it has
    been sent, the `FSMGADevice` helpers that issue them, and the device
    selection rule `get_fsmga`. */
module Device {
  import opened Leds

  /** `FSM_GA_PID`: the product id of the FSM-GA panel. */
  const FSM_GA_PID := 0x2220

  /** The five distinct LED commands the program issues. */
  datatype CommandKind =
    | On          // `set_led_on`: #0f0, one colour, constant
    | Flashing    // `set_led_flashing`: #030 and #f00, two colours, slow blink
    | Off         // `set_led_off`: #000, one colour, constant
    | FastFlash   // `flash_led`: #f00, one colour, fast blink
    | BareOff     // `set_led(id, "#000")` with the library's default modes

  /** One `set_led` call on one LED. */
  datatype Command = SetLed(ledId: int, kind: CommandKind)

  /** Blink patterns; the library's defaults are not part of this model. */
  datatype Pattern = Constant | SlowBlink | FastBlink | LibraryDefault

  /** The first colour argument of each command. A command darkens its LED
      exactly when it is one of the two off commands. */
  function PrimaryColor(k: CommandKind): (c: string)
    ensures c == "#000" <==> k == Off || k == BareOff
  {
    match k
    case On => "#0f0"
    case Flashing => "#030"
    case Off => "#000"
    case FastFlash => "#f00"
    case BareOff => "#000"
  }

  /** The `led_mode` argument of each command. Only the flashing and the
      self-test command blink, slowly and fast respectively. */
  function PatternOf(k: CommandKind): (p: Pattern)
    ensures (p == SlowBlink <==> k == Flashing) && (p == FastBlink <==> k == FastFlash)
  {
    match k
    case On => Constant
    case Flashing => SlowBlink
    case Off => Constant
    case FastFlash => FastBlink
    case BareOff => LibraryDefault
  }

  /** The `color2` argument: only the flashing command is two-tone. */
  function SecondaryColor(k: CommandKind): (c: string)
    ensures c != "" <==> k == Flashing
  {
    if k == Flashing then "#f00" else ""
  }

  /** One bare `#000` command per id, in the given order. */
  function BareOffAll(ids: seq<int>): (r: seq<Command>)
    ensures |r| == |ids|
    ensures forall i :: 0 <= i < |ids| ==> r[i] == SetLed(ids[i], BareOff)
  {
    if ids == [] then [] else [SetLed(ids[0], BareOff)] + BareOffAll(ids[1..])
  }

  /** The commands `all_leds_off` sends: one bare `#000` per key of
      `LOOKUP_LED_BY_ID`, that is for 10, 11, ..., 21 in turn. */
  function AllOffCmds(): (r: seq<Command>)
    ensures |r| == 12
    ensures forall i :: 0 <= i < 12 ==> r[i] == SetLed(10 + i, BareOff)
  {
    IdRange();
    BareOffAll(LookupKeys())
  }

  /** A VKB device found on the bus. `FSMGADevice`'s LED helpers are methods
      here; `log` is every command the device has received, oldest first. */
  class VkbDevice {
    const productId: int
    var log: seq<Command>

    constructor (productId: int)
      ensures this.productId == productId && log == []
    {
      this.productId := productId;
      log := [];
    }

    method SetLedOn(ledId: int)
      modifies this
      ensures log == old(log) + [SetLed(ledId, On)]
    {
      log := log + [SetLed(ledId, On)];
    }

    method SetLedFlashing(ledId: int)
      modifies this
      ensures log == old(log) + [SetLed(ledId, Flashing)]
    {
      log := log + [SetLed(ledId, Flashing)];
    }

    method SetLedOff(ledId: int)
      modifies this
      ensures log == old(log) + [SetLed(ledId, Off)]
    {
      log := log + [SetLed(ledId, Off)];
    }

    method FlashLed(ledId: int)
      modifies this
      ensures log == old(log) + [SetLed(ledId, FastFlash)]
    {
      log := log + [SetLed(ledId, FastFlash)];
    }

    /** Sends the bare `#000` command to every LED of the table, in order. */
    method AllLedsOff()
      modifies this
      ensures log == old(log) + AllOffCmds()
    {
      BareOffEach(LookupKeys());
    }

    /** The loop of AllLedsOff over a list of ids. */
    method BareOffEach(ids: seq<int>)
      modifies this
      ensures log == old(log) + BareOffAll(ids)
    {
      for i := 0 to |ids|
        invariant log == old(log) + BareOffAll(ids)[..i]
      {
        assert BareOffAll(ids)[..i + 1] == BareOffAll(ids)[..i] + [SetLed(ids[i], BareOff)];
        log := log + [SetLed(ids[i], BareOff)];
      }
      assert BareOffAll(ids)[..|ids|] == BareOffAll(ids);
    }
  }

  /** Appending to a log in two steps is appending the two parts at once. */
  lemma AppendAssoc<T>(a: seq<T>, b: seq<T>, c: seq<T>)
    ensures (a + b) + c == a + (b + c)
  {
  }

  // Device selection.

  datatype DeviceError = MultipleDevices | DeviceNotFound

  datatype Result<T> = Ok(value: T) | Err(error: DeviceError)

  predicate IsFsmGa(d: VkbDevice)
  {
    d.productId == FSM_GA_PID
  }

  /** The list comprehension of `get_fsmga`: the FSM-GA devices of the list, in order. */
  function FsmGaDevices(devices: seq<VkbDevice>): (r: seq<VkbDevice>)
    ensures |r| <= |devices|
    ensures forall d :: d in r ==> d in devices && IsFsmGa(d)
    ensures forall i :: 0 <= i < |devices| && IsFsmGa(devices[i]) ==> devices[i] in r
  {
    if devices == [] then []
    else (if IsFsmGa(devices[0]) then [devices[0]] else []) + FsmGaDevices(devices[1..])
  }

  /** No device of the list is an FSM-GA exactly when the filtered list is empty. */
  lemma NoneFiltered(devices: seq<VkbDevice>)
    ensures FsmGaDevices(devices) == [] <==>
            forall i :: 0 <= i < |devices| ==> !IsFsmGa(devices[i])
  {
  }

  /** Two FSM-GA positions in the list leave two devices after the filter. */
  lemma {:induction false} TwoPositionsFiltered(devices: seq<VkbDevice>, i: nat, j: nat)
    requires i < j < |devices| && IsFsmGa(devices[i]) && IsFsmGa(devices[j])
    ensures |FsmGaDevices(devices)| >= 2
  {
    var tail := devices[1..];
    assert tail[j - 1] == devices[j];
    if i == 0 {
      assert devices[j] in FsmGaDevices(tail);
    } else {
      TwoPositionsFiltered(tail, i - 1, j - 1);
    }
  }

  /** Two devices left after the filter come from two FSM-GA positions. */
  lemma {:induction false} FilteredPositions(devices: seq<VkbDevice>)
    requires |FsmGaDevices(devices)| >= 2
    ensures exists i, j :: 0 <= i < j < |devices| && IsFsmGa(devices[i]) && IsFsmGa(devices[j])
  {
    var tail := devices[1..];
    var rest := FsmGaDevices(tail);
    if IsFsmGa(devices[0]) {
      assert FsmGaDevices(devices) == [devices[0]] + rest;
      assert rest[0] in rest;
      var j :| 0 <= j < |tail| && tail[j] == rest[0];
      assert IsFsmGa(devices[j + 1]);
    } else {
      assert FsmGaDevices(devices) == rest;
      FilteredPositions(tail);
      var i, j :| 0 <= i < j < |tail| && IsFsmGa(tail[i]) && IsFsmGa(tail[j]);
      assert IsFsmGa(devices[i + 1]) && IsFsmGa(devices[j + 1]);
    }
  }

  /** Two or more devices survive the filter exactly when two positions of
      the list hold FSM-GA devices. */
  lemma SeveralFiltered(devices: seq<VkbDevice>)
    ensures |FsmGaDevices(devices)| >= 2 <==>
            exists i, j :: 0 <= i < j < |devices| && IsFsmGa(devices[i]) && IsFsmGa(devices[j])
  {
    if exists i, j :: 0 <= i < j < |devices| && IsFsmGa(devices[i]) && IsFsmGa(devices[j]) {
      var i, j :| 0 <= i < j < |devices| && IsFsmGa(devices[i]) && IsFsmGa(devices[j]);
      TwoPositionsFiltered(devices, i, j);
    }
    if |FsmGaDevices(devices)| >= 2 {
      FilteredPositions(devices);
    }
  }

  /** `get_fsmga`: the one FSM-GA device of the list. More than one is refused
      first; none is refused next. */
  function GetFsmga(devices: seq<VkbDevice>): (r: Result<VkbDevice>)
    ensures r == Err(MultipleDevices) <==>
            exists i, j :: 0 <= i < j < |devices| && IsFsmGa(devices[i]) && IsFsmGa(devices[j])
    ensures r == Err(DeviceNotFound) <==>
            forall i :: 0 <= i < |devices| ==> !IsFsmGa(devices[i])
    ensures r.Ok? ==> IsFsmGa(r.value) && exists i :: 0 <= i < |devices| && devices[i] == r.value
    ensures r.Ok? ==> forall i :: 0 <= i < |devices| && IsFsmGa(devices[i]) ==> devices[i] == r.value
  {
    var filtered := FsmGaDevices(devices);
    SeveralFiltered(devices);
    NoneFiltered(devices);
    if |filtered| > 1 then Err(MultipleDevices)
    else if filtered == [] then Err(DeviceNotFound)
    else
      assert filtered[0] in filtered;
      Ok(filtered[0])
  }
}
