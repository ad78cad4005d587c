/** The self-test entry point `perform_self_test`: find the device, turn
    every LED off, then fast-flash each LED and turn it off again, in
    ascending id order. It never touches the LED cache. */
module SelfTest {
  import opened Leds
  import opened Device

  /** For each entry in turn: fast-flash its LED, then turn it off. */
  function FlashThenOff(items: seq<(int, string)>): (r: seq<Command>)
    ensures |r| == 2 * |items|
  {
    if items == [] then []
    else [SetLed(items[0].0, FastFlash), SetLed(items[0].0, Off)] + FlashThenOff(items[1..])
  }

  /** The commands for entry i sit at positions 2i and 2i + 1. */
  lemma {:induction false} FlashAt(items: seq<(int, string)>, i: nat)
    requires i < |items|
    ensures FlashThenOff(items)[2 * i] == SetLed(items[i].0, FastFlash)
    ensures FlashThenOff(items)[2 * i + 1] == SetLed(items[i].0, Off)
  {
    if i > 0 {
      FlashAt(items[1..], i - 1);
      assert items[1..][i - 1] == items[i];
    }
  }

  /** Handling one more entry appends its two commands. */
  lemma {:induction false} FlashSnoc(items: seq<(int, string)>, x: (int, string))
    ensures FlashThenOff(items + [x]) == FlashThenOff(items) + [SetLed(x.0, FastFlash), SetLed(x.0, Off)]
  {
    if items == [] {
      assert [] + [x] == [x];
    } else {
      assert (items + [x])[1..] == items[1..] + [x];
      FlashSnoc(items[1..], x);
    }
  }

  /** Every command the self-test sends, in order: all off, then the
      table's entries in its own order, which is ascending id order. */
  function SelfTestCmds(): (r: seq<Command>)
    ensures |r| == 3 * |LookupLedById()|
  {
    AllOffCmds() + FlashThenOff(LookupLedById())
  }

  /** The self-test trace: twelve bare `#000` commands for 10..21, then for
      each id from 10 up a fast flash followed by an off. */
  lemma SelfTestTrace()
    ensures |SelfTestCmds()| == 36
    ensures forall i :: 0 <= i < 12 ==> SelfTestCmds()[i] == SetLed(10 + i, BareOff)
    ensures forall i :: 0 <= i < 12 ==>
              SelfTestCmds()[12 + 2 * i] == SetLed(10 + i, FastFlash) &&
              SelfTestCmds()[13 + 2 * i] == SetLed(10 + i, Off)
  {
    var items := LookupLedById();
    var offs, flashes := AllOffCmds(), FlashThenOff(items);
    LookupNames();
    forall i | 0 <= i < 12
      ensures (offs + flashes)[12 + 2 * i] == SetLed(10 + i, FastFlash)
      ensures (offs + flashes)[13 + 2 * i] == SetLed(10 + i, Off)
    {
      FlashAt(items, i);
      assert (offs + flashes)[12 + 2 * i] == flashes[2 * i];
      assert (offs + flashes)[13 + 2 * i] == flashes[2 * i + 1];
    }
  }

  /** The loop of `perform_self_test` over the sorted table entries. */
  method FlashEach(fsmga: VkbDevice, items: seq<(int, string)>)
    modifies fsmga
    ensures fsmga.log == old(fsmga.log) + FlashThenOff(items)
  {
    for i := 0 to |items|
      invariant fsmga.log == old(fsmga.log) + FlashThenOff(items[..i])
    {
      var ledId := items[i].0;
      assert items[..i + 1] == items[..i] + [items[i]];
      FlashSnoc(items[..i], items[i]);
      fsmga.FlashLed(ledId);
      fsmga.SetLedOff(ledId);
    }
    assert items[..|items|] == items;
  }

  /** The commands `perform_self_test` sends to the device it found. */
  method SendSelfTest(fsmga: VkbDevice)
    modifies fsmga
    ensures fsmga.log == old(fsmga.log) + SelfTestCmds()
  {
    ghost var before := fsmga.log;
    fsmga.AllLedsOff();
    var items := SortByKey(LookupLedById());
    SortedLookupIsLookup();
    FlashEach(fsmga, items);
    AppendAssoc(before, AllOffCmds(), FlashThenOff(items));
  }

  /** `perform_self_test`: a device selection error ends it before anything
      is sent; otherwise the selected device receives the self-test trace
      and no other device receives anything. */
  method PerformSelfTest(devices: seq<VkbDevice>) returns (r: Result<VkbDevice>)
    modifies set d | d in devices
    ensures r == GetFsmga(devices)
    ensures r.Err? ==> forall d :: d in devices ==> d.log == old(d.log)
    ensures r.Ok? ==> r.value.log == old(r.value.log) + SelfTestCmds()
    ensures r.Ok? ==> forall d :: d in devices && d != r.value ==> d.log == old(d.log)
  {
    r := GetFsmga(devices);
    if r.Ok? {
      SendSelfTest(r.value);
    }
  }
}
