/**
 * The decisions `CoyoteInterface` (toys/estim/coyote/dg_interface.py) makes, stated as functions
 * so that their properties can be proved once and used by the methods of the class in coyote.dfy.
 */
module CoyoteRules {
  import opened Wrappers
  import opened Codec
  import opened Bleak
  import Estim

  /** The exceptions that leave the interface's methods. */
  datatype Error =
    | ConnectionError              // the class `ConnectionError`, raised when connect made no attempt
    | LinkFault(code: int)         // an exception raised by the BLE stack
    | NoCharacteristic             // a characteristic slot that is still None was used
    | BadBatteryReading            // `int('', 16)` on an empty battery read
    | UnknownPattern(name: string) // `KeyError` on the pattern table
    | NotAFrame                    // a pattern state that does not unpack into (ax, ay, az)
    | NoBluetoothDevices           // `RuntimeError`: the scan found no device at all
    | CoyoteNotFound               // `RuntimeError`: no device advertised the Coyote's name

  /** The exceptions connect raises: a failed connection, or a failure of its self-test. */
  predicate ConnectFault(e: Error)
  {
    e.ConnectionError? || e.LinkFault? || e.NoCharacteristic? || e.BadBatteryReading?
  }

  // ---------------------------------------------------------------------------------------------
  // set_pwm
  // ---------------------------------------------------------------------------------------------

  /** The safe-mode cap (768 of 2047, 37.5 %) and the full range. */
  const SafeCap: int := 768
  const FullCap: int := 2047
  /** Changes smaller than this on both channels are not sent. */
  const Hysteresis: int := 10

  function Abs(x: int): int { if x < 0 then -x else x }

  function Cap(safeMode: bool): int { if safeMode then SafeCap else FullCap }

  /** A negative request means "keep the channel's current power". */
  function Resolve(request: int, current: int): int { if request < 0 then current else request }

  /** What set_pwm does: nothing, store and reject, or store and send. */
  datatype PwmPlan = Unchanged | Rejected(a: int, b: int) | Send(a: int, b: int)

  function PlanPwm(curA: int, curB: int, reqA: int, reqB: int, safeMode: bool): PwmPlan
  {
    var a := Resolve(reqA, curA);
    var b := Resolve(reqB, curB);
    if Abs(a - curA) < Hysteresis && Abs(b - curB) < Hysteresis then Unchanged
    else if 0 <= a <= Cap(safeMode) && 0 <= b <= Cap(safeMode) then Send(a, b)
    else Rejected(a, b)
  }

  /**
   * The hysteresis guard, both directions: set_pwm does nothing exactly when neither resolved
   * power moves by 10 or more; otherwise the resolved powers become the stored ones, accepted or not.
   */
  lemma PlanPwmHysteresis(curA: int, curB: int, reqA: int, reqB: int, safeMode: bool)
    ensures var p := PlanPwm(curA, curB, reqA, reqB, safeMode);
            p.Unchanged? <==> (Abs(Resolve(reqA, curA) - curA) < 10 && Abs(Resolve(reqB, curB) - curB) < 10)
    ensures var p := PlanPwm(curA, curB, reqA, reqB, safeMode);
            !p.Unchanged? ==> p.a == Resolve(reqA, curA) && p.b == Resolve(reqB, curB)
  {
  }

  /**
   * The request stop makes, zero on both channels, is dropped exactly when both powers already
   * lie within 10 of zero; otherwise it is always sent, zero being within every cap.
   */
  lemma StopPlan(curA: int, curB: int, safeMode: bool)
    ensures PlanPwm(curA, curB, 0, 0, safeMode)
            == if Abs(curA) < Hysteresis && Abs(curB) < Hysteresis then Unchanged else Send(0, 0)
  {
  }

  /** Both sentinels (or any negative pair) leave everything as it is. */
  lemma PlanPwmKeepBoth(curA: int, curB: int, reqA: int, reqB: int, safeMode: bool)
    requires reqA < 0 && reqB < 0
    ensures PlanPwm(curA, curB, reqA, reqB, safeMode) == Unchanged
  {
  }

  /**
   * The range gate: a plan sends exactly when both resolved powers lie in 0..768 (safe mode) or
   * 0..2047, and what it sends decodes back to those powers, so no write ever exceeds the cap.
   */
  lemma PlanPwmSendsOnlyInRange(curA: int, curB: int, reqA: int, reqB: int, safeMode: bool)
    requires !PlanPwm(curA, curB, reqA, reqB, safeMode).Unchanged?
    ensures var p := PlanPwm(curA, curB, reqA, reqB, safeMode);
            p.Send? <==> (0 <= p.a <= Cap(safeMode) && 0 <= p.b <= Cap(safeMode))
    ensures var p := PlanPwm(curA, curB, reqA, reqB, safeMode);
            p.Send? ==> (&& PowerA(EncodePower(p.a, p.b)) == p.a <= Cap(safeMode)
                         && PowerB(EncodePower(p.a, p.b)) == p.b <= Cap(safeMode))
  {
    var p := PlanPwm(curA, curB, reqA, reqB, safeMode);
    if p.Send? {
      EncodePowerRoundTrip(p.a, p.b);
    }
  }

  /** After set_pwm(100, 100), set_pwm(105, 105) sends nothing. */
  lemma SmallStepIsDropped(safeMode: bool)
    ensures PlanPwm(1, 1, 100, 100, safeMode) == Send(100, 100)
    ensures PlanPwm(100, 100, 105, 105, safeMode) == Unchanged
  {
  }

  /** set_pwm(900, 0) is rejected in safe mode and sent otherwise. */
  lemma SafeModeRejects900(curA: int, curB: int)
    requires 0 <= curA <= 768 && 0 <= curB <= 768
    ensures PlanPwm(curA, curB, 900, 0, true) == Rejected(900, 0)
    ensures PlanPwm(curA, curB, 900, 0, false) == Send(900, 0)
  {
  }

  // ---------------------------------------------------------------------------------------------
  // connect: bounded retries
  // ---------------------------------------------------------------------------------------------

  /** Attempts made, whether one succeeded, and the exception connect would raise otherwise. */
  datatype Attempts = Attempts(made: nat, connected: bool, saved: Error)

  /**
   * The retry loop of connect, from the attempt numbered `next`: try at most `retries` times, stop
   * at the first success, and remember the exception of the latest failure.
   */
  function Retry(replies: nat -> ConnectReply, next: nat, retries: int, saved: Error): Attempts
    decreases if retries < 0 then 0 else retries
  {
    if retries <= 0 then Attempts(0, false, saved)
    else match replies(next)
      case Accepted => Attempts(1, true, saved)
      case Refused(code) =>
        var rest := Retry(replies, next + 1, retries - 1, LinkFault(code));
        Attempts(rest.made + 1, rest.connected, rest.saved)
  }

  /** The number of failed attempts, each of which doubles the timeout. */
  function Failures(r: Attempts): nat
  {
    if r.connected && r.made > 0 then r.made - 1 else r.made
  }

  /** 2^n. */
  function Pow2(n: nat): nat
  {
    if n == 0 then 1 else 2 * Pow2(n - 1)
  }

  /** One more failed attempt doubles a timeout that has been doubled `n` times already. */
  lemma Redouble(t: int, n: nat)
    ensures t * Pow2(n) * 2 == t * Pow2(n + 1)
  {
    assert Pow2(n + 1) == Pow2(n) * 2;
  }

  /**
   * Retry makes at most `retries` attempts and stops at the first success: it connects exactly
   * when one of the next `retries` answers accepts, the last attempt made is that first
   * acceptance, and every earlier attempt failed.
   */
  lemma {:induction false} RetryStopsAtFirstSuccess(replies: nat -> ConnectReply, next: nat, retries: int, saved: Error)
    ensures var r := Retry(replies, next, retries, saved);
            r.made <= (if retries < 0 then 0 else retries) && (r.made == 0 <==> retries <= 0)
    ensures var r := Retry(replies, next, retries, saved);
            r.connected <==> exists i: nat :: next <= i < next + retries && replies(i).Accepted?
    ensures var r := Retry(replies, next, retries, saved);
            r.connected ==> (&& replies(next + r.made - 1).Accepted?
                             && forall i: nat :: next <= i < next + r.made - 1 ==> replies(i).Refused?)
    decreases if retries < 0 then 0 else retries
  {
    if retries > 0 && replies(next).Refused? {
      RetryStopsAtFirstSuccess(replies, next + 1, retries - 1, LinkFault(replies(next).code));
    }
  }

  /**
   * When every attempt fails, all `retries` attempts are made and the exception raised is the
   * last one caught; with no attempt at all it is the initial ConnectionError.
   */
  lemma {:induction false} RetryRaisesLastFailure(replies: nat -> ConnectReply, next: nat, retries: int, saved: Error)
    requires !Retry(replies, next, retries, saved).connected
    ensures var r := Retry(replies, next, retries, saved);
            r.made == (if retries < 0 then 0 else retries)
    ensures retries <= 0 ==> Retry(replies, next, retries, saved).saved == saved
    ensures retries > 0 ==> (&& replies(next + retries - 1).Refused?
                             && Retry(replies, next, retries, saved).saved == LinkFault(replies(next + retries - 1).code))
    decreases if retries < 0 then 0 else retries
  {
    if retries > 0 {
      assert replies(next).Refused?;
      RetryRaisesLastFailure(replies, next + 1, retries - 1, LinkFault(replies(next).code));
    }
  }

  // ---------------------------------------------------------------------------------------------
  // connect: binding characteristics to the five slots
  // ---------------------------------------------------------------------------------------------

  /** The five characteristic slots of the interface, None until connect binds them. */
  datatype Slots = Slots(battery: Option<Uuid>, config: Option<Uuid>, pwmAB2: Option<Uuid>,
                         pwmA34: Option<Uuid>, pwmB34: Option<Uuid>)

  datatype SlotName = BatterySlot | ConfigSlot | PwmAB2Slot | PwmA34Slot | PwmB34Slot

  function SlotOf(s: Slots, n: SlotName): Option<Uuid>
  {
    match n
    case BatterySlot => s.battery
    case ConfigSlot => s.config
    case PwmAB2Slot => s.pwmAB2
    case PwmA34Slot => s.pwmA34
    case PwmB34Slot => s.pwmB34
  }

  /** What one characteristic `c` of a service `service` does to the slots (the body of the inner loop). */
  function BindOne(s: Slots, service: Uuid, c: Uuid, switched: bool): Slots
  {
    if service == BatteryServiceUuid then
      if c == BatteryLevelUuid then s.(battery := Some(c)) else s
    else if service == PowerServiceUuid then
      if c == PwmAB2Uuid then s.(pwmAB2 := Some(c))
      else if c == PwmA34Uuid then (if switched then s.(pwmB34 := Some(c)) else s.(pwmA34 := Some(c)))
      else if c == PwmB34Uuid then (if switched then s.(pwmA34 := Some(c)) else s.(pwmB34 := Some(c)))
      else if c == ConfigUuid then s.(config := Some(c))
      else s
    else s
  }

  function BindService(s: Slots, service: Uuid, cs: seq<Uuid>, switched: bool): Slots
  {
    if cs == [] then s
    else BindOne(BindService(s, service, cs[..|cs| - 1], switched), service, cs[|cs| - 1], switched)
  }

  function BindServices(s: Slots, services: seq<Service>, switched: bool): Slots
  {
    if services == [] then s
    else
      var last := services[|services| - 1];
      BindService(BindServices(s, services[..|services| - 1], switched), last.uuid, last.characteristics, switched)
  }

  /**
   * The characteristic each slot is bound to: channel A's data slot gets PWM_B34 (…1506) and
   * channel B's gets PWM_A34 (…1505) when the channels are switched, the official names otherwise.
   */
  function Wanted(n: SlotName, switched: bool): (Uuid, Uuid)
  {
    match n
    case BatterySlot => (BatteryServiceUuid, BatteryLevelUuid)
    case ConfigSlot => (PowerServiceUuid, ConfigUuid)
    case PwmAB2Slot => (PowerServiceUuid, PwmAB2Uuid)
    case PwmA34Slot => (PowerServiceUuid, if switched then PwmB34Uuid else PwmA34Uuid)
    case PwmB34Slot => (PowerServiceUuid, if switched then PwmA34Uuid else PwmB34Uuid)
  }

  /** Some service with UUID `service` lists characteristic `c`. */
  predicate Offers(services: seq<Service>, service: Uuid, c: Uuid)
  {
    exists i, j :: 0 <= i < |services| && 0 <= j < |services[i].characteristics|
                && services[i].uuid == service && services[i].characteristics[j] == c
  }

  lemma UuidsDistinct()
    ensures BatteryServiceUuid != PowerServiceUuid
    ensures BatteryLevelUuid != PwmAB2Uuid && BatteryLevelUuid != PwmA34Uuid
    ensures BatteryLevelUuid != PwmB34Uuid && BatteryLevelUuid != ConfigUuid
    ensures PwmAB2Uuid != PwmA34Uuid && PwmAB2Uuid != PwmB34Uuid && PwmAB2Uuid != ConfigUuid
    ensures PwmA34Uuid != PwmB34Uuid && PwmA34Uuid != ConfigUuid && PwmB34Uuid != ConfigUuid
  {
    assert BatteryServiceUuid[7] != PowerServiceUuid[7];
    assert BatteryLevelUuid[7] != PwmAB2Uuid[7] && BatteryLevelUuid[7] != PwmA34Uuid[7];
    assert BatteryLevelUuid[7] != PwmB34Uuid[7] && BatteryLevelUuid[7] != ConfigUuid[7];
    assert PwmAB2Uuid[7] != PwmA34Uuid[7] && PwmAB2Uuid[7] != PwmB34Uuid[7] && PwmAB2Uuid[7] != ConfigUuid[7];
    assert PwmA34Uuid[7] != PwmB34Uuid[7] && PwmA34Uuid[7] != ConfigUuid[7] && PwmB34Uuid[7] != ConfigUuid[7];
  }

  lemma BindOneSlot(s: Slots, service: Uuid, c: Uuid, switched: bool, n: SlotName)
    ensures SlotOf(BindOne(s, service, c, switched), n)
         == if (service, c) == Wanted(n, switched) then Some(c) else SlotOf(s, n)
  {
    UuidsDistinct();
  }

  lemma {:induction false} BindServiceSlot(s: Slots, service: Uuid, cs: seq<Uuid>, switched: bool, n: SlotName)
    ensures SlotOf(BindService(s, service, cs, switched), n)
         == if service == Wanted(n, switched).0 && Wanted(n, switched).1 in cs
            then Some(Wanted(n, switched).1) else SlotOf(s, n)
    decreases |cs|
  {
    if cs != [] {
      var init := cs[..|cs| - 1];
      BindServiceSlot(s, service, init, switched, n);
      BindOneSlot(BindService(s, service, init, switched), service, cs[|cs| - 1], switched, n);
      assert cs == init + [cs[|cs| - 1]];
    }
  }

  /**
   * Binding, slot by slot: a slot ends up holding the characteristic it wants whenever some
   * service of the right UUID offers it, and keeps its old value otherwise. With `switched`
   * (always set by the interface) this is the channel swap: …1505 lands in the B slot, …1506 in A.
   */
  lemma {:induction false} BindServicesSlot(s: Slots, services: seq<Service>, switched: bool, n: SlotName)
    ensures SlotOf(BindServices(s, services, switched), n)
         == if Offers(services, Wanted(n, switched).0, Wanted(n, switched).1)
            then Some(Wanted(n, switched).1) else SlotOf(s, n)
    decreases |services|
  {
    if services != [] {
      var init := services[..|services| - 1];
      var last := services[|services| - 1];
      var (svc, c) := Wanted(n, switched);
      BindServicesSlot(s, init, switched, n);
      BindServiceSlot(BindServices(s, init, switched), last.uuid, last.characteristics, switched, n);
      if Offers(services, svc, c) {
        var i, j :| 0 <= i < |services| && 0 <= j < |services[i].characteristics|
                 && services[i].uuid == svc && services[i].characteristics[j] == c;
        if i < |services| - 1 {
          assert init[i] == services[i];
        }
      }
      if Offers(init, svc, c) {
        var i, j :| 0 <= i < |init| && 0 <= j < |init[i].characteristics|
                 && init[i].uuid == svc && init[i].characteristics[j] == c;
        assert services[i] == init[i];
      }
      if last.uuid == svc && c in last.characteristics {
        var j :| 0 <= j < |last.characteristics| && last.characteristics[j] == c;
        assert services[|services| - 1] == last;
      }
    }
  }

  /** The channel swap of the Coyote's data characteristics, as the interface always applies it. */
  lemma ChannelSwap(s: Slots, services: seq<Service>)
    ensures BindServices(s, services, true).pwmA34
         == if Offers(services, PowerServiceUuid, PwmB34Uuid) then Some(PwmB34Uuid) else s.pwmA34
    ensures BindServices(s, services, true).pwmB34
         == if Offers(services, PowerServiceUuid, PwmA34Uuid) then Some(PwmA34Uuid) else s.pwmB34
  {
    BindServicesSlot(s, services, true, PwmA34Slot);
    BindServicesSlot(s, services, true, PwmB34Slot);
  }

  /** Slots only ever hold the characteristic UUIDs the interface looks for. */
  predicate WellBound(s: Slots)
  {
    && (s.battery == None || s.battery == Some(BatteryLevelUuid))
    && (s.config == None || s.config == Some(ConfigUuid))
    && (s.pwmAB2 == None || s.pwmAB2 == Some(PwmAB2Uuid))
    && (s.pwmA34 == None || s.pwmA34 == Some(PwmA34Uuid) || s.pwmA34 == Some(PwmB34Uuid))
    && (s.pwmB34 == None || s.pwmB34 == Some(PwmA34Uuid) || s.pwmB34 == Some(PwmB34Uuid))
  }

  lemma BindingKeepsWellBound(s: Slots, services: seq<Service>, switched: bool)
    requires WellBound(s)
    ensures WellBound(BindServices(s, services, switched))
  {
    BindServicesSlot(s, services, switched, BatterySlot);
    BindServicesSlot(s, services, switched, ConfigSlot);
    BindServicesSlot(s, services, switched, PwmAB2Slot);
    BindServicesSlot(s, services, switched, PwmA34Slot);
    BindServicesSlot(s, services, switched, PwmB34Slot);
  }

  // ---------------------------------------------------------------------------------------------
  // Battery level, vibration strength, pattern duration
  // ---------------------------------------------------------------------------------------------

  /** `int(data.hex(), 16)` for non-empty data: the bytes read as one big-endian number. */
  function BigEndian(data: seq<byte>): nat
  {
    if data == [] then 0 else BigEndian(data[..|data| - 1]) * 256 + data[|data| - 1]
  }

  /** `int(x)` of a float x = n / d: truncation toward zero. */
  function TruncDiv(n: int, d: int): int
    requires d > 0
  {
    if n >= 0 then n / d else -((-n) / d)
  }

  /** convert_power_vibrate: `int(strength * 767 / 100 + 1)`. */
  function ConvertPowerVibrate(strength: int): int
  {
    TruncDiv(strength * 767 + 100, 100)
  }

  /** Strengths 0..100 map into 1..768, always inside the safe-mode range. */
  lemma VibrateInSafeRange(strength: int)
    requires 0 <= strength <= 100
    ensures 1 <= ConvertPowerVibrate(strength) <= SafeCap
    ensures ConvertPowerVibrate(strength) == strength * 767 / 100 + 1
  {
    assert strength * 767 + 100 == (strength * 767) / 100 * 100 + (strength * 767) % 100 + 100;
  }

  /** The conversion never decreases as the strength grows. */
  lemma VibrateMonotone(s1: int, s2: int)
    requires s1 <= s2
    ensures ConvertPowerVibrate(s1) <= ConvertPowerVibrate(s2)
  {
    var n1, n2 := s1 * 767 + 100, s2 * 767 + 100;
    assert n1 <= n2;
    if n1 < 0 && n2 < 0 {
      DivMonotone(-n2, -n1);
    } else if n1 >= 0 {
      DivMonotone(n1, n2);
    }
  }

  lemma DivMonotone(x: int, y: int)
    requires 0 <= x <= y
    ensures x / 100 <= y / 100
  {
  }

  /** _calculate_pattern_duration: the total of pulse and pause over all frames, in ms. */
  function PatternDuration(frames: seq<Estim.Frame>): int
  {
    if frames == [] then 0 else frames[0].pulse + frames[0].pause + PatternDuration(frames[1..])
  }

  /** The duration of patterns joined end to end is the sum of their durations. */
  lemma {:induction false} PatternDurationAppend(a: seq<Estim.Frame>, b: seq<Estim.Frame>)
    ensures PatternDuration(a + b) == PatternDuration(a) + PatternDuration(b)
    decreases |a|
  {
    if a == [] {
      assert a + b == b;
    } else {
      assert (a + b)[1..] == a[1..] + b;
      PatternDurationAppend(a[1..], b);
    }
  }

  /** Frames inside the encoder's ranges last 0..1054 ms each. */
  lemma {:induction false} PatternDurationBounds(frames: seq<Estim.Frame>)
    requires forall f | f in frames :: Estim.Encodable(f)
    ensures 0 <= PatternDuration(frames) <= 1054 * |frames|
    decreases |frames|
  {
    if frames != [] {
      PatternDurationBounds(frames[1..]);
      assert Estim.Encodable(frames[0]);
    }
  }

  /** The built-in single-frame pattern lasts 100 ms. */
  lemma SimplePatternDuration()
    ensures PatternDuration(Estim.SimplePattern) == 100
  {
  }

  // ---------------------------------------------------------------------------------------------
  // search_for_device
  // ---------------------------------------------------------------------------------------------

  /** One device the scanner reported. */
  datatype Advert = Advert(name: string, address: string, rssi: int)

  const CoyoteAlias: string := "D-LAB ESTIM01"

  /** A device search_for_device may take: the Coyote's name and a (truthy) non-empty address. */
  predicate Candidate(d: Advert)
  {
    d.name == CoyoteAlias && d.address != ""
  }

  /**
   * The device search_for_device keeps: sorting by signal strength, strongest first (a stable
   * sort), and taking the first candidate picks the candidate with the highest RSSI, the earliest
   * reported one among equals.
   */
  predicate Chosen(devices: seq<Advert>, k: int)
  {
    && 0 <= k < |devices| && Candidate(devices[k])
    && (forall j | 0 <= j < |devices| && Candidate(devices[j]) :: devices[j].rssi <= devices[k].rssi)
    && (forall j | 0 <= j < k && Candidate(devices[j]) :: devices[j].rssi < devices[k].rssi)
  }

  /** At most one device is chosen. */
  lemma ChosenUnique(devices: seq<Advert>, k1: int, k2: int)
    requires Chosen(devices, k1) && Chosen(devices, k2)
    ensures k1 == k2
  {
  }
}
