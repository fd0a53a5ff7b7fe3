/**
 * A stand-in for the `bleak.BleakClient` the Coyote interface talks to. What the peripheral
 * answers is fixed in advance by two scripts, indexed by the number of connects and reads made
 * before; every write is recorded, in order, in a ghost trace.
 */
module Bleak {
  import opened Codec

  type Uuid = string

  const BatteryServiceUuid: Uuid := "955a180a-0fe2-f5aa-a094-84b8d4f3e8ad"
  const BatteryLevelUuid: Uuid := "955a1500-0fe2-f5aa-a094-84b8d4f3e8ad"
  const PowerServiceUuid: Uuid := "955a180b-0fe2-f5aa-a094-84b8d4f3e8ad"
  /** PWM_AB2: both channel powers, 3 bytes (encode_power). */
  const PwmAB2Uuid: Uuid := "955a1504-0fe2-f5aa-a094-84b8d4f3e8ad"
  /** PWM_A34: pattern data; on the hardware it drives channel B. */
  const PwmA34Uuid: Uuid := "955a1505-0fe2-f5aa-a094-84b8d4f3e8ad"
  /** PWM_B34: pattern data; on the hardware it drives channel A. */
  const PwmB34Uuid: Uuid := "955a1506-0fe2-f5aa-a094-84b8d4f3e8ad"
  const ConfigUuid: Uuid := "955a1507-0fe2-f5aa-a094-84b8d4f3e8ad"

  /** A GATT service with the UUIDs of its characteristics. */
  datatype Service = Service(uuid: Uuid, characteristics: seq<Uuid>)

  /** One `write_gatt_char` call. */
  datatype Write = Write(target: Uuid, data: seq<byte>)

  /** The peripheral's answer to a connection attempt; `Refused` is an exception with an opaque code. */
  datatype ConnectReply = Accepted | Refused(code: int)

  /** The answer to `read_gatt_char`: bytes, or an exception that may also have dropped the link. */
  datatype ReadReply = Received(data: seq<byte>) | ReadFailed(code: int, linkLost: bool)

  class Client {
    var isConnected: bool
    /** The backend's connection timeout, which the interface doubles after a failed attempt. */
    var timeout: int
    const services: seq<Service>
    const connectReplies: nat -> ConnectReply
    const readReplies: nat -> ReadReply
    var connectCount: nat
    var readCount: nat
    ghost var trace: seq<Write>

    constructor (timeout: int, services: seq<Service>,
                 connectReplies: nat -> ConnectReply, readReplies: nat -> ReadReply)
      ensures !isConnected && this.timeout == timeout && this.services == services
      ensures this.connectReplies == connectReplies && this.readReplies == readReplies
      ensures connectCount == 0 && readCount == 0 && trace == []
    {
      this.timeout := timeout;
      this.services := services;
      this.connectReplies := connectReplies;
      this.readReplies := readReplies;
      isConnected := false;
      connectCount, readCount := 0, 0;
      trace := [];
    }

    /** `connect()`: the next scripted answer; a refusal is raised to the caller. */
    method Connect() returns (reply: ConnectReply)
      modifies this`isConnected, this`connectCount
      ensures reply == connectReplies(old(connectCount)) && connectCount == old(connectCount) + 1
      ensures isConnected == (old(isConnected) || reply.Accepted?)
    {
      reply := connectReplies(connectCount);
      connectCount := connectCount + 1;
      isConnected := isConnected || reply.Accepted?;
    }

    method Disconnect()
      modifies this`isConnected
      ensures !isConnected
    {
      isConnected := false;
    }

    method WriteGattChar(target: Uuid, data: seq<byte>)
      modifies this`trace
      ensures trace == old(trace) + [Write(target, data)]
    {
      trace := trace + [Write(target, data)];
    }

    /** `read_gatt_char`: the next scripted answer. */
    method ReadGattChar(target: Uuid) returns (reply: ReadReply)
      modifies this`readCount, this`isConnected
      ensures reply == readReplies(old(readCount)) && readCount == old(readCount) + 1
      ensures isConnected == (old(isConnected) && !(reply.ReadFailed? && reply.linkLost))
    {
      reply := readReplies(readCount);
      readCount := readCount + 1;
      isConnected := isConnected && !(reply.ReadFailed? && reply.linkLost);
    }
  }
}

/**
 * The clock (`time.time()`) and the asyncio event loop, in integer milliseconds. Each reading
 * lets a scripted, non-negative amount of time pass; `asyncio.sleep(ms)` lets at least `ms` pass.
 * While a coroutine sleeps the others run: what they do to the interface is scripted too, one
 * request per sleep.
 */
module Runtime {

  /** What the other tasks (the HTTP endpoints) do while the playback loop sleeps. */
  datatype Request =
    | Idle
    | SwitchPatterns(patternA: string, patternB: string)   // POST /pattern
    | StopOutput                                          // stop()
    | Shutdown                                            // disconnect()

  /**
   * The clock after `k` readings of `time.time()` with no sleep between them, starting at `now`
   * when the next reading is the loop's `steps`-th step.
   */
  function Reading(now: int, drift: nat -> nat, steps: nat, k: nat): int
  {
    if k == 0 then now else Reading(now, drift, steps, k - 1) + drift(steps + k - 1)
  }

  class EventLoop {
    var now: int
    const drift: nat -> nat
    const requests: nat -> Request
    var steps: nat

    constructor (start: int, drift: nat -> nat, requests: nat -> Request)
      ensures now == start && this.drift == drift && this.requests == requests && steps == 0
    {
      now := start;
      this.drift := drift;
      this.requests := requests;
      steps := 0;
    }

    /** `time.time()`. */
    method Time() returns (t: int)
      modifies this
      ensures now == old(now) + drift(old(steps)) && t == now && steps == old(steps) + 1
      ensures now >= old(now)
    {
      now := now + drift(steps);
      t := now;
      steps := steps + 1;
    }

    /** `await asyncio.sleep(ms / 1000)`, returning what the other tasks asked for meanwhile. */
    method Sleep(ms: nat) returns (request: Request)
      modifies this
      ensures now == old(now) + ms + drift(old(steps)) && steps == old(steps) + 1
      ensures now >= old(now) + ms
      ensures request == requests(old(steps))
    {
      now := now + ms + drift(steps);
      request := requests(steps);
      steps := steps + 1;
    }
  }
}
