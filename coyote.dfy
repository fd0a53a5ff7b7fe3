/**
 * `CoyoteInterface` (toys/estim/coyote/dg_interface.py): a session with one DG-LAB Coyote over
 * BLE. Its fields are updated in place by the coroutines `set_pwm`, `connect`, `disconnect`,
 * `get_bettery_level`, `is_running`, `stop` and `signal`; the switch-pattern request of the HTTP
 * router (routers/coyote.py) is one more method. Awaiting is sequential here: the other tasks
 * act only while `signal` sleeps, as the event loop's scripted requests.
 */
module Coyote {
  import opened Wrappers
  import opened Codec
  import opened Bleak
  import opened Runtime
  import opened CoyoteRules
  import Estim

  /** How a playback ends: the time ran out, stop_signal was seen, is_running said no, the loop spins, or an exception. */
  datatype PlaybackEnd = Finished | Stopped | LinkDown | Hang | Failed(error: Error)

  /** One frame signal wrote: its round of the outer loop, where it came from, and the clock before and after. */
  datatype Sent = Sent(round: nat, name: string, index: nat, frame: Estim.Frame, at: int, done: int)

  /** What connect's self-test did: its outcome, the battery level read, whether it wrote zero power, reads used. */
  datatype SelfTestRun = SelfTestRun(status: Outcome<Error>, battery: Option<int>, zeroed: bool, readsUsed: nat)

  /** The writes that are not to the power characteristic PWM_AB2: pattern data. */
  function DataWrites(trace: seq<Write>): seq<Write>
  {
    if trace == [] then []
    else DataWrites(trace[..|trace| - 1]) + (if trace[|trace| - 1].target == PwmAB2Uuid then [] else [trace[|trace| - 1]])
  }

  /** The writes `sent` stands for, all to `target`. */
  function Written(target: Uuid, sent: seq<Sent>): seq<Write>
  {
    if sent == [] then []
    else
      var s := sent[|sent| - 1];
      Written(target, sent[..|sent| - 1]) + [Write(target, EncodePattern(s.frame.pulse, s.frame.pause, s.frame.amplitude))]
  }

  /** The slot signal writes to: PWM_B34's slot for channel "b", PWM_A34's slot for anything else. */
  function Target(s: Slots, channel: string): Option<Uuid>
  {
    if channel == "b" then s.pwmB34 else s.pwmA34
  }

  /** connect's self-test after binding: read the battery, write zero power, read it back. */
  function SelfTest(s: Slots, replies: nat -> ReadReply, k: nat): SelfTestRun
  {
    if s.battery.None? then SelfTestRun(Fail(NoCharacteristic), None, false, 0)
    else match replies(k)
      case ReadFailed(code, _) => SelfTestRun(Fail(LinkFault(code)), None, false, 1)
      case Received(data) =>
        if data == [] then SelfTestRun(Fail(BadBatteryReading), None, false, 1)
        else if s.pwmAB2.None? then SelfTestRun(Fail(NoCharacteristic), Some(BigEndian(data)), false, 1)
        else match replies(k + 1)
          case ReadFailed(code, _) => SelfTestRun(Fail(LinkFault(code)), Some(BigEndian(data)), true, 2)
          case Received(_) => SelfTestRun(Pass, Some(BigEndian(data)), true, 2)
  }

  /** The number of items signal's inner loop iterates over: frames, or whole patterns. */
  function Length(e: Estim.Entry): nat
  {
    if e.Frames? then |e.frames| else |e.patterns|
  }

  /** A read answer that also drops the link. */
  predicate DropsLink(r: ReadReply) { r.ReadFailed? && r.linkLost }

  /** Consecutive frames are written at least 100 ms apart, and each write starts before the end time. */
  predicate WellSpaced(sent: seq<Sent>, start: int, endTime: int)
  {
    && (forall k | 0 <= k < |sent| :: start <= sent[k].at <= sent[k].done && sent[k].at < endTime)
    && (forall k | 0 < k < |sent| :: sent[k].at >= sent[k - 1].done + 100)
  }

  /** Every frame written is the frame at its index of the pattern it names. */
  predicate FromTable(sent: seq<Sent>, patterns: map<string, Estim.Entry>)
  {
    forall k | 0 <= k < |sent| ::
      && sent[k].name in patterns && patterns[sent[k].name].Frames?
      && sent[k].index < |patterns[sent[k].name].frames|
      && sent[k].frame == patterns[sent[k].name].frames[sent[k].index]
  }

  /** Rounds never go back; within a round the pattern is the same and the index only moves forward. */
  predicate InOrder(sent: seq<Sent>)
  {
    forall k | 0 < k < |sent| ::
      || sent[k - 1].round < sent[k].round
      || (sent[k - 1].round == sent[k].round && sent[k - 1].name == sent[k].name && sent[k - 1].index < sent[k].index)
  }

  /** The name POST /pattern asks channel a (`isA`) or channel b to take. */
  function Asked(r: Request, isA: bool): string
    requires r.SwitchPatterns?
  {
    if isA then r.patternA else r.patternB
  }

  /** A request that makes stop run: GET /stop, with or without the disconnect that follows. */
  predicate StopLike(r: Request)
  {
    r.StopOutput? || r.Shutdown?
  }

  /**
   * A name the channel may hold after the other tasks' requests numbered `from` .. `to - 1`,
   * having held `first`: `first` itself, or a name one of those requests asked the channel to take.
   */
  predicate Follows(name: string, first: string, isA: bool, requests: nat -> Request, from: nat, to: nat)
  {
    name == first || exists j | from <= j < to :: requests(j).SwitchPatterns? && Asked(requests(j), isA) == name
  }

  /** Every frame written plays a name the channel may hold after those requests. */
  predicate AllFollow(sent: seq<Sent>, first: string, isA: bool, requests: nat -> Request, from: nat, to: nat)
  {
    forall k | 0 <= k < |sent| :: Follows(sent[k].name, first, isA, requests, from, to)
  }

  /** Two spans of requests, one after the other. */
  lemma FollowsTrans(x: string, y: string, z: string, isA: bool, requests: nat -> Request, a: nat, b: nat, c: nat)
    requires a <= b <= c
    requires Follows(y, z, isA, requests, a, b) && Follows(x, y, isA, requests, b, c)
    ensures Follows(x, z, isA, requests, a, c)
  {
  }

  /**
   * A round of frames all playing `n`, a name the channel may hold, appended to frames that
   * already follow, follows too, also against later requests.
   */
  lemma FollowRound(sent: seq<Sent>, played: seq<Sent>, n: string, first: string, isA: bool,
                    requests: nat -> Request, from: nat, mid: nat, to: nat)
    requires mid <= to
    requires AllFollow(sent, first, isA, requests, from, mid) && Follows(n, first, isA, requests, from, mid)
    requires forall k | 0 <= k < |played| :: played[k].name == n
    ensures AllFollow(sent + played, first, isA, requests, from, to)
  {
    forall k | 0 <= k < |sent + played|
      ensures Follows((sent + played)[k].name, first, isA, requests, from, to)
    {
      if k < |sent| {
        assert (sent + played)[k] == sent[k];
      } else {
        assert (sent + played)[k] == played[k - |sent|];
      }
    }
  }

  /** When no POST /pattern arrives, every frame written plays the pattern first asked for. */
  lemma NoSwitchKeepsPattern(sent: seq<Sent>, first: string, isA: bool, requests: nat -> Request, from: nat, to: nat)
    requires AllFollow(sent, first, isA, requests, from, to)
    requires forall j | from <= j < to :: !requests(j).SwitchPatterns?
    ensures forall k | 0 <= k < |sent| :: sent[k].name == first
  {
  }

  /** The writes of earlier rounds followed by those of one more round are the writes of all of them. */
  lemma ExtendWrites(now: seq<Write>, before: seq<Write>, earlier: seq<Write>, target: Uuid, sent: seq<Sent>, played: seq<Sent>)
    requires before == earlier + Written(target, sent)
    requires now == before + Written(target, played)
    ensures now == earlier + Written(target, sent + played)
  {
    WrittenAppend(target, sent, played);
    assert (earlier + Written(target, sent)) + Written(target, played)
        == earlier + (Written(target, sent) + Written(target, played));
  }

  /** The filter, one write at a time. */
  lemma DataWritesAppend(trace: seq<Write>, w: Write)
    ensures DataWrites(trace + [w]) == DataWrites(trace) + (if w.target == PwmAB2Uuid then [] else [w])
  {
    assert (trace + [w])[..|trace + [w]| - 1] == trace;
  }

  /** Pattern frames written to a data characteristic all survive the filter: none of them is a power write. */
  lemma {:induction false} DataWritesOfData(sent: seq<Sent>, target: Uuid)
    requires target != PwmAB2Uuid
    ensures DataWrites(Written(target, sent)) == Written(target, sent)
    decreases |sent|
  {
    if sent != [] {
      var init := sent[..|sent| - 1];
      DataWritesOfData(init, target);
      var s := sent[|sent| - 1];
      DataWritesAppend(Written(target, init), Write(target, EncodePattern(s.frame.pulse, s.frame.pause, s.frame.amplitude)));
    }
  }

  /**
   * The self-test passes exactly when both slots it uses are bound, the battery answer is
   * non-empty and the power read-back succeeds; it then has stored the battery level read as a
   * big-endian number and has written zero power to both channels.
   */
  lemma SelfTestPasses(s: Slots, replies: nat -> ReadReply, k: nat)
    ensures var t := SelfTest(s, replies, k);
            t.status.Pass? <==> (&& s.battery.Some? && s.pwmAB2.Some?
                                 && replies(k).Received? && replies(k).data != [] && replies(k + 1).Received?)
    ensures var t := SelfTest(s, replies, k);
            t.status.Pass? ==> t.zeroed && t.battery == Some(BigEndian(replies(k).data))
  {
  }

  /** The writes of two runs of frames, one after the other. */
  lemma {:induction false} WrittenAppend(target: Uuid, a: seq<Sent>, b: seq<Sent>)
    ensures Written(target, a + b) == Written(target, a) + Written(target, b)
    decreases |b|
  {
    if b == [] {
      assert a + b == a;
    } else {
      assert (a + b)[..|a + b| - 1] == a + b[..|b| - 1];
      WrittenAppend(target, a, b[..|b| - 1]);
    }
  }

  /**
   * What one round wrote: frames of pattern `name` in round `round`, at indices that only grow and
   * stay below `i`, each written before `stopTime` and at least 100 ms after the previous one.
   */
  predicate RoundPlayed(played: seq<Sent>, round: nat, name: string, i: nat, start: int, stopTime: int,
                        patterns: map<string, Estim.Entry>)
    decreases |played|
  {
    played == [] ||
    var s := played[|played| - 1];
    var init := played[..|played| - 1];
    && RoundPlayed(init, round, name, s.index, start, stopTime, patterns)
    && (|init| > 0 ==> s.at >= init[|init| - 1].done + 100)
    && s.round == round && s.name == name && s.index < i
    && start <= s.at <= s.done && s.at < stopTime
    && name in patterns && patterns[name].Frames? && s.index < |patterns[name].frames|
    && s.frame == patterns[name].frames[s.index]
  }

  /** A round is spaced, taken from the table and in order, all in one round and one pattern below `i`. */
  lemma {:induction false} RoundPlayedMeans(played: seq<Sent>, round: nat, name: string, i: nat, start: int, stopTime: int,
                                            patterns: map<string, Estim.Entry>)
    requires RoundPlayed(played, round, name, i, start, stopTime, patterns)
    ensures WellSpaced(played, start, stopTime) && FromTable(played, patterns) && InOrder(played)
    ensures forall k | 0 <= k < |played| :: played[k].round == round && played[k].name == name && played[k].index < i
    decreases |played|
  {
    if played != [] {
      var s := played[|played| - 1];
      var init := played[..|played| - 1];
      RoundPlayedMeans(init, round, name, s.index, start, stopTime, patterns);
      forall k | 0 <= k < |played|
        ensures start <= played[k].at <= played[k].done && played[k].at < stopTime
        ensures played[k].round == round && played[k].name == name && played[k].index < i
        ensures && played[k].name in patterns && patterns[played[k].name].Frames?
                && played[k].index < |patterns[played[k].name].frames|
                && played[k].frame == patterns[played[k].name].frames[played[k].index]
        ensures k > 0 ==> played[k].at >= played[k - 1].done + 100
        ensures k > 0 ==> played[k - 1].round == played[k].round && played[k - 1].name == played[k].name
                          && played[k - 1].index < played[k].index
      {
        if k < |init| {
          assert played[k] == init[k];
          if k > 0 {
            assert played[k - 1] == init[k - 1];
          }
        } else if k > 0 {
          assert played[k - 1] == init[|init| - 1];
        }
      }
    }
  }

  /** Every frame of a round belongs to that round and plays its pattern. */
  lemma {:induction false} RoundPlayedNames(played: seq<Sent>, round: nat, name: string, i: nat, start: int, stopTime: int,
                                            patterns: map<string, Estim.Entry>)
    requires RoundPlayed(played, round, name, i, start, stopTime, patterns)
    ensures forall k | 0 <= k < |played| :: played[k].round == round && played[k].name == name
    decreases |played|
  {
    if played != [] {
      var init := played[..|played| - 1];
      RoundPlayedNames(init, round, name, played[|played| - 1].index, start, stopTime, patterns);
      assert forall k | 0 <= k < |init| :: played[k] == init[k];
    }
  }

  /** Writing frame `i` of pattern `name` at a time the spacing rule allows extends the round. */
  lemma PlayFrame(played: seq<Sent>, s: Sent, target: Uuid, round: nat, name: string, i: nat, start: int, stopTime: int,
                  patterns: map<string, Estim.Entry>, earlier: seq<Write>, before: seq<Write>, now: seq<Write>)
    requires RoundPlayed(played, round, name, i, start, stopTime, patterns)
    requires |played| > 0 ==> s.at >= played[|played| - 1].done + 100
    requires start <= s.at <= s.done && s.at < stopTime
    requires s.round == round && s.name == name && s.index == i
    requires name in patterns && patterns[name].Frames? && i < |patterns[name].frames| && s.frame == patterns[name].frames[i]
    requires before == earlier + Written(target, played)
    requires now == before + [Write(target, EncodePattern(s.frame.pulse, s.frame.pause, s.frame.amplitude))]
    ensures RoundPlayed(played + [s], round, name, i + 1, start, stopTime, patterns)
    ensures now == earlier + Written(target, played + [s])
  {
    assert (played + [s])[..|played + [s]| - 1] == played;
  }

  /**
   * What signal wrote so far: each frame is the frame at its index of the pattern it names, is
   * written before `stopTime` and at least 100 ms after the previous one, and comes in a later
   * round or further on in the same pattern; in round 0 the pattern is `first`.
   */
  predicate Played(sent: seq<Sent>, first: string, start: int, stopTime: int, patterns: map<string, Estim.Entry>)
    decreases |sent|
  {
    sent == [] ||
    var s := sent[|sent| - 1];
    var init := sent[..|sent| - 1];
    && Played(init, first, start, stopTime, patterns)
    && (|init| > 0 ==> var p := init[|init| - 1];
                       && s.at >= p.done + 100
                       && (p.round < s.round || (p.round == s.round && p.name == s.name && p.index < s.index)))
    && start <= s.at <= s.done && s.at < stopTime
    && s.name in patterns && patterns[s.name].Frames? && s.index < |patterns[s.name].frames|
    && s.frame == patterns[s.name].frames[s.index]
    && (s.round == 0 ==> s.name == first)
  }

  /** A playback is spaced, taken from the table and in order, and its round 0 plays `first`. */
  lemma {:induction false} PlayedMeans(sent: seq<Sent>, first: string, start: int, stopTime: int,
                                       patterns: map<string, Estim.Entry>)
    requires Played(sent, first, start, stopTime, patterns)
    ensures WellSpaced(sent, start, stopTime) && FromTable(sent, patterns) && InOrder(sent)
    ensures forall k | 0 <= k < |sent| && sent[k].round == 0 :: sent[k].name == first
    decreases |sent|
  {
    if sent != [] {
      var init := sent[..|sent| - 1];
      PlayedMeans(init, first, start, stopTime, patterns);
      forall k | 0 <= k < |sent|
        ensures start <= sent[k].at <= sent[k].done && sent[k].at < stopTime
        ensures && sent[k].name in patterns && patterns[sent[k].name].Frames?
                && sent[k].index < |patterns[sent[k].name].frames|
                && sent[k].frame == patterns[sent[k].name].frames[sent[k].index]
        ensures sent[k].round == 0 ==> sent[k].name == first
        ensures k > 0 ==> sent[k].at >= sent[k - 1].done + 100
        ensures k > 0 ==> || sent[k - 1].round < sent[k].round
                          || (sent[k - 1].round == sent[k].round && sent[k - 1].name == sent[k].name
                              && sent[k - 1].index < sent[k].index)
      {
        if k < |init| {
          assert sent[k] == init[k];
          if k > 0 {
            assert sent[k - 1] == init[k - 1];
          }
        } else if k > 0 {
          assert sent[k - 1] == init[|init| - 1];
        }
      }
    }
  }

  /**
   * Appending a round to the earlier ones extends the playback, provided the round comes later,
   * its first write keeps its distance from the last earlier one, and round 0 plays `first`.
   */
  lemma {:induction false} JoinRounds(sent: seq<Sent>, played: seq<Sent>, round: nat, name: string, n: nat, start: int,
                                      stopTime: int, patterns: map<string, Estim.Entry>, first: string)
    requires Played(sent, first, start, stopTime, patterns)
    requires |sent| > 0 ==> sent[|sent| - 1].round < round
    requires RoundPlayed(played, round, name, n, start, stopTime, patterns)
    requires round == 0 ==> name == first
    requires |sent| > 0 && |played| > 0 ==> played[0].at >= sent[|sent| - 1].done + 100
    ensures Played(sent + played, first, start, stopTime, patterns)
    ensures |sent + played| > 0 ==> (sent + played)[|sent + played| - 1].round <= round
    ensures |sent + played| > 0 ==>
              (sent + played)[|sent + played| - 1] == if |played| > 0 then played[|played| - 1] else sent[|sent| - 1]
    decreases |played|
  {
    if played == [] {
      assert sent + played == sent;
    } else {
      var s := played[|played| - 1];
      var init := played[..|played| - 1];
      if init != [] {
        assert init[0] == played[0];
      }
      JoinRounds(sent, init, round, name, s.index, start, stopTime, patterns, first);
      var all := sent + played;
      assert all[..|all| - 1] == sent + init;
      assert all[|all| - 1] == s;
      if init == [] && sent != [] {
        assert (sent + init)[|sent + init| - 1] == sent[|sent| - 1];
      } else if init != [] {
        assert (sent + init)[|sent + init| - 1] == init[|init| - 1];
      }
    }
  }

  /** What one pass of signal's inner loop did with its item. */
  datatype Did = Switched | Early | Late | Wrote | Ended(how: PlaybackEnd)

  /**
   * One pass of signal's inner loop: the loop's step count when it began, whether it found
   * switch_pattern raised, the clock reading cur_time it took, last_time and last_power_check as
   * it found them, whether it found stop_signal raised, and what it did.
   */
  datatype Turn = Turn(step: nat, switched: bool, reading: int, last: int, check: int, stopped: bool, did: Did)

  /**
   * The tests of one pass, in their order: a raised switch_pattern breaks the round; a reading
   * less than 100 ms after the last write skips the item; a reading at or after `stopTime` breaks
   * the round; stop_signal ends the playback; with no is_running check due, the item is written
   * when it is a frame and a slot is `bound`, and raised otherwise; a due check may also end the
   * playback, with LinkDown or what connect raises.
   */
  predicate Decided(t: Turn, stopTime: int, entry: Estim.Entry, bound: bool)
  {
    if t.switched then t.did == Switched
    else if t.reading - t.last < 100 then t.did == Early
    else if t.reading >= stopTime then t.did == Late
    else if t.stopped then t.did == Ended(Stopped)
    else if t.reading - t.check <= 1000 then
      t.did == (if entry.Alternatives? then Ended(Failed(NotAFrame))
                else if bound then Wrote
                else Ended(Failed(NoCharacteristic)))
    else
      && (t.did == Wrote || t.did.Ended?)
      && (t.did == Wrote ==> entry.Frames? && bound)
      && (t.did.Ended? ==> || t.did.how == LinkDown
                           || (t.did.how.Failed? && (ConnectFault(t.did.how.error)
                                                     || (entry.Alternatives? && t.did.how.error == NotAFrame))))
  }

  /**
   * The state a pass `t` that went on to the next item leaves behind, after its closing 10 ms
   * sleep served request `steps - 1`: switch_pattern is raised exactly when that request is a
   * pattern switch; stop_signal stays raised, and is raised only by a stop; the clock is at least
   * 10 ms past the reading, and past the write; last_power_check was restamped, between the
   * reading and the write, only by a pass that wrote after a due check.
   */
  predicate HandedAt(t: Turn, steps: nat, now: int, switched: bool, stopped: bool, last: int, check: int,
                     requests: nat -> Request)
  {
    && (t.did == Early || t.did == Wrote)
    && t.step < steps
    && switched == requests(steps - 1).SwitchPatterns?
    && (t.stopped ==> stopped) && (stopped ==> t.stopped || StopLike(requests(steps - 1)))
    && now >= t.reading + 10
    && (t.did == Early ==> last == t.last && check == t.check)
    && (t.did == Wrote ==> && now >= last + 10
                           && if t.reading - t.check > 1000 then t.reading <= check <= last else check == t.check)
  }

  /**
   * How a pass `t` that went on hands over to the next pass `u`, which begins where HandedAt
   * leaves the state and reads the clock at once.
   */
  predicate Handover(t: Turn, u: Turn, requests: nat -> Request)
  {
    && (t.did == Early || t.did == Wrote)
    && t.step < u.step
    && (u.switched <==> requests(u.step - 1).SwitchPatterns?)
    && (t.stopped ==> u.stopped) && (u.stopped ==> t.stopped || StopLike(requests(u.step - 1)))
    && (!u.switched ==> u.reading >= t.reading + 10)
    && (t.did == Early ==> u.last == t.last && u.check == t.check)
    && (t.did == Wrote ==> && (!u.switched ==> u.reading >= u.last + 10)
                           && if t.reading - t.check > 1000 then t.reading <= u.check <= u.last else u.check == t.check)
  }

  /**
   * The passes `log` of one round over the pattern entry `entry`, and the frames `played` they
   * wrote: pass k handles item k; each pass decides as Decided says and hands over to the next as
   * Handover says; the first finds switch_pattern lowered and last_power_check `check0`; the
   * frames are as Plays says.
   */
  predicate Turns(log: seq<Turn>, played: seq<Sent>, last0: int, check0: int, stopTime: int, entry: Estim.Entry,
                  bound: bool, requests: nat -> Request)
  {
    && (forall k | 0 <= k < |log| :: Decided(log[k], stopTime, entry, bound))
    && (|log| > 0 ==> !log[0].switched && log[0].check == check0)
    && (forall k | 0 < k < |log| :: Handover(log[k - 1], log[k], requests))
    && Plays(log, played, last0)
  }

  /**
   * The frames `played` the passes `log` wrote: a pass that wrote added one frame, of its own
   * item, at its own reading, and the others none; a pass finds last_time at the end of the
   * latest write, or `last0`.
   */
  predicate Plays(log: seq<Turn>, played: seq<Sent>, last0: int)
    decreases |log|
  {
    if log == [] then played == []
    else
      var t := log[|log| - 1];
      var before := if t.did == Wrote && |played| > 0 then played[..|played| - 1] else played;
      && t.last == (if before == [] then last0 else before[|before| - 1].done)
      && (t.did == Wrote ==> |played| > 0 && played[|played| - 1].index == |log| - 1 && played[|played| - 1].at == t.reading)
      && Plays(log[..|log| - 1], before, last0)
  }

  /**
   * One more pass `t`, decided as Decided says, extends the log; it begins in the state the last
   * pass handed over, when the clock stood at `now`, or, as the first pass, with switch_pattern
   * lowered and last_power_check `check0`.
   */
  lemma TurnsAppend(log: seq<Turn>, played: seq<Sent>, t: Turn, played2: seq<Sent>, now: int, last0: int, check0: int,
                    stopTime: int, entry: Estim.Entry, bound: bool, requests: nat -> Request)
    requires Turns(log, played, last0, check0, stopTime, entry, bound, requests)
    requires Decided(t, stopTime, entry, bound)
    requires log == [] ==> !t.switched && t.check == check0
    requires log != [] ==> && HandedAt(log[|log| - 1], t.step, now, t.switched, t.stopped, t.last, t.check, requests)
                           && (!t.switched ==> t.reading >= now)
    requires t.last == (if played == [] then last0 else played[|played| - 1].done)
    requires t.did == Wrote ==> && |played2| == |played| + 1 && played2[..|played|] == played
                                && played2[|played|].index == |log| && played2[|played|].at == t.reading
    requires t.did != Wrote ==> played2 == played
    ensures Turns(log + [t], played2, last0, check0, stopTime, entry, bound, requests)
  {
    var log2 := log + [t];
    assert log2[..|log|] == log;
    assert Plays(log2, played2, last0);
    if log != [] {
      assert Handover(log[|log| - 1], t, requests);
    }
    assert forall k | 0 < k < |log2| :: Handover(log2[k - 1], log2[k], requests) by {
      forall k | 0 < k < |log2|
        ensures Handover(log2[k - 1], log2[k], requests)
      {
        if k < |log| {
          assert log2[k - 1] == log[k - 1] && log2[k] == log[k];
        }
      }
    }
  }

  /**
   * What the passes of a round wrote: each frame is the item of a pass that wrote, at that
   * pass's reading, and each pass that wrote left its frame; so an item skipped, or one whose
   * pass raised or broke, is never written, not even later.
   */
  lemma {:induction false} PlaysMeans(log: seq<Turn>, played: seq<Sent>, last0: int)
    requires Plays(log, played, last0)
    ensures forall j | 0 <= j < |played| ::
              played[j].index < |log| && log[played[j].index].did == Wrote && played[j].at == log[played[j].index].reading
    ensures forall k | 0 <= k < |log| :: log[k].did == Wrote ==> exists j | 0 <= j < |played| :: played[j].index == k
    decreases |log|
  {
    if log != [] {
      var t := log[|log| - 1];
      var init := log[..|log| - 1];
      var before := if t.did == Wrote && |played| > 0 then played[..|played| - 1] else played;
      PlaysMeans(init, before, last0);
      assert forall k | 0 <= k < |init| :: log[k] == init[k];
      assert forall j | 0 <= j < |before| :: played[j] == before[j];
      forall k | 0 <= k < |log| && log[k].did == Wrote
        ensures exists j | 0 <= j < |played| :: played[j].index == k
      {
        if k == |log| - 1 {
          assert played[|played| - 1].index == k;
        } else {
          var j :| 0 <= j < |before| && before[j].index == k;
          assert played[j].index == k;
        }
      }
    }
  }

  /** Passes that hand over keep stop_signal raised once one of them found it raised. */
  lemma {:induction false} StoppedStays(log: seq<Turn>, requests: nat -> Request, k: nat, m: nat)
    requires forall j | 0 < j < |log| :: Handover(log[j - 1], log[j], requests)
    requires k <= m < |log| && log[k].stopped
    ensures log[m].stopped
    decreases m
  {
    if m > k {
      StoppedStays(log, requests, k, m - 1);
      assert Handover(log[m - 1], log[m], requests);
    }
  }

  /**
   * The passes of a round: every pass but the last went on to the next item; once a pass finds
   * stop_signal raised, every later pass finds it raised too and writes nothing; a pass that
   * finds switch_pattern raised is the round's last.
   */
  lemma TurnsStop(log: seq<Turn>, played: seq<Sent>, last0: int, check0: int, stopTime: int,
                  entry: Estim.Entry, bound: bool, requests: nat -> Request)
    requires Turns(log, played, last0, check0, stopTime, entry, bound, requests)
    ensures forall k | 0 <= k < |log| - 1 :: log[k].did == Early || log[k].did == Wrote
    ensures forall k, m | 0 <= k <= m < |log| :: log[k].stopped ==> log[m].stopped && log[m].did != Wrote
    ensures forall k | 0 <= k < |log| :: log[k].switched ==> k == |log| - 1 && log[k].did == Switched
  {
    forall k | 0 <= k < |log| - 1
      ensures log[k].did == Early || log[k].did == Wrote
    {
      assert Handover(log[k], log[k + 1], requests);
    }
    forall k, m | 0 <= k <= m < |log| && log[k].stopped
      ensures log[m].stopped && log[m].did != Wrote
    {
      StoppedStays(log, requests, k, m);
      assert Decided(log[m], stopTime, entry, bound);
    }
  }

  /**
   * The state a round of signal's outer loop starts from: the clock and the loop's step count, the
   * channel's pattern name, the device trace and its data writes, the times of the last write and
   * the last is_running check, and stop_signal.
   */
  datatype RoundStart = RoundStart(now: int, steps: nat, name: string, trace: seq<Write>, earlier: seq<Write>,
                                   last: int, check: int, stopped: bool)

  /**
   * The state signal's outer loop starts from: the clock and the loop's step count, the loop
   * variables cur_time, last_time and last_power_check, stop_signal, and the device trace and its
   * data writes.
   */
  datatype PlaybackStart = PlaybackStart(now: int, steps: nat, cur: int, last: int, check: int, stopped: bool,
                                         trace: seq<Write>, earlier: seq<Write>)

  class CoyoteInterface {
    var battery: int
    var powA: int
    var powB: int
    /** `self.device`. */
    const client: Client
    /** The clock and the event loop the coroutines run on. */
    const loop: EventLoop
    /** `_battery_level`, `_config`, `_pwm_ab2`, `_pwm_a34`, `_pwm_b34`, holding the UUID of the bound characteristic. */
    var slots: Slots
    /** PWM_A34 drives channel B on the hardware and PWM_B34 channel A; connect binds them crosswise. */
    const channelsSwitched: bool
    var isConnected: bool
    const safeMode: bool
    var stopSignal: bool
    var switchPattern: bool
    var patternNameA: string
    var patternNameB: string
    /** The process-wide flag `settings.can_update_power` that the OSC handlers consult before calling set_pwm. */
    var canUpdatePower: bool
    /** The table `load_patterns` returned. */
    const patterns: map<string, Estim.Entry>
    /** `device_uid`; the empty string stands for None. */
    var deviceUid: string

    /** The pattern name channel a (`isA`) or channel b plays: `pattern_name_a` or `pattern_name_b`. */
    function Name(isA: bool): string
      reads this
    {
      if isA then patternNameA else patternNameB
    }

    /** Every bound slot holds the characteristic connect looks for. */
    predicate Valid()
      reads this
    {
      WellBound(slots)
    }

    constructor (client: Client, loop: EventLoop, patterns: map<string, Estim.Entry>, safeMode: bool, deviceUid: string)
      ensures Valid()
      ensures this.client == client && this.loop == loop && this.patterns == patterns
      ensures this.safeMode == safeMode && this.deviceUid == deviceUid && channelsSwitched
      ensures battery == -1 && powA == 1 && powB == 1
      ensures slots == Slots(None, None, None, None, None)
      ensures !isConnected && !stopSignal && !switchPattern && canUpdatePower
      ensures patternNameA == "" && patternNameB == ""
    {
      this.client := client;
      this.loop := loop;
      this.patterns := patterns;
      this.safeMode := safeMode;
      this.deviceUid := deviceUid;
      channelsSwitched := true;
      battery, powA, powB := -1, 1, 1;
      slots := Slots(None, None, None, None, None);
      isConnected, stopSignal, switchPattern, canUpdatePower := false, false, false, true;
      patternNameA, patternNameB := "", "";
    }

    /**
     * The device side of set_pwm: write the power message to PWM_AB2 and read it back; an unbound
     * slot or a failed read is raised.
     */
    method Transmit(a: int, b: int) returns (status: Outcome<Error>)
      requires Valid()
      modifies client`trace, client`readCount, client`isConnected
      ensures var wrote := slots.pwmAB2.Some?;
              && client.trace == old(client.trace) + (if wrote then [Write(PwmAB2Uuid, EncodePower(a, b))] else [])
              && client.readCount == old(client.readCount) + (if wrote then 1 else 0)
              && status == (if !wrote then Fail(NoCharacteristic)
                            else if client.readReplies(old(client.readCount)).ReadFailed?
                            then Fail(LinkFault(client.readReplies(old(client.readCount)).code))
                            else Pass)
      ensures client.isConnected == (old(client.isConnected) && forall j | old(client.readCount) <= j < client.readCount :: !DropsLink(client.readReplies(j)))
      ensures DataWrites(client.trace) == DataWrites(old(client.trace))
    {
      var message := EncodePower(a, b);
      if slots.pwmAB2.None? {
        return Fail(NoCharacteristic);
      }
      client.WriteGattChar(slots.pwmAB2.value, message);
      DataWritesAppend(old(client.trace), Write(slots.pwmAB2.value, message));
      var output := client.ReadGattChar(slots.pwmAB2.value);
      if output.ReadFailed? {
        return Fail(LinkFault(output.code));
      }
      return Pass;
    }

    /**
     * set_pwm: a negative request keeps the channel's power; a change of less than 10 on both
     * channels is dropped; otherwise the resolved powers are stored and the gate cleared, and they
     * are written to PWM_AB2 and read back only if both lie within the cap (768 in safe mode, else 2047).
     */
    method SetPwm(reqA: int, reqB: int) returns (status: Outcome<Error>)
      requires Valid()
      modifies this`powA, this`powB, this`canUpdatePower, client`trace, client`readCount, client`isConnected
      ensures var plan := PlanPwm(old(powA), old(powB), reqA, reqB, safeMode);
              if plan.Unchanged? then powA == old(powA) && powB == old(powB) && canUpdatePower == old(canUpdatePower)
              else powA == plan.a && powB == plan.b && !canUpdatePower
      ensures var plan := PlanPwm(old(powA), old(powB), reqA, reqB, safeMode);
              var wrote := plan.Send? && slots.pwmAB2.Some?;
              && client.trace == old(client.trace) + (if wrote then [Write(PwmAB2Uuid, EncodePower(powA, powB))] else [])
              && client.readCount == old(client.readCount) + (if wrote then 1 else 0)
              && status == (if !plan.Send? then Pass
                            else if !wrote then Fail(NoCharacteristic)
                            else if client.readReplies(old(client.readCount)).ReadFailed?
                            then Fail(LinkFault(client.readReplies(old(client.readCount)).code))
                            else Pass)
      ensures client.isConnected == (old(client.isConnected) && forall j | old(client.readCount) <= j < client.readCount :: !DropsLink(client.readReplies(j)))
      // what reaches the device is the stored power, and never above the cap
      ensures client.trace != old(client.trace) ==> 0 <= powA <= Cap(safeMode) && 0 <= powB <= Cap(safeMode)
      ensures DataWrites(client.trace) == DataWrites(old(client.trace))
    {
      ghost var plan := PlanPwm(powA, powB, reqA, reqB, safeMode);
      var a := Resolve(reqA, powA);
      var b := Resolve(reqB, powB);
      if Abs(a - powA) < Hysteresis && Abs(b - powB) < Hysteresis {
        assert plan.Unchanged?;
        return Pass;
      }
      powA, powB := a, b;
      canUpdatePower := false;
      var inValidRange := if safeMode then 0 <= a <= SafeCap && 0 <= b <= SafeCap
                          else 0 <= a <= FullCap && 0 <= b <= FullCap;
      status := Pass;
      if inValidRange {
        assert plan == Send(a, b);
        status := Transmit(a, b);
      } else {
        assert plan == Rejected(a, b);
      }
    }

    /**
     * The retry loop of connect: up to `retries` attempts, stopping at the first success, with
     * the timeout doubled after each failure; `saved` is what connect raises if none succeeded.
     */
    method Attempt(retries: int) returns (saved: Error)
      requires !client.isConnected
      modifies this`isConnected, client`isConnected, client`connectCount, client`timeout
      ensures var r := Retry(client.connectReplies, old(client.connectCount), retries, ConnectionError);
              && client.connectCount == old(client.connectCount) + r.made
              && client.timeout == old(client.timeout) * Pow2(Failures(r))
              && isConnected == (if r.made == 0 then old(isConnected) else r.connected)
              && client.isConnected == r.connected
              && (!r.connected ==> saved == r.saved)
    {
      ghost var c0 := client.connectCount;
      ghost var t0 := client.timeout;
      ghost var r0 := Retry(client.connectReplies, c0, retries, ConnectionError);
      saved := ConnectionError;
      var i := 0;
      while i < retries
        invariant 0 <= i && (retries > 0 ==> i <= retries)
        invariant client.connectCount == c0 + i && !client.isConnected
        invariant client.timeout == t0 * Pow2(i)
        invariant isConnected == if i == 0 then old(isConnected) else false
        invariant var rest := Retry(client.connectReplies, c0 + i, retries - i, saved);
                  r0 == Attempts(rest.made + i, rest.connected, rest.saved)
        decreases retries - i
      {
        var reply := client.Connect();
        if reply.Accepted? {
          isConnected := true;
          return;
        }
        saved := LinkFault(reply.code);
        isConnected := false;
        Redouble(t0, i);
        client.timeout := client.timeout * 2;
        i := i + 1;
      }
    }

    /** The body of the inner binding loop: one characteristic `c` of service `service`. */
    method Bind(service: Uuid, c: Uuid)
      modifies this`slots
      ensures slots == BindOne(old(slots), service, c, channelsSwitched)
    {
      UuidsDistinct();
      if service == BatteryServiceUuid {
        if c == BatteryLevelUuid {
          slots := slots.(battery := Some(c));
        }
      }
      if service == PowerServiceUuid {
        if c == PwmAB2Uuid {
          slots := slots.(pwmAB2 := Some(c));
        }
        if c == PwmA34Uuid {
          if channelsSwitched {
            slots := slots.(pwmB34 := Some(c));
          } else {
            slots := slots.(pwmA34 := Some(c));
          }
        }
        if c == PwmB34Uuid {
          if channelsSwitched {
            slots := slots.(pwmA34 := Some(c));
          } else {
            slots := slots.(pwmB34 := Some(c));
          }
        }
        if c == ConfigUuid {
          slots := slots.(config := Some(c));
        }
      }
    }

    /** The binding loops of connect: every characteristic of every service, in order. */
    method BindCharacteristics()
      requires Valid()
      modifies this`slots
      ensures Valid()
      ensures slots == BindServices(old(slots), client.services, channelsSwitched)
    {
      var services := client.services;
      var i := 0;
      while i < |services|
        invariant 0 <= i <= |services|
        invariant slots == BindServices(old(slots), services[..i], channelsSwitched)
      {
        BindAll(services[i]);
        assert services[..i + 1][..i] == services[..i];
        i := i + 1;
      }
      assert services[..i] == services;
      BindingKeepsWellBound(old(slots), services, channelsSwitched);
    }

    /** The inner binding loop: every characteristic of one service, in order. */
    method BindAll(service: Service)
      modifies this`slots
      ensures slots == BindService(old(slots), service.uuid, service.characteristics, channelsSwitched)
    {
      var cs := service.characteristics;
      var j := 0;
      while j < |cs|
        invariant 0 <= j <= |cs|
        invariant slots == BindService(old(slots), service.uuid, cs[..j], channelsSwitched)
      {
        Bind(service.uuid, cs[j]);
        assert cs[..j + 1][..j] == cs[..j];
        j := j + 1;
      }
      assert cs[..j] == cs;
    }

    /**
     * connect: unless the client is already connected, try `retries` times and raise the last
     * failure if none succeeded; then bind the characteristics of every service (crosswise for
     * the two data channels) and run the self-test.
     */
    method Connect(retries: int) returns (status: Outcome<Error>)
      requires Valid()
      modifies this`isConnected, this`slots, this`battery
      modifies client`isConnected, client`connectCount, client`timeout, client`readCount, client`trace
      ensures Valid()
      ensures var r := Retry(client.connectReplies, old(client.connectCount), retries, ConnectionError);
              if old(client.isConnected) then
                client.connectCount == old(client.connectCount) && client.timeout == old(client.timeout)
                && isConnected == old(isConnected)
              else
                client.connectCount == old(client.connectCount) + r.made
                && client.timeout == old(client.timeout) * Pow2(Failures(r))
                && isConnected == (if r.made == 0 then old(isConnected) else r.connected)
      ensures var r := Retry(client.connectReplies, old(client.connectCount), retries, ConnectionError);
              !old(client.isConnected) && !r.connected ==>
                status == Fail(r.saved) && !client.isConnected && slots == old(slots) && battery == old(battery)
                && client.trace == old(client.trace) && client.readCount == old(client.readCount)
      ensures var r := Retry(client.connectReplies, old(client.connectCount), retries, ConnectionError);
              old(client.isConnected) || r.connected ==>
                var t := SelfTest(slots, client.readReplies, old(client.readCount));
                && slots == BindServices(old(slots), client.services, channelsSwitched)
                && status == t.status
                && battery == (if t.battery.Some? then t.battery.value else old(battery))
                && client.trace == old(client.trace) + (if t.zeroed then [Write(PwmAB2Uuid, [0, 0, 0])] else [])
                && client.readCount == old(client.readCount) + t.readsUsed
                && client.isConnected == forall j | old(client.readCount) <= j < client.readCount :: !DropsLink(client.readReplies(j))
      ensures status.Fail? ==> ConnectFault(status.error)
      ensures DataWrites(client.trace) == DataWrites(old(client.trace))
    {
      var saved: Error := ConnectionError;
      if !client.isConnected {
        saved := Attempt(retries);
        if !client.isConnected {
          RetryRaisesLastFailure(client.connectReplies, old(client.connectCount), retries, ConnectionError);
          return Fail(saved);
        }
      }
      BindCharacteristics();
      status := RunSelfTest();
    }

    /**
     * The self-test at the end of connect: read the battery level (big-endian), write zero power
     * to PWM_AB2 and read it back; a missing characteristic, an empty battery answer or a failed
     * read is raised.
     */
    method RunSelfTest() returns (status: Outcome<Error>)
      requires Valid()
      modifies this`battery, client`readCount, client`isConnected, client`trace
      ensures var t := SelfTest(slots, client.readReplies, old(client.readCount));
              && status == t.status
              && battery == (if t.battery.Some? then t.battery.value else old(battery))
              && client.trace == old(client.trace) + (if t.zeroed then [Write(PwmAB2Uuid, [0, 0, 0])] else [])
              && client.readCount == old(client.readCount) + t.readsUsed
      ensures client.isConnected == (old(client.isConnected) && forall j | old(client.readCount) <= j < client.readCount :: !DropsLink(client.readReplies(j)))
      ensures DataWrites(client.trace) == DataWrites(old(client.trace))
    {
      if slots.battery.None? {
        return Fail(NoCharacteristic);
      }
      var level := client.ReadGattChar(slots.battery.value);
      if level.ReadFailed? {
        return Fail(LinkFault(level.code));
      }
      if level.data == [] {
        return Fail(BadBatteryReading);
      }
      battery := BigEndian(level.data);
      if slots.pwmAB2.None? {
        return Fail(NoCharacteristic);
      }
      var message: seq<byte> := [0, 0, 0];
      client.WriteGattChar(slots.pwmAB2.value, message);
      DataWritesAppend(old(client.trace), Write(slots.pwmAB2.value, message));
      var output := client.ReadGattChar(slots.pwmAB2.value);
      if output.ReadFailed? {
        return Fail(LinkFault(output.code));
      }
      // Whether `output` equals `message` is only logged.
      return Pass;
    }

    /** disconnect: nothing unless connected; otherwise raise stop_signal, clear the flag and drop the link. */
    method Disconnect()
      modifies this`stopSignal, this`isConnected, client`isConnected
      ensures !old(isConnected) ==> stopSignal == old(stopSignal) && !isConnected && client.isConnected == old(client.isConnected)
      ensures old(isConnected) ==> stopSignal && !isConnected && !client.isConnected
    {
      if !isConnected {
        return;
      }
      stopSignal := true;
      isConnected := false;
      client.Disconnect();
    }

    /** get_bettery_level: 0 when not connected; otherwise the battery characteristic read as a big-endian number. */
    method GetBatteryLevel() returns (r: Result<int, Error>)
      requires Valid()
      modifies this`battery, client`readCount, client`isConnected
      ensures !old(isConnected) ==> r == Success(0) && battery == old(battery) && client.readCount == old(client.readCount)
      ensures old(isConnected) && slots.battery.None? ==>
                r == Failure(NoCharacteristic) && battery == old(battery) && client.readCount == old(client.readCount)
      ensures old(isConnected) && slots.battery.Some? ==>
                var reply := client.readReplies(old(client.readCount));
                && client.readCount == old(client.readCount) + 1
                && r == (if reply.ReadFailed? then Failure(LinkFault(reply.code))
                         else if reply.data == [] then Failure(BadBatteryReading)
                         else Success(BigEndian(reply.data)))
      ensures r.Success? && old(isConnected) ==> battery == r.value
      ensures r.Failure? ==> battery == old(battery)
      ensures client.isConnected == (old(client.isConnected) && forall j | old(client.readCount) <= j < client.readCount :: !DropsLink(client.readReplies(j)))
    {
      if !isConnected {
        return Success(0);
      }
      if slots.battery.None? {
        return Failure(NoCharacteristic);
      }
      var level := client.ReadGattChar(slots.battery.value);
      if level.ReadFailed? {
        return Failure(LinkFault(level.code));
      }
      if level.data == [] {
        return Failure(BadBatteryReading);
      }
      battery := BigEndian(level.data);
      return Success(battery);
    }

    /**
     * is_running: false when not connected; true when PWM_AB2 can be read; otherwise reconnect
     * (three attempts) and answer false, unless the reconnect raises.
     */
    method IsRunning() returns (r: Result<bool, Error>)
      requires Valid()
      modifies this`isConnected, this`slots, this`battery
      modifies client`isConnected, client`connectCount, client`timeout, client`readCount, client`trace
      ensures Valid()
      ensures r == Success(true) <==>
                old(isConnected) && old(slots).pwmAB2.Some? && client.readReplies(old(client.readCount)).Received?
      ensures r == Success(true) ==> unchanged(this) && client.readCount == old(client.readCount) + 1
                                     && client.trace == old(client.trace)
      ensures !old(isConnected) ==> r == Success(false) && unchanged(this) && unchanged(client)
      ensures r.Failure? ==> old(isConnected) && ConnectFault(r.error)
      ensures old(client.trace) <= client.trace
      ensures DataWrites(client.trace) == DataWrites(old(client.trace))
    {
      if !isConnected {
        return Success(false);
      }
      var ok := false;
      if slots.pwmAB2.Some? {
        var output := client.ReadGattChar(slots.pwmAB2.value);
        ok := output.Received?;
      }
      if ok {
        return Success(true);
      }
      var reconnected := Connect(3);
      if reconnected.Fail? {
        return Failure(reconnected.error);
      }
      return Success(false);
    }

    /**
     * stop: nothing unless connected; otherwise raise stop_signal and ask set_pwm for zero power.
     * Unless both channels already lie within 10 of zero, zero is stored, the gate is closed and
     * the zero-power message is written to PWM_AB2 and read back.
     */
    method Stop() returns (status: Outcome<Error>)
      requires Valid()
      modifies this`stopSignal, this`powA, this`powB, this`canUpdatePower, client`trace, client`readCount, client`isConnected
      ensures !old(isConnected) ==> status == Pass && unchanged(this) && unchanged(client)
      ensures old(isConnected) ==> stopSignal
      ensures old(isConnected) && Abs(old(powA)) < Hysteresis && Abs(old(powB)) < Hysteresis ==>
                && powA == old(powA) && powB == old(powB) && canUpdatePower == old(canUpdatePower)
                && status == Pass && client.trace == old(client.trace) && client.readCount == old(client.readCount)
      ensures old(isConnected) && (Abs(old(powA)) >= Hysteresis || Abs(old(powB)) >= Hysteresis) ==>
                var wrote := slots.pwmAB2.Some?;
                && powA == 0 && powB == 0 && !canUpdatePower
                && client.trace == old(client.trace) + (if wrote then [Write(PwmAB2Uuid, EncodePower(0, 0))] else [])
                && client.readCount == old(client.readCount) + (if wrote then 1 else 0)
                && status == (if !wrote then Fail(NoCharacteristic)
                              else if client.readReplies(old(client.readCount)).ReadFailed?
                              then Fail(LinkFault(client.readReplies(old(client.readCount)).code))
                              else Pass)
      ensures client.isConnected == (old(client.isConnected) && forall j | old(client.readCount) <= j < client.readCount :: !DropsLink(client.readReplies(j)))
      ensures old(client.trace) <= client.trace
      ensures DataWrites(client.trace) == DataWrites(old(client.trace))
    {
      if !isConnected {
        return Pass;
      }
      stopSignal := true;
      StopPlan(powA, powB, safeMode);
      status := SetPwm(0, 0);
    }

    /** The pattern switch of POST /pattern: each name is taken only if the table has it; the switch flag is always raised. */
    method UpdatePattern(patternA: string, patternB: string)
      modifies this`patternNameA, this`patternNameB, this`switchPattern
      ensures patternNameA == if patternA in patterns then patternA else old(patternNameA)
      ensures patternNameB == if patternB in patterns then patternB else old(patternNameB)
      ensures switchPattern
    {
      if patternA in patterns {
        patternNameA := patternA;
      }
      if patternB in patterns {
        patternNameB := patternB;
      }
      switchPattern := true;
    }

    /** What another task does to the interface while signal sleeps: switch patterns, stop, or stop and disconnect (GET /stop). */
    method Serve(request: Request)
      requires Valid()
      modifies this`patternNameA, this`patternNameB, this`switchPattern, this`stopSignal, this`isConnected
      modifies this`powA, this`powB, this`canUpdatePower, client`trace, client`readCount, client`isConnected
      ensures Valid()
      ensures request.Idle? ==> unchanged(this) && unchanged(client)
      ensures request.SwitchPatterns? ==> switchPattern
      ensures StopLike(request) && old(isConnected) ==> stopSignal
      ensures old(stopSignal) ==> stopSignal
      ensures stopSignal ==> old(stopSignal) || StopLike(request)
      ensures !request.SwitchPatterns? ==> patternNameA == old(patternNameA) && patternNameB == old(patternNameB)
                                           && switchPattern == old(switchPattern)
      ensures patternNameA == old(patternNameA) || (request.SwitchPatterns? && patternNameA == request.patternA)
      ensures patternNameB == old(patternNameB) || (request.SwitchPatterns? && patternNameB == request.patternB)
      ensures old(client.trace) <= client.trace
      ensures DataWrites(client.trace) == DataWrites(old(client.trace))
    {
      match request {
        case Idle =>
        case SwitchPatterns(a, b) =>
          UpdatePattern(a, b);
        case StopOutput =>
          var _ := Stop();
        case Shutdown =>
          var stopped := Stop();
          if stopped.Pass? {
            Disconnect();
          }
      }
    }

    /**
     * `await asyncio.sleep(0.01)` inside signal: at least 10 ms pass, and another task may act. A
     * channel whose name follows `first` since request `from` still does afterwards.
     */
    method Nap(ghost isA: bool, ghost first: string, ghost from: nat)
      requires Valid()
      requires from <= loop.steps && Follows(Name(isA), first, isA, loop.requests, from, loop.steps)
      modifies this`patternNameA, this`patternNameB, this`switchPattern, this`stopSignal, this`isConnected
      modifies this`powA, this`powB, this`canUpdatePower, client`trace, client`readCount, client`isConnected
      modifies loop
      ensures Valid()
      ensures loop.now >= old(loop.now) + 10 && loop.steps == old(loop.steps) + 1
      ensures Follows(Name(isA), old(Name(isA)), isA, loop.requests, old(loop.steps), loop.steps)
      ensures Follows(Name(isA), first, isA, loop.requests, from, loop.steps)
      // the request served is the one numbered old(loop.steps)
      ensures var q := loop.requests(old(loop.steps));
              && (q.SwitchPatterns? ==> switchPattern)
              && (!q.SwitchPatterns? ==> switchPattern == old(switchPattern) && Name(isA) == old(Name(isA)))
              && (StopLike(q) && old(isConnected) ==> stopSignal)
              && (old(stopSignal) ==> stopSignal)
              && (stopSignal ==> old(stopSignal) || StopLike(q))
      ensures old(client.trace) <= client.trace
      ensures DataWrites(client.trace) == DataWrites(old(client.trace))
    {
      var request := loop.Sleep(10);
      Serve(request);
      assert loop.requests(old(loop.steps)) == request;
      FollowsTrans(Name(isA), old(Name(isA)), first, isA, loop.requests, from, old(loop.steps), loop.steps);
    }

    /**
     * The 10 ms sleep that closes a pass `t` of signal's inner loop which went on to the next
     * item, leaving last_time `last` and last_power_check `check`: Nap, after which the state is
     * the one HandedAt describes.
     */
    method Pause(ghost isA: bool, ghost first: string, ghost from: nat, ghost t: Turn, ghost last: int, ghost check: int)
      requires Valid()
      requires from <= loop.steps && Follows(Name(isA), first, isA, loop.requests, from, loop.steps)
      requires t.did == Early || t.did == Wrote
      requires t.step < loop.steps && !switchPattern && t.stopped == stopSignal && loop.now >= t.reading
      requires t.did == Early ==> last == t.last && check == t.check
      requires t.did == Wrote ==> && loop.now >= last
                                  && if t.reading - t.check > 1000 then t.reading <= check <= last else check == t.check
      modifies this`patternNameA, this`patternNameB, this`switchPattern, this`stopSignal, this`isConnected
      modifies this`powA, this`powB, this`canUpdatePower, client`trace, client`readCount, client`isConnected
      modifies loop
      ensures Valid()
      ensures loop.now >= old(loop.now) + 10 && loop.steps == old(loop.steps) + 1
      ensures Follows(Name(isA), old(Name(isA)), isA, loop.requests, old(loop.steps), loop.steps)
      ensures Follows(Name(isA), first, isA, loop.requests, from, loop.steps)
      ensures old(client.trace) <= client.trace
      ensures DataWrites(client.trace) == DataWrites(old(client.trace))
      ensures HandedAt(t, loop.steps, loop.now, switchPattern, stopSignal, last, check, loop.requests)
    {
      Nap(isA, first, from);
      assert loop.steps - 1 == old(loop.steps);
    }

    /**
     * The part of signal's inner loop for a frame that is due before the end time: stop_signal ends
     * the playback; so does the is_running check, made when more than a second has passed since the
     * last one, when it answers false (LinkDown) or raises; an entry that is not a frame, or no
     * slot to write to, raises; otherwise the frame is written to `characteristic`, the clock is
     * read again and the power gate is opened.
     */
    method SendFrame(entry: Estim.Entry, i: nat, characteristic: Option<Uuid>, curTime: int, check0: int)
      returns (end: Option<PlaybackEnd>, lastTime: int, lastPowerCheck: int)
      requires Valid()
      requires i < Length(entry)
      requires characteristic.Some? ==> characteristic.value != PwmAB2Uuid
      modifies this`isConnected, this`slots, this`battery, this`canUpdatePower
      modifies client`isConnected, client`connectCount, client`timeout, client`readCount, client`trace
      modifies loop
      ensures Valid()
      ensures old(loop.now) <= loop.now && old(loop.steps) <= loop.steps
      ensures end != Some(Finished) && end != Some(Hang)
      ensures end == Some(Stopped) <==> stopSignal
      // the check is due after more than a second; it passes when PWM_AB2 can be read
      ensures var due := curTime - check0 > 1000;
              var passes := !due || (old(isConnected) && old(slots).pwmAB2.Some?
                                     && client.readReplies(old(client.readCount)).Received?);
              && (!stopSignal && !passes ==>
                    end == Some(LinkDown) || (end.Some? && end.value.Failed? && ConnectFault(end.value.error)))
              && (end == Some(LinkDown) ==> !stopSignal && !passes)
              && (end == Some(Failed(NotAFrame)) <==> !stopSignal && passes && entry.Alternatives?)
              && (!stopSignal && passes && entry.Frames? ==>
                    if characteristic.Some? then end.None? else end == Some(Failed(NoCharacteristic)))
              && (!due ==> lastPowerCheck == check0 && client.readCount == old(client.readCount))
              && (!due ==> && isConnected == old(isConnected) && slots == old(slots) && battery == old(battery)
                           && client.isConnected == old(client.isConnected))
              // a check that passed stamps last_power_check with the clock read after it
              && (due && !stopSignal && passes ==> old(loop.now) <= lastPowerCheck <= loop.now)
              && (due && end.None? ==> lastPowerCheck <= lastTime)
      ensures stopSignal ==> unchanged(this) && unchanged(client) && unchanged(loop)
      ensures end.Some? ==> canUpdatePower == old(canUpdatePower)
      ensures end.None? ==> && entry.Frames? && characteristic.Some? && canUpdatePower
                            && old(loop.now) <= lastTime == loop.now
      ensures old(client.trace) <= client.trace
      ensures DataWrites(client.trace) == DataWrites(old(client.trace))
                + (if end.None? then [Write(characteristic.value, EncodePattern(entry.frames[i].pulse, entry.frames[i].pause,
                                                                               entry.frames[i].amplitude))]
                   else [])
    {
      lastTime, lastPowerCheck := 0, check0;
      if stopSignal {
        return Some(Stopped), lastTime, lastPowerCheck;
      }
      if curTime - lastPowerCheck > 1000 {
        var running := IsRunning();
        if running.Failure? {
          return Some(Failed(running.error)), lastTime, lastPowerCheck;
        }
        if !running.value {
          return Some(LinkDown), lastTime, lastPowerCheck;
        }
        lastPowerCheck := loop.Time();
      }
      if entry.Alternatives? {
        // a whole pattern does not unpack into (ax, ay, az)
        return Some(Failed(NotAFrame)), lastTime, lastPowerCheck;
      }
      var frame := entry.frames[i];
      var message := EncodePattern(frame.pulse, frame.pause, frame.amplitude);
      if characteristic.None? {
        return Some(Failed(NoCharacteristic)), lastTime, lastPowerCheck;
      }
      ghost var traceBefore := client.trace;
      client.WriteGattChar(characteristic.value, message);
      DataWritesAppend(traceBefore, Write(characteristic.value, message));
      lastTime := loop.Time();
      canUpdatePower := true;
      end := None;
    }

    /**
     * A frame of signal's inner loop that is due before the end time: send it with SendFrame and,
     * once written, record it after the round's earlier frames `played0` and sleep 10 ms.
     */
    method PlayDue(name: string, i: nat, characteristic: Option<Uuid>, stopTime: int, ghost round: nat,
                   curTime: int, check0: int, ghost start: int, ghost target: Uuid, ghost isA: bool,
                   ghost first: string, ghost from: nat, ghost played0: seq<Sent>, ghost earlier: seq<Write>,
                   ghost turn: Turn)
      returns (end: Option<PlaybackEnd>, lastTime: int, lastPowerCheck: int, ghost played: seq<Sent>)
      requires Valid()
      requires && turn.step < loop.steps && !switchPattern && turn.stopped == stopSignal && turn.reading == curTime
               && turn.check == check0
      requires name in patterns && i < Length(patterns[name])
      requires characteristic.Some? ==> characteristic.value != PwmAB2Uuid && target == characteristic.value
      requires start <= curTime <= loop.now && curTime < stopTime
      requires RoundPlayed(played0, round, name, i, start, stopTime, patterns)
      requires |played0| > 0 ==> curTime >= played0[|played0| - 1].done + 100
      requires DataWrites(client.trace) == earlier + Written(target, played0)
      requires from <= loop.steps && Follows(Name(isA), first, isA, loop.requests, from, loop.steps)
      modifies this`patternNameA, this`patternNameB, this`switchPattern, this`stopSignal, this`isConnected
      modifies this`powA, this`powB, this`canUpdatePower, this`slots, this`battery
      modifies client`trace, client`readCount, client`isConnected, client`connectCount, client`timeout
      modifies loop
      ensures Valid()
      ensures old(loop.now) <= loop.now && old(loop.steps) <= loop.steps
      ensures Follows(Name(isA), first, isA, loop.requests, from, loop.steps)
      ensures old(client.trace) <= client.trace
      ensures end != Some(Finished) && end != Some(Hang)
      ensures end == Some(Stopped) ==> stopSignal
      ensures end == Some(Stopped) <==> old(stopSignal)
      ensures end == Some(Failed(NotAFrame)) ==> patterns[name].Alternatives?
      ensures end.Some? && end.value.Failed? && end.value.error != NotAFrame ==> ConnectFault(end.value.error)
      ensures end.Some? ==> played == played0 && stopSignal == old(stopSignal) && switchPattern == old(switchPattern)
      ensures end.None? ==> && patterns[name].Frames? && characteristic.Some? && loop.now >= old(loop.now) + 10
                            && curTime <= lastTime
                            && played == played0 + [Sent(round, name, i, patterns[name].frames[i], curTime, lastTime)]
      // after a write, the pass `turn` that took the reading `curTime` hands over as HandedAt says
      ensures end.None? ==>
                HandedAt(turn.(did := Wrote), loop.steps, loop.now, switchPattern, stopSignal, lastTime, lastPowerCheck,
                         loop.requests)
      ensures RoundPlayed(played, round, name, i + 1, start, stopTime, patterns)
      ensures DataWrites(client.trace) == earlier + Written(target, played)
      ensures !old(stopSignal) && curTime - check0 <= 1000 ==>
                && (patterns[name].Alternatives? ==> end == Some(Failed(NotAFrame)))
                && (patterns[name].Frames? ==> if characteristic.Some? then end.None? else end == Some(Failed(NoCharacteristic)))
    {
      played := played0;
      ghost var before := DataWrites(client.trace);
      end, lastTime, lastPowerCheck := SendFrame(patterns[name], i, characteristic, curTime, check0);
      if end.Some? {
        assert |played| > 0 ==> played[|played| - 1].index < i;
        return;
      }
      played := Settle(name, i, round, curTime, lastTime, lastPowerCheck, check0, start, stopTime, target, isA, first,
                       from, played0, earlier, before, turn);
    }

    /**
     * The end of a pass of signal's inner loop that wrote item `i` of pattern `name` at `curTime`,
     * finishing at `lastTime`: the frame joins the round's earlier frames `played0`, and the pass
     * sleeps 10 ms, handing over as HandedAt says.
     */
    method Settle(name: string, i: nat, ghost round: nat, curTime: int, lastTime: int, lastPowerCheck: int,
                  check0: int, ghost start: int, stopTime: int, ghost target: Uuid, ghost isA: bool,
                  ghost first: string, ghost from: nat, ghost played0: seq<Sent>, ghost earlier: seq<Write>,
                  ghost before: seq<Write>, ghost turn: Turn)
      returns (ghost played: seq<Sent>)
      requires Valid()
      requires from <= loop.steps && Follows(Name(isA), first, isA, loop.requests, from, loop.steps)
      requires && turn.step < loop.steps && !switchPattern && turn.stopped == stopSignal && turn.reading == curTime
               && turn.check == check0
      requires name in patterns && patterns[name].Frames? && i < |patterns[name].frames|
      requires start <= curTime <= lastTime <= loop.now && curTime < stopTime
      requires if curTime - check0 > 1000 then curTime <= lastPowerCheck <= lastTime else lastPowerCheck == check0
      requires RoundPlayed(played0, round, name, i, start, stopTime, patterns)
      requires |played0| > 0 ==> curTime >= played0[|played0| - 1].done + 100
      requires before == earlier + Written(target, played0)
      requires var f := patterns[name].frames[i];
               DataWrites(client.trace) == before + [Write(target, EncodePattern(f.pulse, f.pause, f.amplitude))]
      modifies this`patternNameA, this`patternNameB, this`switchPattern, this`stopSignal, this`isConnected
      modifies this`powA, this`powB, this`canUpdatePower, client`trace, client`readCount, client`isConnected
      modifies loop
      ensures Valid()
      ensures loop.now >= old(loop.now) + 10 && loop.steps == old(loop.steps) + 1
      ensures Follows(Name(isA), old(Name(isA)), isA, loop.requests, old(loop.steps), loop.steps)
      ensures Follows(Name(isA), first, isA, loop.requests, from, loop.steps)
      ensures old(client.trace) <= client.trace
      ensures played == played0 + [Sent(round, name, i, patterns[name].frames[i], curTime, lastTime)]
      ensures RoundPlayed(played, round, name, i + 1, start, stopTime, patterns)
      ensures DataWrites(client.trace) == earlier + Written(target, played)
      ensures HandedAt(turn.(did := Wrote), loop.steps, loop.now, switchPattern, stopSignal, lastTime, lastPowerCheck,
                       loop.requests)
    {
      ghost var s := Sent(round, name, i, patterns[name].frames[i], curTime, lastTime);
      PlayFrame(played0, s, target, round, name, i, start, stopTime, patterns, earlier, before, DataWrites(client.trace));
      played := played0 + [s];
      Pause(isA, first, from, turn.(did := Wrote), lastTime, lastPowerCheck);
    }

    /**
     * What a round has done after `i` items of pattern `name`, from the state `r` it started in:
     * the frames `played` are written, in order and spaced; the clock, the step count and the
     * trace only grew; the channel's name follows the one it had; `end` is how the playback
     * ended, if it did. When the first clock reading found the first frame due before `stopTime`,
     * with no stop and no check due, that frame was written then, or the entry's shape raised.
     */
    ghost predicate Progress(r: RoundStart, name: string, characteristic: Option<Uuid>, stopTime: int, round: nat,
                             start: int, target: Uuid, isA: bool, i: nat, curTime: int, lastTime: int,
                             lastPowerCheck: int, played: seq<Sent>, end: Option<PlaybackEnd>)
      reads this, loop, client
    {
      && Kept(r, name, characteristic, stopTime, round, start, target, i, lastTime, lastPowerCheck, played, end)
      && Clocked(r, stopTime, start, isA, i, curTime, end)
    }

    /** The part of Progress that does not depend on the clock. */
    ghost predicate Kept(r: RoundStart, name: string, characteristic: Option<Uuid>, stopTime: int, round: nat,
                         start: int, target: Uuid, i: nat, lastTime: int, lastPowerCheck: int, played: seq<Sent>,
                         end: Option<PlaybackEnd>)
      reads this, client
    {
      && Valid()
      && name in patterns && i <= Length(patterns[name])
      && (i == 0 ==> && !switchPattern && stopSignal == r.stopped
                     && lastPowerCheck == r.check && lastTime == r.last && end.None?)
      && end != Some(Finished) && end != Some(Hang)
      && (end == Some(Stopped) ==> stopSignal)
      && (end == Some(Failed(NotAFrame)) ==> patterns[name].Alternatives?)
      && (end.Some? && end.value.Failed? && end.value.error != NotAFrame ==> ConnectFault(end.value.error))
      && RoundPlayed(played, round, name, i, start, stopTime, patterns)
      && (|played| > 0 ==> played[0].at >= r.last + 100 && characteristic.Some?)
      && lastTime == (if |played| > 0 then played[|played| - 1].done else r.last)
      && DataWrites(client.trace) == r.earlier + Written(target, played)
      && r.trace <= client.trace
      && (var first := r.now + loop.drift(r.steps);
          i > 0 && !r.stopped && first - r.last >= 100 && first < stopTime && first - r.check <= 1000 ==>
            if patterns[name].Frames? && characteristic.Some?
            then |played| > 0 && played[0].index == 0 && played[0].at == first
            else end == Some(Failed(if patterns[name].Alternatives? then NotAFrame else NoCharacteristic)))
    }

    /** The part of Progress that depends on the clock and the step count. */
    ghost predicate Clocked(r: RoundStart, stopTime: int, start: int, isA: bool, i: nat, curTime: int,
                            end: Option<PlaybackEnd>)
      reads this, loop
    {
      && start <= curTime <= loop.now && r.now <= loop.now && r.steps <= loop.steps
      && (i > 0 && end.None? ==> curTime >= r.now && (loop.now >= r.now + 10 || curTime >= stopTime))
      && Follows(Name(isA), r.name, isA, loop.requests, r.steps, loop.steps)
    }

    /** What a round has done once its loop has run at least once, in the terms PlayRound states it. */
    lemma RoundEnds(r: RoundStart, name: string, characteristic: Option<Uuid>, stopTime: int, round: nat,
                    start: int, target: Uuid, isA: bool, i: nat, curTime: int, lastTime: int,
                    lastPowerCheck: int, played: seq<Sent>, end: Option<PlaybackEnd>, log: seq<Turn>, done: bool)
      requires Progress(r, name, characteristic, stopTime, round, start, target, isA, i, curTime, lastTime,
                        lastPowerCheck, played, end)
      requires Logged(r, name, characteristic, stopTime, log, played, i, done, end, lastTime, lastPowerCheck)
      requires i > 0 && (done || i == Length(patterns[name]))
      ensures 0 < |log| <= Length(patterns[name])
      ensures Turns(log, played, r.last, r.check, stopTime, patterns[name], characteristic.Some?, loop.requests)
      ensures log[0].step == r.steps && log[0].stopped == r.stopped && log[0].reading == r.now + loop.drift(r.steps)
      ensures var t := log[|log| - 1];
              && (t.did == Early || t.did == Wrote ==> |log| == Length(patterns[name]))
              && end == (if t.did.Ended? then Some(t.did.how) else None)
      ensures Valid()
      ensures start <= curTime <= loop.now
      ensures end.None? ==> curTime >= r.now && (loop.now >= r.now + 10 || curTime >= stopTime)
      ensures end != Some(Finished) && end != Some(Hang)
      ensures end == Some(Stopped) ==> stopSignal
      ensures end == Some(Failed(NotAFrame)) ==> patterns[name].Alternatives?
      ensures end.Some? && end.value.Failed? && end.value.error != NotAFrame ==> ConnectFault(end.value.error)
      ensures RoundPlayed(played, round, name, Length(patterns[name]), start, stopTime, patterns)
      ensures |played| > 0 ==> played[0].at >= r.last + 100 && characteristic.Some?
      ensures lastTime == if |played| > 0 then played[|played| - 1].done else r.last
      ensures DataWrites(client.trace) == r.earlier + Written(target, played)
      ensures r.trace <= client.trace
      ensures r.steps <= loop.steps
      ensures Follows(Name(isA), r.name, isA, loop.requests, r.steps, loop.steps)
      ensures var first := r.now + loop.drift(r.steps);
              !r.stopped && first - r.last >= 100 && first < stopTime && first - r.check <= 1000 ==>
                && (patterns[name].Alternatives? ==> end == Some(Failed(NotAFrame)))
                && (patterns[name].Frames? && characteristic.None? ==> end == Some(Failed(NoCharacteristic)))
                && (patterns[name].Frames? && characteristic.Some? ==>
                      |played| > 0 && played[0].index == 0 && played[0].at == first)
    {
    }

    /** A pass that read `curTime` at or after `stopTime` breaks the round having written nothing. */
    lemma Overdue(r: RoundStart, name: string, characteristic: Option<Uuid>, stopTime: int, round: nat, start: int,
                  target: Uuid, i: nat, curTime: int, last0: int, check0: int, played0: seq<Sent>)
      requires Kept(r, name, characteristic, stopTime, round, start, target, i, last0, check0, played0, None)
      requires i < Length(patterns[name])
      requires i == 0 ==> curTime == r.now + loop.drift(r.steps)
      requires curTime >= stopTime
      ensures Kept(r, name, characteristic, stopTime, round, start, target, i + 1, last0, check0, played0, None)
    {
    }

    /**
     * A pass of signal's inner loop that read `curTime` less than 100 ms after the last write:
     * the item is skipped, not delayed, and the pass only sleeps 10 ms.
     */
    method Skip(name: string, characteristic: Option<Uuid>, stopTime: int, ghost round: nat, ghost start: int,
                ghost target: Uuid, ghost isA: bool, ghost r: RoundStart,
                i: nat, curTime: int, last0: int, check0: int, ghost played0: seq<Sent>, ghost seen: Turn,
                ghost step0: nat)
      returns (ghost turn: Turn)
      requires Kept(r, name, characteristic, stopTime, round, start, target, i, last0, check0, played0, None)
      requires start <= curTime && r.now <= curTime
      requires r.steps <= step0 < loop.steps && Follows(Name(isA), r.name, isA, loop.requests, r.steps, step0)
      requires i < Length(patterns[name])
      requires && seen.step < loop.steps && !seen.switched && !switchPattern && seen.reading == curTime == loop.now
               && seen.last == last0 && seen.check == check0 && seen.stopped == stopSignal
      requires i == 0 ==> curTime == r.now + loop.drift(r.steps)
      requires curTime - last0 < 100
      modifies this`patternNameA, this`patternNameB, this`switchPattern, this`stopSignal, this`isConnected
      modifies this`powA, this`powB, this`canUpdatePower, client`trace, client`readCount, client`isConnected
      modifies loop
      ensures Progress(r, name, characteristic, stopTime, round, start, target, isA, i + 1, curTime, last0,
                       check0, played0, None)
      ensures turn == seen.(did := Early) && Decided(turn, stopTime, patterns[name], characteristic.Some?)
      ensures HandedAt(turn, loop.steps, loop.now, switchPattern, stopSignal, last0, check0, loop.requests)
    {
      turn := seen.(did := Early);
      FollowsTrans(Name(isA), Name(isA), r.name, isA, loop.requests, r.steps, step0, loop.steps);
      Pause(isA, r.name, r.steps, turn, last0, check0);
    }

    /**
     * A pass of signal's inner loop that read `curTime` at least 100 ms after the last write and
     * before `stopTime`: the item is played with PlayDue, and the pass decides as Decided says.
     */
    method Due(name: string, characteristic: Option<Uuid>, stopTime: int, ghost round: nat, ghost start: int,
               ghost target: Uuid, ghost isA: bool, ghost r: RoundStart,
               i: nat, curTime: int, last0: int, check0: int, ghost played0: seq<Sent>, ghost seen: Turn,
               ghost step0: nat)
      returns (end: Option<PlaybackEnd>, lastTime: int, lastPowerCheck: int, ghost played: seq<Sent>, ghost turn: Turn)
      requires Kept(r, name, characteristic, stopTime, round, start, target, i, last0, check0, played0, None)
      requires start <= curTime && r.now <= curTime
      requires r.steps <= step0 < loop.steps && Follows(Name(isA), r.name, isA, loop.requests, r.steps, step0)
      requires i < Length(patterns[name])
      requires characteristic.Some? ==> characteristic.value != PwmAB2Uuid && target == characteristic.value
      requires && seen.step < loop.steps && !seen.switched && !switchPattern && seen.reading == curTime == loop.now
               && seen.last == last0 && seen.check == check0 && seen.stopped == stopSignal
      requires i == 0 ==> curTime == r.now + loop.drift(r.steps)
      requires curTime - last0 >= 100 && curTime < stopTime
      modifies this`patternNameA, this`patternNameB, this`switchPattern, this`stopSignal, this`isConnected
      modifies this`powA, this`powB, this`canUpdatePower, this`slots, this`battery
      modifies client`trace, client`readCount, client`isConnected, client`connectCount, client`timeout
      modifies loop
      ensures Progress(r, name, characteristic, stopTime, round, start, target, isA, i + 1, curTime, lastTime,
                       lastPowerCheck, played, end)
      ensures turn == seen.(did := if end.None? then Wrote else Ended(end.value))
      ensures Decided(turn, stopTime, patterns[name], characteristic.Some?)
      ensures end == if turn.did.Ended? then Some(turn.did.how) else None
      ensures turn.did == Wrote ==> && |played| == |played0| + 1 && played[..|played0|] == played0
                                    && played[|played0|].index == i && played[|played0|].at == turn.reading
      ensures turn.did != Wrote ==> played == played0
      ensures turn.did == Wrote ==>
                HandedAt(turn, loop.steps, loop.now, switchPattern, stopSignal, lastTime, lastPowerCheck, loop.requests)
    {
      FollowsTrans(Name(isA), Name(isA), r.name, isA, loop.requests, r.steps, step0, loop.steps);
      end, lastTime, lastPowerCheck, played :=
        PlayDue(name, i, characteristic, stopTime, round, curTime, check0, start, target, isA,
                r.name, r.steps, played0, r.earlier, seen);
      turn := seen.(did := if end.None? then Wrote else Ended(end.value));
      if end.Some? {
        lastTime := last0;
      }
    }

    /**
     * The rest of a pass of signal's inner loop once switch_pattern was found lowered and the
     * clock read `curTime`: a reading less than 100 ms after the last write skips the item (Skip),
     * one at or after `stopTime` ends the round, and any other plays it (Due). `seen` is what the
     * pass found; `turn` adds what it did.
     */
    method Timed(name: string, characteristic: Option<Uuid>, stopTime: int, ghost round: nat, ghost start: int,
                 ghost target: Uuid, ghost isA: bool, ghost r: RoundStart,
                 i: nat, curTime: int, last0: int, check0: int, ghost played0: seq<Sent>, ghost seen: Turn,
                 ghost step0: nat)
      returns (brk: bool, end: Option<PlaybackEnd>, lastTime: int, lastPowerCheck: int,
               ghost played: seq<Sent>, ghost turn: Turn)
      requires Kept(r, name, characteristic, stopTime, round, start, target, i, last0, check0, played0, None)
      requires start <= curTime && r.now <= curTime
      requires r.steps <= step0 < loop.steps && Follows(Name(isA), r.name, isA, loop.requests, r.steps, step0)
      requires i < Length(patterns[name])
      requires characteristic.Some? ==> characteristic.value != PwmAB2Uuid && target == characteristic.value
      requires seen == Turn(step0, false, curTime, last0, check0, stopSignal, Early)
      requires !switchPattern && curTime == loop.now
      requires i == 0 ==> curTime == r.now + loop.drift(r.steps)
      modifies this`patternNameA, this`patternNameB, this`switchPattern, this`stopSignal, this`isConnected
      modifies this`powA, this`powB, this`canUpdatePower, this`slots, this`battery
      modifies client`trace, client`readCount, client`isConnected, client`connectCount, client`timeout
      modifies loop
      ensures Progress(r, name, characteristic, stopTime, round, start, target, isA, i + 1, curTime, lastTime,
                       lastPowerCheck, played, end)
      ensures turn == seen.(did := turn.did)
      ensures Decided(turn, stopTime, patterns[name], characteristic.Some?)
      ensures brk <==> turn.did == Late
      ensures end == if turn.did.Ended? then Some(turn.did.how) else None
      ensures turn.did == Wrote ==> && |played| == |played0| + 1 && played[..|played0|] == played0
                                    && played[|played0|].index == i && played[|played0|].at == turn.reading
      ensures turn.did != Wrote ==> played == played0
      ensures turn.did == Early || turn.did == Wrote ==>
                HandedAt(turn, loop.steps, loop.now, switchPattern, stopSignal, lastTime, lastPowerCheck, loop.requests)
    {
      brk, end, lastTime, lastPowerCheck, played := false, None, last0, check0, played0;
      if curTime - last0 < 100 {
        turn := Skip(name, characteristic, stopTime, round, start, target, isA, r, i, curTime, last0, check0, played0,
                     seen, step0);
      } else if curTime >= stopTime {
        Overdue(r, name, characteristic, stopTime, round, start, target, i, curTime, last0, check0, played0);
        brk := true;
        turn := seen.(did := Late);
      } else {
        end, lastTime, lastPowerCheck, played, turn :=
          Due(name, characteristic, stopTime, round, start, target, isA, r, i, curTime, last0, check0, played0,
              seen, step0);
      }
    }

    /**
     * One pass of signal's inner loop over item `i` of pattern `name`, in the order of its tests:
     * a raised switch_pattern ends the round (`brk`); otherwise the pass goes on as Timed says.
     * `turn` records what the pass found and did.
     */
    method Tick(name: string, characteristic: Option<Uuid>, stopTime: int, ghost round: nat, ghost start: int,
                ghost target: Uuid, ghost isA: bool, ghost r: RoundStart,
                i: nat, cur0: int, last0: int, check0: int, ghost played0: seq<Sent>)
      returns (brk: bool, end: Option<PlaybackEnd>, curTime: int, lastTime: int, lastPowerCheck: int,
               ghost played: seq<Sent>, ghost turn: Turn)
      requires Progress(r, name, characteristic, stopTime, round, start, target, isA, i, cur0, last0, check0, played0, None)
      requires i == 0 ==> loop.now == r.now && loop.steps == r.steps
      requires i < Length(patterns[name])
      requires characteristic.Some? ==> characteristic.value != PwmAB2Uuid && target == characteristic.value
      modifies this`patternNameA, this`patternNameB, this`switchPattern, this`stopSignal, this`isConnected
      modifies this`powA, this`powB, this`canUpdatePower, this`slots, this`battery
      modifies client`trace, client`readCount, client`isConnected, client`connectCount, client`timeout
      modifies loop
      ensures Progress(r, name, characteristic, stopTime, round, start, target, isA, i + 1, curTime, lastTime,
                       lastPowerCheck, played, end)
      // what the pass found, and what it decided
      ensures && turn.step == old(loop.steps) && turn.switched == old(switchPattern) && turn.stopped == old(stopSignal)
              && turn.last == last0 && turn.check == check0
      ensures !turn.switched ==> turn.reading == old(loop.now) + loop.drift(old(loop.steps))
      ensures Decided(turn, stopTime, patterns[name], characteristic.Some?)
      ensures brk <==> turn.did == Switched || turn.did == Late
      ensures end == if turn.did.Ended? then Some(turn.did.how) else None
      ensures turn.did == Wrote ==> && |played| == |played0| + 1 && played[..|played0|] == played0
                                    && played[|played0|].index == i && played[|played0|].at == turn.reading
      ensures turn.did != Wrote ==> played == played0
      ensures turn.did == Early || turn.did == Wrote ==>
                HandedAt(turn, loop.steps, loop.now, switchPattern, stopSignal, lastTime, lastPowerCheck, loop.requests)
    {
      if switchPattern {
        brk, end, curTime, lastTime, lastPowerCheck, played := true, None, cur0, last0, check0, played0;
        turn := Turn(loop.steps, true, loop.now, last0, check0, stopSignal, Switched);
        return;
      }
      ghost var step := loop.steps;
      curTime := loop.Time();
      ghost var seen := Turn(step, false, curTime, last0, check0, stopSignal, Early);
      brk, end, lastTime, lastPowerCheck, played, turn :=
        Timed(name, characteristic, stopTime, round, start, target, isA, r, i, curTime, last0, check0, played0,
              seen, step);
    }

    /**
     * The passes `log` a round has made over its first `i` items, from the state `r` it started
     * in: they are Turns of the round's entry; the first took the round's first clock reading;
     * `done` says the last one broke the round or ended the playback, with `end`; until then the
     * state is the one the last pass handed over.
     */
    ghost predicate Logged(r: RoundStart, name: string, characteristic: Option<Uuid>, stopTime: int, log: seq<Turn>,
                           played: seq<Sent>, i: nat, done: bool, end: Option<PlaybackEnd>, lastTime: int,
                           lastPowerCheck: int)
      reads this, loop
    {
      && name in patterns
      && |log| == i
      && Turns(log, played, r.last, r.check, stopTime, patterns[name], characteristic.Some?, loop.requests)
      && (i == 0 ==> loop.now == r.now && loop.steps == r.steps && !done)
      && (i > 0 ==> log[0].step == r.steps && log[0].stopped == r.stopped && log[0].reading == r.now + loop.drift(r.steps))
      && (i > 0 ==> var t := log[i - 1];
                    && (done <==> !(t.did == Early || t.did == Wrote))
                    && end == (if t.did.Ended? then Some(t.did.how) else None))
      && (i > 0 && !done ==>
            HandedAt(log[i - 1], loop.steps, loop.now, switchPattern, stopSignal, lastTime, lastPowerCheck, loop.requests))
    }

    /** One pass of signal's inner loop, Tick, recorded at the end of the round's log. */
    method Step(name: string, characteristic: Option<Uuid>, stopTime: int, ghost round: nat, ghost start: int,
                ghost target: Uuid, ghost isA: bool, ghost r: RoundStart,
                i: nat, cur0: int, last0: int, check0: int, ghost played0: seq<Sent>, ghost log0: seq<Turn>,
                ghost done0: bool, ghost end0: Option<PlaybackEnd>)
      returns (done: bool, end: Option<PlaybackEnd>, curTime: int, lastTime: int, lastPowerCheck: int,
               ghost played: seq<Sent>, ghost log: seq<Turn>)
      requires !done0 && end0.None?
      requires Progress(r, name, characteristic, stopTime, round, start, target, isA, i, cur0, last0, check0, played0, end0)
      requires Logged(r, name, characteristic, stopTime, log0, played0, i, done0, end0, last0, check0)
      requires i < Length(patterns[name])
      requires characteristic.Some? ==> characteristic.value != PwmAB2Uuid && target == characteristic.value
      modifies this`patternNameA, this`patternNameB, this`switchPattern, this`stopSignal, this`isConnected
      modifies this`powA, this`powB, this`canUpdatePower, this`slots, this`battery
      modifies client`trace, client`readCount, client`isConnected, client`connectCount, client`timeout
      modifies loop
      ensures Progress(r, name, characteristic, stopTime, round, start, target, isA, i + 1, curTime, lastTime,
                       lastPowerCheck, played, end)
      ensures Logged(r, name, characteristic, stopTime, log, played, i + 1, done, end, lastTime, lastPowerCheck)
      ensures done || end.None?
    {
      var brk;
      ghost var turn;
      ghost var now := loop.now;
      brk, end, curTime, lastTime, lastPowerCheck, played, turn :=
        Tick(name, characteristic, stopTime, round, start, target, isA, r, i, cur0, last0, check0, played0);
      TurnsAppend(log0, played0, turn, played, now, r.last, r.check, stopTime, patterns[name], characteristic.Some?,
                  loop.requests);
      log := log0 + [turn];
      done := end.Some? || brk;
    }

    /** The loop of a round: Step after Step, from the state `r` the round started in, until a pass breaks or ends. */
    method Passes(name: string, characteristic: Option<Uuid>, stopTime: int, ghost round: nat, ghost start: int,
                  ghost target: Uuid, ghost isA: bool, ghost r: RoundStart, cur0: int, last0: int, check0: int)
      returns (i: nat, done: bool, end: Option<PlaybackEnd>, curTime: int, lastTime: int, lastPowerCheck: int,
               ghost played: seq<Sent>, ghost log: seq<Turn>)
      requires Progress(r, name, characteristic, stopTime, round, start, target, isA, 0, cur0, last0, check0, [], None)
      requires Logged(r, name, characteristic, stopTime, [], [], 0, false, None, last0, check0)
      requires Length(patterns[name]) > 0
      requires characteristic.Some? ==> characteristic.value != PwmAB2Uuid && target == characteristic.value
      modifies this`patternNameA, this`patternNameB, this`switchPattern, this`stopSignal, this`isConnected
      modifies this`powA, this`powB, this`canUpdatePower, this`slots, this`battery
      modifies client`trace, client`readCount, client`isConnected, client`connectCount, client`timeout
      modifies loop
      ensures Progress(r, name, characteristic, stopTime, round, start, target, isA, i, curTime, lastTime,
                       lastPowerCheck, played, end)
      ensures Logged(r, name, characteristic, stopTime, log, played, i, done, end, lastTime, lastPowerCheck)
      ensures i > 0 && (done || i == Length(patterns[name]))
    {
      curTime, lastTime, lastPowerCheck := cur0, last0, check0;
      played, log := [], [];
      end := None;
      var n := Length(patterns[name]);
      i, done := 0, false;
      while i < n && !done
        invariant 0 <= i <= n && (done || end.None?) && (done ==> i > 0)
        invariant Progress(r, name, characteristic, stopTime, round, start, target, isA, i, curTime, lastTime,
                           lastPowerCheck, played, end)
        invariant Logged(r, name, characteristic, stopTime, log, played, i, done, end, lastTime, lastPowerCheck)
      {
        done, end, curTime, lastTime, lastPowerCheck, played, log :=
          Step(name, characteristic, stopTime, round, start, target, isA, r, i, curTime, lastTime, lastPowerCheck,
               played, log, done, end);
        i := i + 1;
      }
    }

    /**
     * One round of signal's outer loop: the frames of pattern `name` in order, from the first.
     * A frame due less than 100 ms after the previous write is skipped; reaching `stopTime` or a
     * raised switch_pattern ends the round; stop_signal, the once-a-second is_running check
     * answering false or raising, or an exception ends the playback (`end` is then Some).
     * `played` lists the frames written. When the first clock reading finds the first frame due,
     * before `stopTime`, with no stop and no check due, that frame is written at once, or the
     * entry's shape is raised.
     */
    method PlayRound(name: string, characteristic: Option<Uuid>, stopTime: int, ghost round: nat,
                     cur0: int, last0: int, check0: int, ghost start: int, ghost target: Uuid, ghost isA: bool)
      returns (end: Option<PlaybackEnd>, curTime: int, lastTime: int, lastPowerCheck: int, ghost played: seq<Sent>,
               ghost log: seq<Turn>)
      requires Valid()
      requires name in patterns && Length(patterns[name]) > 0
      requires !switchPattern
      requires characteristic.Some? ==> characteristic.value != PwmAB2Uuid && target == characteristic.value
      requires start <= cur0 <= loop.now
      modifies this`patternNameA, this`patternNameB, this`switchPattern, this`stopSignal, this`isConnected
      modifies this`powA, this`powB, this`canUpdatePower, this`slots, this`battery
      modifies client`trace, client`readCount, client`isConnected, client`connectCount, client`timeout
      modifies loop
      ensures Valid()
      ensures start <= curTime <= loop.now
      ensures end.None? ==> curTime >= old(loop.now) && (loop.now >= old(loop.now) + 10 || curTime >= stopTime)
      ensures end != Some(Finished) && end != Some(Hang)
      ensures end == Some(Stopped) ==> stopSignal
      ensures end == Some(Failed(NotAFrame)) ==> patterns[name].Alternatives?
      ensures end.Some? && end.value.Failed? && end.value.error != NotAFrame ==> ConnectFault(end.value.error)
      ensures RoundPlayed(played, round, name, Length(patterns[name]), start, stopTime, patterns)
      ensures |played| > 0 ==> played[0].at >= last0 + 100 && characteristic.Some?
      ensures lastTime == if |played| > 0 then played[|played| - 1].done else last0
      ensures DataWrites(client.trace) == DataWrites(old(client.trace)) + Written(target, played)
      ensures old(client.trace) <= client.trace
      ensures old(loop.steps) <= loop.steps
      ensures Follows(Name(isA), old(Name(isA)), isA, loop.requests, old(loop.steps), loop.steps)
      ensures var first := old(loop.now + loop.drift(loop.steps));
              !old(stopSignal) && first - last0 >= 100 && first < stopTime && first - check0 <= 1000 ==>
                && (patterns[name].Alternatives? ==> end == Some(Failed(NotAFrame)))
                && (patterns[name].Frames? && characteristic.None? ==> end == Some(Failed(NoCharacteristic)))
                && (patterns[name].Frames? && characteristic.Some? ==>
                      |played| > 0 && played[0].index == 0 && played[0].at == first)
      // pass by pass: item k is handled by pass k, which decides and hands over as Turns says
      ensures 0 < |log| <= Length(patterns[name])
      ensures Turns(log, played, last0, check0, stopTime, patterns[name], characteristic.Some?, loop.requests)
      ensures && log[0].step == old(loop.steps) && log[0].stopped == old(stopSignal)
              && log[0].reading == old(loop.now + loop.drift(loop.steps))
      ensures var t := log[|log| - 1];
              && (t.did == Early || t.did == Wrote ==> |log| == Length(patterns[name]))
              && end == (if t.did.Ended? then Some(t.did.how) else None)
    {
      ghost var r := RoundStart(loop.now, loop.steps, Name(isA), client.trace, DataWrites(client.trace),
                                last0, check0, stopSignal);
      var i, done;
      i, done, end, curTime, lastTime, lastPowerCheck, played, log :=
        Passes(name, characteristic, stopTime, round, start, target, isA, r, cur0, last0, check0);
      RoundEnds(r, name, characteristic, stopTime, round, start, target, isA, i, curTime, lastTime, lastPowerCheck,
                played, end, log, done);
    }

    /**
     * The rest of a pass of signal's outer loop once the channel's name `name` was read, found in
     * the table with something in it, and switch_pattern lowered: a round of that pattern after
     * the frames `sent0` written so far.
     */
    method PlayPattern(name: string, channel: string, characteristic: Option<Uuid>, stopTime: int, ghost round: nat,
                       cur0: int, last0: int, check0: int, ghost start: int, ghost target: Uuid, ghost first: string,
                       ghost sent0: seq<Sent>, ghost earlier: seq<Write>)
      returns (end: Option<PlaybackEnd>, curTime: int, lastTime: int, lastPowerCheck: int,
               ghost sent: seq<Sent>, ghost played: seq<Sent>)
      requires Valid()
      requires name == Name(channel == "a") && name in patterns && Length(patterns[name]) > 0 && !switchPattern
      requires characteristic.Some? ==> characteristic.value != PwmAB2Uuid && target == characteristic.value
      requires start <= cur0 <= loop.now
      requires Played(sent0, first, start, stopTime, patterns)
      requires |sent0| > 0 ==> sent0[|sent0| - 1].round < round && last0 == sent0[|sent0| - 1].done && characteristic.Some?
      requires round == 0 ==> first == name
      requires DataWrites(client.trace) == earlier + Written(target, sent0)
      modifies this`patternNameA, this`patternNameB, this`switchPattern, this`stopSignal, this`isConnected
      modifies this`powA, this`powB, this`canUpdatePower, this`slots, this`battery
      modifies client`trace, client`readCount, client`isConnected, client`connectCount, client`timeout
      modifies loop
      ensures Valid()
      ensures start <= curTime <= loop.now
      ensures end.None? ==> curTime >= old(loop.now) && (loop.now >= old(loop.now) + 10 || curTime >= stopTime)
      ensures end != Some(Finished) && end != Some(Hang)
      ensures end == Some(Stopped) ==> stopSignal
      ensures end == Some(Failed(NotAFrame)) ==> patterns[name].Alternatives?
      ensures end.Some? && end.value.Failed? && end.value.error != NotAFrame ==> ConnectFault(end.value.error)
      ensures sent == sent0 + played
      ensures forall k | 0 <= k < |played| :: played[k].round == round && played[k].name == name
      ensures Played(sent, first, start, stopTime, patterns)
      ensures |sent| > 0 ==> sent[|sent| - 1].round <= round && lastTime == sent[|sent| - 1].done && characteristic.Some?
      ensures DataWrites(client.trace) == earlier + Written(target, sent)
      ensures old(client.trace) <= client.trace
      ensures old(loop.steps) <= loop.steps
      ensures Follows(Name(channel == "a"), name, channel == "a", loop.requests, old(loop.steps), loop.steps)
      ensures var firstReading := old(loop.now + loop.drift(loop.steps));
              !old(stopSignal) && firstReading - last0 >= 100 && firstReading < stopTime && firstReading - check0 <= 1000 ==>
                && (patterns[name].Alternatives? ==> end == Some(Failed(NotAFrame)))
                && (patterns[name].Frames? && characteristic.None? ==> end == Some(Failed(NoCharacteristic)))
                && (patterns[name].Frames? && characteristic.Some? ==>
                      |played| > 0 && played[0].index == 0 && played[0].at == firstReading)
    {
      ghost var before := DataWrites(client.trace);
      ghost var log;
      end, curTime, lastTime, lastPowerCheck, played, log :=
        PlayRound(name, characteristic, stopTime, round, cur0, last0, check0, start, target, channel == "a");
      RoundPlayedNames(played, round, name, Length(patterns[name]), start, stopTime, patterns);
      JoinRounds(sent0, played, round, name, Length(patterns[name]), start, stopTime, patterns, first);
      ExtendWrites(DataWrites(client.trace), before, earlier, target, sent0, played);
      sent := sent0 + played;
    }

    /**
     * One pass of signal's outer loop: read the channel's current pattern name `n`, lower
     * switch_pattern, and play a round of that pattern after the frames `sent0` written so far.
     * A name missing from the table raises; a pattern with nothing to iterate over spins forever.
     */
    method PlayNext(channel: string, characteristic: Option<Uuid>, stopTime: int, ghost round: nat,
                    cur0: int, last0: int, check0: int, ghost start: int, ghost target: Uuid, ghost first: string,
                    ghost sent0: seq<Sent>, ghost earlier: seq<Write>)
      returns (end: Option<PlaybackEnd>, curTime: int, lastTime: int, lastPowerCheck: int,
               ghost sent: seq<Sent>, ghost played: seq<Sent>)
      requires Valid()
      requires characteristic.Some? ==> characteristic.value != PwmAB2Uuid && target == characteristic.value
      requires start <= cur0 <= loop.now
      requires Played(sent0, first, start, stopTime, patterns)
      requires |sent0| > 0 ==> sent0[|sent0| - 1].round < round && last0 == sent0[|sent0| - 1].done && characteristic.Some?
      requires round == 0 ==> first == Name(channel == "a")
      requires DataWrites(client.trace) == earlier + Written(target, sent0)
      modifies this`patternNameA, this`patternNameB, this`switchPattern, this`stopSignal, this`isConnected
      modifies this`powA, this`powB, this`canUpdatePower, this`slots, this`battery
      modifies client`trace, client`readCount, client`isConnected, client`connectCount, client`timeout
      modifies loop
      ensures Valid()
      ensures start <= curTime <= loop.now
      ensures end.None? ==> curTime >= old(loop.now) && (loop.now >= old(loop.now) + 10 || curTime >= stopTime)
      ensures end != Some(Finished)
      ensures end == Some(Stopped) ==> stopSignal
      ensures var n := old(Name(channel == "a"));
              && (end == Some(Failed(UnknownPattern(n))) <==> n !in patterns)
              && (end == Some(Hang) <==> n in patterns && Length(patterns[n]) == 0)
              && (n !in patterns || Length(patterns[n]) == 0 ==> !switchPattern && played == [])
              && (end == Some(Failed(NotAFrame)) ==> n in patterns && patterns[n].Alternatives?)
              && sent == sent0 + played
              && forall k | 0 <= k < |played| :: played[k].round == round && played[k].name == n
      ensures end.Some? && end.value.Failed? && !end.value.error.UnknownPattern? && end.value.error != NotAFrame ==>
                ConnectFault(end.value.error)
      ensures Played(sent, first, start, stopTime, patterns)
      ensures |sent| > 0 ==> sent[|sent| - 1].round <= round && lastTime == sent[|sent| - 1].done && characteristic.Some?
      ensures DataWrites(client.trace) == earlier + Written(target, sent)
      ensures old(client.trace) <= client.trace
      ensures old(loop.steps) <= loop.steps
      ensures Follows(Name(channel == "a"), old(Name(channel == "a")), channel == "a", loop.requests, old(loop.steps), loop.steps)
      ensures var n := old(Name(channel == "a"));
              var firstReading := old(loop.now + loop.drift(loop.steps));
              && n in patterns && Length(patterns[n]) > 0 && !old(stopSignal)
              && firstReading - last0 >= 100 && firstReading < stopTime && firstReading - check0 <= 1000 ==>
                && (patterns[n].Alternatives? ==> end == Some(Failed(NotAFrame)))
                && (patterns[n].Frames? && characteristic.None? ==> end == Some(Failed(NoCharacteristic)))
                && (patterns[n].Frames? && characteristic.Some? ==>
                      |played| > 0 && played[0].index == 0 && played[0].at == firstReading)
    {
      curTime, lastTime, lastPowerCheck, sent, played := cur0, last0, check0, sent0, [];
      var name := if channel == "a" then patternNameA else patternNameB;
      switchPattern := false;
      if name !in patterns {
        return Some(Failed(UnknownPattern(name))), curTime, lastTime, lastPowerCheck, sent, played;
      }
      if Length(patterns[name]) == 0 {
        // Nothing to iterate over and nothing awaited: the outer loop spins with the clock unread.
        return Some(Hang), curTime, lastTime, lastPowerCheck, sent, played;
      }
      end, curTime, lastTime, lastPowerCheck, sent, played :=
        PlayPattern(name, channel, characteristic, stopTime, round, cur0, last0, check0, start, target, first, sent0, earlier);
    }

    /**
     * What signal's outer loop has done after `round` rounds, from the state `s` it started in:
     * the frames `sent` form a playback of the channel's names, which follow `patternName` since
     * request `from`; the trace only grew and its data writes are those frames; `end` is how the
     * playback ended, if it did. A name missing from the table, or a pattern with nothing in it,
     * ends the first round at once; when the first clock reading finds the first frame due before
     * `stopTime`, with no stop and no check due, that frame was written then, or the entry's
     * shape raised.
     */
    ghost predicate Session(s: PlaybackStart, channel: string, characteristic: Option<Uuid>, patternName: string,
                            stopTime: int, start: int, target: Uuid, from: nat, round: nat, curTime: int,
                            lastTime: int, lastPowerCheck: int, sent: seq<Sent>, end: Option<PlaybackEnd>)
      reads this, loop, client
    {
      var isA := channel == "a";
      && Valid()
      && start <= curTime <= loop.now
      && Played(sent, patternName, start, stopTime, patterns)
      && (round == 0 ==> && patternName == Name(isA) && sent == [] && curTime == s.cur && lastTime == s.last
                         && lastPowerCheck == s.check && stopSignal == s.stopped && loop.now == s.now
                         && loop.steps == s.steps && end.None?)
      && (round > 0 && s.cur < stopTime ==>
            && (patternName !in patterns ==> end == Some(Failed(UnknownPattern(patternName))) && sent == [])
            && (patternName in patterns && Length(patterns[patternName]) == 0 ==> end == Some(Hang) && sent == []))
      && (var first := s.now + loop.drift(s.steps);
          && round > 0 && patternName in patterns && Length(patterns[patternName]) > 0 && !s.stopped
          && first - s.last >= 100 && first < stopTime && first - s.check <= 1000 ==>
            if patterns[patternName].Frames? && characteristic.Some?
            then |sent| > 0 && sent[0].round == 0 && sent[0].index == 0 && sent[0].at == first
            else end == Some(Failed(if patterns[patternName].Alternatives? then NotAFrame else NoCharacteristic)) && sent == [])
      && (|sent| > 0 ==> sent[|sent| - 1].round < round && lastTime == sent[|sent| - 1].done && characteristic.Some?)
      && DataWrites(client.trace) == s.earlier + Written(target, sent)
      && s.trace <= client.trace
      && from <= loop.steps
      && Follows(Name(isA), patternName, isA, loop.requests, from, loop.steps)
      && AllFollow(sent, patternName, isA, loop.requests, from, loop.steps)
      && end != Some(Finished)
      && (end == Some(Stopped) ==> stopSignal)
      && (end == Some(Hang) ==>
            exists x | x in patterns && Length(patterns[x]) == 0 :: Follows(x, patternName, isA, loop.requests, from, loop.steps))
    }

    /** One iteration of signal's outer loop, a round played with PlayNext, and what it adds to the playback. */
    method Cycle(channel: string, characteristic: Option<Uuid>, patternName: string, stopTime: int, ghost start: int,
                 ghost target: Uuid, ghost from: nat, ghost s: PlaybackStart, ghost round: nat,
                 cur0: int, last0: int, check0: int, ghost sent0: seq<Sent>)
      returns (end: Option<PlaybackEnd>, curTime: int, lastTime: int, lastPowerCheck: int, ghost sent: seq<Sent>)
      requires Session(s, channel, characteristic, patternName, stopTime, start, target, from, round, cur0, last0, check0,
                       sent0, None)
      requires cur0 < stopTime
      requires characteristic.Some? ==> characteristic.value != PwmAB2Uuid && target == characteristic.value
      modifies this`patternNameA, this`patternNameB, this`switchPattern, this`stopSignal, this`isConnected
      modifies this`powA, this`powB, this`canUpdatePower, this`slots, this`battery
      modifies client`trace, client`readCount, client`isConnected, client`connectCount, client`timeout
      modifies loop
      ensures Session(s, channel, characteristic, patternName, stopTime, start, target, from, round + 1, curTime, lastTime,
                      lastPowerCheck, sent, end)
      ensures end.None? ==> curTime >= old(loop.now) && (loop.now >= old(loop.now) + 10 || curTime >= stopTime)
    {
      ghost var isA := channel == "a";
      ghost var steps, named := loop.steps, Name(isA);
      ghost var played;
      end, curTime, lastTime, lastPowerCheck, sent, played :=
        PlayNext(channel, characteristic, stopTime, round, cur0, last0, check0, start, target, patternName, sent0, s.earlier);
      FollowsTrans(Name(isA), named, patternName, isA, loop.requests, from, steps, loop.steps);
      FollowRound(sent0, played, named, patternName, isA, loop.requests, from, steps, loop.steps);
      if end == Some(Hang) {
        assert named in patterns && Length(patterns[named]) == 0
               && Follows(named, patternName, isA, loop.requests, from, loop.steps);
      }
    }

    /**
     * signal's outer loop, from its first reading of the clock: round after round of the channel's
     * current pattern until the clock reaches `stopTime` or the playback ends otherwise. `from`
     * numbers the first request of the other tasks that counts: the channel's name follows
     * `patternName` since then.
     */
    method Playback(channel: string, characteristic: Option<Uuid>, patternName: string, stopTime: int,
                    cur0: int, last0: int, check0: int, ghost start: int, ghost target: Uuid, ghost earlier: seq<Write>,
                    ghost from: nat)
      returns (end: PlaybackEnd, ghost sent: seq<Sent>)
      requires Valid()
      requires characteristic.Some? ==> characteristic.value != PwmAB2Uuid && target == characteristic.value
      requires start <= cur0 <= loop.now
      requires patternName == Name(channel == "a")
      requires DataWrites(client.trace) == earlier
      requires from <= loop.steps
      modifies this`patternNameA, this`patternNameB, this`switchPattern, this`stopSignal, this`isConnected
      modifies this`powA, this`powB, this`canUpdatePower, this`slots, this`battery
      modifies client`trace, client`readCount, client`isConnected, client`connectCount, client`timeout
      modifies loop
      ensures Valid()
      ensures start <= loop.now
      ensures Played(sent, patternName, start, stopTime, patterns)
      ensures AllFollow(sent, patternName, channel == "a", loop.requests, from, loop.steps)
      ensures |sent| > 0 ==> characteristic.Some?
      ensures DataWrites(client.trace) == earlier + Written(target, sent)
      ensures old(client.trace) <= client.trace
      ensures end == Finished ==> loop.now >= stopTime
      ensures end == Stopped ==> stopSignal
      ensures end == Hang ==> exists x | x in patterns && Length(patterns[x]) == 0 ::
                                Follows(x, patternName, channel == "a", loop.requests, from, loop.steps)
      ensures cur0 < stopTime && patternName !in patterns ==> end == Failed(UnknownPattern(patternName)) && sent == []
      ensures cur0 < stopTime && patternName in patterns && Length(patterns[patternName]) == 0 ==> end == Hang && sent == []
      ensures var firstReading := old(loop.now + loop.drift(loop.steps));
              && patternName in patterns && Length(patterns[patternName]) > 0 && !old(stopSignal)
              && firstReading - last0 >= 100 && firstReading < stopTime && firstReading - check0 <= 1000 ==>
                && (patterns[patternName].Alternatives? ==> end == Failed(NotAFrame) && sent == [])
                && (patterns[patternName].Frames? && characteristic.None? ==> end == Failed(NoCharacteristic) && sent == [])
                && (patterns[patternName].Frames? && characteristic.Some? ==>
                      |sent| > 0 && sent[0].round == 0 && sent[0].index == 0 && sent[0].at == firstReading)
    {
      ghost var s := PlaybackStart(loop.now, loop.steps, cur0, last0, check0, stopSignal, client.trace, earlier);
      var curTime, lastTime, lastPowerCheck := cur0, last0, check0;
      var stop: Option<PlaybackEnd> := None;
      sent := [];
      ghost var round: nat := 0;
      assert Written(target, sent) == [] && earlier + [] == earlier;
      while curTime < stopTime
        invariant stop.None?
        invariant Session(s, channel, characteristic, patternName, stopTime, start, target, from, round, curTime, lastTime,
                          lastPowerCheck, sent, stop)
        decreases if loop.now < stopTime then stopTime - loop.now else 0, if curTime < stopTime then 1 else 0
      {
        stop, curTime, lastTime, lastPowerCheck, sent :=
          Cycle(channel, characteristic, patternName, stopTime, start, target, from, s, round,
                curTime, lastTime, lastPowerCheck, sent);
        round := round + 1;
        if stop.Some? {
          break;
        }
      }
      end := if stop.Some? then stop.value else Finished;
    }

    /** Whether set_pwm(reqA, reqB) returns: it sends nothing, or the message it sends can be read back. */
    predicate SetPwmReturns(reqA: int, reqB: int)
      reads this, client
    {
      var plan := PlanPwm(powA, powB, reqA, reqB, safeMode);
      !plan.Send? || (slots.pwmAB2.Some? && client.readReplies(client.readCount).Received?)
    }

    /** signal's four readings of the clock before its loop: last_power_check, the start time, cur_time and last_time. */
    method ReadClock() returns (lastPowerCheck: int, startTime: int, curTime: int, lastTime: int)
      modifies loop
      ensures lastPowerCheck == Reading(old(loop.now), loop.drift, old(loop.steps), 1)
      ensures startTime == Reading(old(loop.now), loop.drift, old(loop.steps), 2)
      ensures curTime == Reading(old(loop.now), loop.drift, old(loop.steps), 3)
      ensures lastTime == Reading(old(loop.now), loop.drift, old(loop.steps), 4) == loop.now
      ensures loop.now + loop.drift(loop.steps) == Reading(old(loop.now), loop.drift, old(loop.steps), 5)
      ensures old(loop.now) <= startTime <= curTime <= loop.now && loop.steps == old(loop.steps) + 4
    {
      lastPowerCheck := loop.Time();
      startTime := loop.Time();
      curTime := loop.Time();
      lastTime := loop.Time();
    }

    /**
     * The part of signal after set_pwm returned: store the pattern name for the channel, read the
     * clock for last_power_check, the start time, cur_time and last_time (moved 100 ms back so
     * that the first frame is due at once), and play until the start time plus `duration`.
     */
    method Start(patternName: string, duration: int, channel: string)
      returns (end: PlaybackEnd, ghost sent: seq<Sent>, ghost endTime: int)
      requires Valid() && !stopSignal
      modifies this`patternNameA, this`patternNameB, this`switchPattern, this`stopSignal, this`isConnected
      modifies this`powA, this`powB, this`canUpdatePower, this`slots, this`battery
      modifies client`trace, client`readCount, client`isConnected, client`connectCount, client`timeout
      modifies loop
      ensures Valid()
      ensures old(client.trace) <= client.trace
      ensures endTime == Reading(old(loop.now), loop.drift, old(loop.steps), 2) + duration
      ensures old(loop.now) <= endTime - duration <= loop.now
      ensures Played(sent, patternName, endTime - duration, endTime, patterns)
      ensures AllFollow(sent, patternName, channel == "a", loop.requests, old(loop.steps), loop.steps)
      ensures |sent| == 0 ==> DataWrites(client.trace) == DataWrites(old(client.trace))
      ensures |sent| > 0 ==> && Target(old(slots), channel).Some?
                             && DataWrites(client.trace) == DataWrites(old(client.trace)) + Written(Target(old(slots), channel).value, sent)
      ensures end == Finished ==> loop.now >= endTime
      ensures end == Stopped ==> stopSignal
      ensures end == Hang ==> exists name | name in patterns :: Length(patterns[name]) == 0
      ensures Reading(old(loop.now), loop.drift, old(loop.steps), 3) < endTime ==>
                && (patternName !in patterns ==> end == Failed(UnknownPattern(patternName)) && sent == [])
                && (patternName in patterns && Length(patterns[patternName]) == 0 ==> end == Hang && sent == [])
      ensures var r1 := Reading(old(loop.now), loop.drift, old(loop.steps), 1);
              var r5 := Reading(old(loop.now), loop.drift, old(loop.steps), 5);
              && patternName in patterns && Length(patterns[patternName]) > 0 && r5 < endTime && r5 - r1 <= 1000 ==>
                && (patterns[patternName].Alternatives? ==> end == Failed(NotAFrame) && sent == [])
                && (patterns[patternName].Frames? && Target(old(slots), channel).None? ==>
                      end == Failed(NoCharacteristic) && sent == [])
                && (patterns[patternName].Frames? && Target(old(slots), channel).Some? ==>
                      |sent| > 0 && sent[0].round == 0 && sent[0].index == 0 && sent[0].at == r5)
    {
      ghost var now0, steps0 := loop.now, loop.steps;
      var characteristic := Target(slots, channel);
      UuidsDistinct();
      assert characteristic.Some? ==> characteristic.value != PwmAB2Uuid;
      if channel == "a" {
        patternNameA := patternName;
      } else {
        patternNameB := patternName;
      }
      var lastPowerCheck, startTime, curTime, lastTime := ReadClock();
      var stopTime := startTime + duration;
      endTime := stopTime;
      lastTime := lastTime - 100;
      ghost var target: Uuid := if characteristic.Some? then characteristic.value else "";
      end, sent := Playback(channel, characteristic, patternName, stopTime, curTime, lastTime, lastPowerCheck,
                            startTime, target, DataWrites(old(client.trace)), steps0);
      assert Played(sent, patternName, endTime - duration, endTime, patterns) by {
        assert endTime - duration == startTime && endTime == stopTime;
      }
    }

    /** The part of signal after set_pwm, whose outcome is `pwm`: raise what set_pwm raised, or go on with Start. */
    method Run(pwm: Outcome<Error>, patternName: string, duration: int, channel: string)
      returns (end: PlaybackEnd, ghost sent: seq<Sent>, ghost endTime: int)
      requires Valid() && !stopSignal
      modifies this`patternNameA, this`patternNameB, this`switchPattern, this`stopSignal, this`isConnected
      modifies this`powA, this`powB, this`canUpdatePower, this`slots, this`battery
      modifies client`trace, client`readCount, client`isConnected, client`connectCount, client`timeout
      modifies loop
      ensures Valid()
      ensures pwm.Fail? ==> && end == Failed(pwm.error) && sent == [] && endTime == old(loop.now) + duration
                            && client.trace == old(client.trace) && powA == old(powA) && powB == old(powB)
                            && canUpdatePower == old(canUpdatePower)
      ensures old(client.trace) <= client.trace
      ensures pwm.Pass? ==> endTime == Reading(old(loop.now), loop.drift, old(loop.steps), 2) + duration
      ensures old(loop.now) <= endTime - duration <= loop.now
      ensures Played(sent, patternName, endTime - duration, endTime, patterns)
      ensures AllFollow(sent, patternName, channel == "a", loop.requests, old(loop.steps), loop.steps)
      ensures |sent| == 0 ==> DataWrites(client.trace) == DataWrites(old(client.trace))
      ensures |sent| > 0 ==> && Target(old(slots), channel).Some?
                             && DataWrites(client.trace) == DataWrites(old(client.trace)) + Written(Target(old(slots), channel).value, sent)
      ensures end == Finished ==> loop.now >= endTime
      ensures end == Stopped ==> stopSignal
      ensures end == Hang ==> exists name | name in patterns :: Length(patterns[name]) == 0
      ensures pwm.Pass? && Reading(old(loop.now), loop.drift, old(loop.steps), 3) < endTime ==>
                && (patternName !in patterns ==> end == Failed(UnknownPattern(patternName)) && sent == [])
                && (patternName in patterns && Length(patterns[patternName]) == 0 ==> end == Hang && sent == [])
      ensures var r1 := Reading(old(loop.now), loop.drift, old(loop.steps), 1);
              var r5 := Reading(old(loop.now), loop.drift, old(loop.steps), 5);
              && pwm.Pass? && patternName in patterns && Length(patterns[patternName]) > 0 && r5 < endTime && r5 - r1 <= 1000 ==>
                && (patterns[patternName].Alternatives? ==> end == Failed(NotAFrame) && sent == [])
                && (patterns[patternName].Frames? && Target(old(slots), channel).None? ==>
                      end == Failed(NoCharacteristic) && sent == [])
                && (patterns[patternName].Frames? && Target(old(slots), channel).Some? ==>
                      |sent| > 0 && sent[0].round == 0 && sent[0].index == 0 && sent[0].at == r5)
    {
      if pwm.Fail? {
        end, sent, endTime := Failed(pwm.error), [], loop.now + duration;
        assert Played(sent, patternName, endTime - duration, endTime, patterns);
        return;
      }
      end, sent, endTime := Start(patternName, duration, channel);
    }

    /**
     * signal: set both channels to `power`, then play the channel's pattern, round after round,
     * until `duration` ms have passed since the clock was read for the start time. The ghost
     * `sent` lists the frames written and `endTime` is that start time plus `duration`.
     */
    method Signal(power: int, patternName: string, duration: int, channel: string)
      returns (end: PlaybackEnd, ghost sent: seq<Sent>, ghost endTime: int)
      requires Valid()
      modifies this`patternNameA, this`patternNameB, this`switchPattern, this`stopSignal, this`isConnected
      modifies this`powA, this`powB, this`canUpdatePower, this`slots, this`battery
      modifies client`trace, client`readCount, client`isConnected, client`connectCount, client`timeout
      modifies loop
      ensures Valid()
      // set_pwm(power, power) raises: nothing is played and the state is the one set_pwm left
      ensures !old(SetPwmReturns(power, power)) ==>
                var plan := PlanPwm(old(powA), old(powB), power, power, safeMode);
                && sent == [] && powA == plan.a && powB == plan.b && !canUpdatePower
                && end == Failed(if old(slots).pwmAB2.None? then NoCharacteristic
                                 else LinkFault(client.readReplies(old(client.readCount)).code))
                && client.trace == old(client.trace) + (if old(slots).pwmAB2.Some? then [Write(PwmAB2Uuid, EncodePower(plan.a, plan.b))] else [])
      // set_pwm(power, power) returns: its message comes first, and the end time is the second clock reading plus duration
      ensures old(SetPwmReturns(power, power)) ==>
                var plan := PlanPwm(old(powA), old(powB), power, power, safeMode);
                && old(client.trace) + (if plan.Send? then [Write(PwmAB2Uuid, EncodePower(plan.a, plan.b))] else []) <= client.trace
                && endTime == Reading(old(loop.now), loop.drift, old(loop.steps), 2) + duration
      ensures old(loop.now) <= endTime - duration <= loop.now
      ensures Played(sent, patternName, endTime - duration, endTime, patterns)
      ensures AllFollow(sent, patternName, channel == "a", loop.requests, old(loop.steps), loop.steps)
      // with no POST /pattern served meanwhile, every frame plays the pattern asked for
      ensures (forall j | old(loop.steps) <= j < loop.steps :: !loop.requests(j).SwitchPatterns?) ==>
                forall k | 0 <= k < |sent| :: sent[k].name == patternName
      ensures |sent| == 0 ==> DataWrites(client.trace) == DataWrites(old(client.trace))
      ensures |sent| > 0 ==> && Target(old(slots), channel).Some?
                             && DataWrites(client.trace) == DataWrites(old(client.trace)) + Written(Target(old(slots), channel).value, sent)
      ensures end == Finished ==> loop.now >= endTime
      ensures end == Stopped ==> stopSignal
      ensures end == Hang ==> exists name | name in patterns :: Length(patterns[name]) == 0
      // the first round reads the name just stored
      ensures old(SetPwmReturns(power, power)) && Reading(old(loop.now), loop.drift, old(loop.steps), 3) < endTime ==>
                && (patternName !in patterns ==> end == Failed(UnknownPattern(patternName)) && sent == [])
                && (patternName in patterns && Length(patterns[patternName]) == 0 ==> end == Hang && sent == [])
      // the fifth clock reading finds the first frame due, since last_time starts 100 ms back
      ensures var r1 := Reading(old(loop.now), loop.drift, old(loop.steps), 1);
              var r5 := Reading(old(loop.now), loop.drift, old(loop.steps), 5);
              && old(SetPwmReturns(power, power)) && patternName in patterns && Length(patterns[patternName]) > 0
              && r5 < endTime && r5 - r1 <= 1000 ==>
                && (patterns[patternName].Alternatives? ==> end == Failed(NotAFrame) && sent == [])
                && (patterns[patternName].Frames? && Target(old(slots), channel).None? ==>
                      end == Failed(NoCharacteristic) && sent == [])
                && (patterns[patternName].Frames? && Target(old(slots), channel).Some? ==>
                      |sent| > 0 && sent[0].round == 0 && sent[0].index == 0 && sent[0].at == r5)
    {
      stopSignal := false;
      var st := SetPwm(power, power);
      ghost var now1, steps1, slots1, trace1 := loop.now, loop.steps, slots, client.trace;
      assert now1 == old(loop.now) && steps1 == old(loop.steps) && slots1 == old(slots);
      assert DataWrites(trace1) == DataWrites(old(client.trace));
      end, sent, endTime := Run(st, patternName, duration, channel);
      assert Played(sent, patternName, endTime - duration, endTime, patterns);
      assert |sent| > 0 ==> DataWrites(client.trace) == DataWrites(trace1) + Written(Target(slots1, channel).value, sent);
      if forall j | steps1 <= j < loop.steps :: !loop.requests(j).SwitchPatterns? {
        NoSwitchKeepsPattern(sent, patternName, channel == "a", loop.requests, steps1, loop.steps);
      }
    }

    /**
     * search_for_device: no device at all is an error; otherwise take the address of the Coyote
     * with the strongest signal (the first one reported among equals), or fail if none is there.
     */
    method SearchForDevice(devices: seq<Advert>) returns (r: Result<string, Error>)
      modifies this`deviceUid
      ensures devices == [] ==> r == Failure(NoBluetoothDevices)
      ensures devices != [] ==> (r.Success? <==> exists d | d in devices :: Candidate(d))
      ensures r.Failure? ==> deviceUid == "" && (devices == [] || r == Failure(CoyoteNotFound))
      ensures r.Success? ==> exists k :: Chosen(devices, k) && r.value == devices[k].address == deviceUid
    {
      deviceUid := "";
      if devices == [] {
        return Failure(NoBluetoothDevices);
      }
      var best := -1;
      var k := 0;
      while k < |devices|
        invariant 0 <= k <= |devices| && -1 <= best < k
        invariant best == -1 ==> forall j | 0 <= j < k :: !Candidate(devices[j])
        invariant best >= 0 ==> Chosen(devices[..k], best)
      {
        if Candidate(devices[k]) && (best < 0 || devices[k].rssi > devices[best].rssi) {
          best := k;
        }
        k := k + 1;
      }
      assert devices[..k] == devices;
      if best < 0 {
        return Failure(CoyoteNotFound);
      }
      deviceUid := devices[best].address;
      return Success(deviceUid);
    }
  }
}
