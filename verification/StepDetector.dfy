// The sound of the drive: from samples of the kernel counters to clicks of the
// buzzer.
module StepDetector {
  import opened Base
  import opened IoEvents

  const MIN_CLICK_SPACING_US := 2700

  datatype SoundCommand =
    | Silence
    | SeekBurst(clicks: nat, spacingUs: int)
    | MotorSpin(clicks: nat, spacingUs: int)
    | ActivityTick(clicks: nat)
  {
    predicate Activity() {
      MotorSpin? || ActivityTick?
    }
  }

  function MakeSeekBurst(clicks: int, spacingUs: int): SoundCommand {
    SeekBurst(Max(0, clicks), Max(MIN_CLICK_SPACING_US, spacingUs))
  }

  function MakeMotorSpin(): SoundCommand {
    MotorSpin(Max(1, 3), Max(MIN_CLICK_SPACING_US, 5000))
  }

  datatype Params = Params(
    seekSpacingUs: int, minClickSpacingUs: int, maxBurst: int, activityIntervalUs: int, motorIdleUs: int)

  // The counters and the time at which they were read.
  datatype Sample = Sample(counter: int, crossings: int, nowUs: int)

  // What the detector remembers between two samples.
  datatype Memory = Memory(
    lastCrossings: Option<int>, lastCounter: Option<int>, lastActivityUs: int, lastIoUs: int)

  const FRESH := Memory(None, None, -1_000_000_000, -1_000_000_000)

  // The command for one sample and what is remembered of it.
  function Hear(p: Params, m: Memory, s: Sample): (SoundCommand, Memory) {
    var seen := m.(lastCrossings := Some(s.crossings), lastCounter := Some(s.counter));
    if m.lastCrossings.None? then (Silence, seen)
    else if s.crossings > m.lastCrossings.value then
      (MakeSeekBurst(Min(s.crossings - m.lastCrossings.value, p.maxBurst),
                     Max(p.seekSpacingUs, p.minClickSpacingUs)),
       seen.(lastIoUs := s.nowUs))
    else if m.lastCounter.Some? && s.counter > m.lastCounter.value then
      var moved := seen.(lastIoUs := s.nowUs);
      if s.nowUs - m.lastIoUs >= p.motorIdleUs then
        (MakeMotorSpin(), moved.(lastActivityUs := s.nowUs))
      else if s.nowUs - m.lastActivityUs < p.activityIntervalUs then (Silence, moved)
      else (ActivityTick(1), moved.(lastActivityUs := s.nowUs))
    else (Silence, seen)
  }

  class Detector {
    const params: Params
    var lastCrossings: Option<int>
    var lastCounter: Option<int>
    var lastActivityUs: int
    var lastIoUs: int

    ghost function View(): Memory
      reads this
    {
      Memory(lastCrossings, lastCounter, lastActivityUs, lastIoUs)
    }

    constructor (seekSpacingUs: int, minClickSpacingUs: int, maxBurst: int, activityIntervalUs: int,
                 motorIdleUs: int)
      ensures View() == FRESH
      ensures params == Params(Max(minClickSpacingUs, seekSpacingUs), minClickSpacingUs, maxBurst,
                               activityIntervalUs, motorIdleUs)
    {
      params := Params(Max(minClickSpacingUs, seekSpacingUs), minClickSpacingUs, maxBurst,
                       activityIntervalUs, motorIdleUs);
      lastCrossings, lastCounter := None, None;
      lastActivityUs, lastIoUs := -1_000_000_000, -1_000_000_000;
    }

    // FloppyStepDetector.tick
    method Tick(s: Sample) returns (c: SoundCommand)
      modifies this
      ensures (c, View()) == Hear(params, old(View()), s)
    {
      if lastCrossings.None? {
        lastCrossings, lastCounter := Some(s.crossings), Some(s.counter);
        return Silence;
      }
      var delta := s.crossings - lastCrossings.value;
      var counterDelta := if lastCounter.Some? then s.counter - lastCounter.value else 0;
      lastCrossings, lastCounter := Some(s.crossings), Some(s.counter);
      if delta > 0 {
        lastIoUs := s.nowUs;
        return MakeSeekBurst(Min(delta, params.maxBurst), Max(params.seekSpacingUs, params.minClickSpacingUs));
      }
      if counterDelta > 0 {
        var wasIdle := s.nowUs - lastIoUs >= params.motorIdleUs;
        lastIoUs := s.nowUs;
        if wasIdle {
          lastActivityUs := s.nowUs;
          return MakeMotorSpin();
        }
        if s.nowUs - lastActivityUs < params.activityIntervalUs {
          return Silence;
        }
        lastActivityUs := s.nowUs;
        return ActivityTick(1);
      }
      return Silence;
    }
  }

  // ------------------------------------------------------ runs of samples

  // The commands for a run of samples.
  function Sounds(p: Params, m: Memory, samples: seq<Sample>): (cs: seq<SoundCommand>)
    ensures |cs| == |samples|
    decreases |samples|
  {
    if samples == [] then []
    else var (c, m') := Hear(p, m, samples[0]); [c] + Sounds(p, m', samples[1..])
  }

  // The memory after the first n of them.
  function MemoryAfter(p: Params, m: Memory, samples: seq<Sample>, n: nat): Memory
    requires n <= |samples|
    decreases n
  {
    if n == 0 then m else MemoryAfter(p, Hear(p, m, samples[0]).1, samples[1..], n - 1)
  }

  // ------------------------------------------------------ what is heard when

  // Between this sample and the one before there was some input or output.
  predicate Busy(samples: seq<Sample>, i: int) {
    && 1 <= i < |samples|
    && (samples[i].crossings > samples[i - 1].crossings || samples[i].counter > samples[i - 1].counter)
  }

  // When that was last so, before sample n; long ago if never.
  function LastBusy(samples: seq<Sample>, n: nat): int
    requires n <= |samples|
  {
    if n == 0 then -1_000_000_000
    else if Busy(samples, n - 1) then samples[n - 1].nowUs else LastBusy(samples, n - 1)
  }

  // When an activity sound was last heard.
  function LastActivity(samples: seq<Sample>, cs: seq<SoundCommand>, n: nat): int
    requires n <= |samples| == |cs|
  {
    if n == 0 then -1_000_000_000
    else if cs[n - 1].MotorSpin? || cs[n - 1].ActivityTick? then samples[n - 1].nowUs
    else LastActivity(samples, cs, n - 1)
  }

  // The command for sample i, from the samples alone: nothing for the first; a burst of
  // clicks, at least 2.7 ms apart, if the head has moved; or else, if blocks were
  // served, the motor if the drive has been idle for so long, or a tick if none has been
  // heard for so long; or else nothing.
  predicate Right(p: Params, samples: seq<Sample>, cs: seq<SoundCommand>, i: nat)
    requires i < |samples| == |cs|
  {
    var now := samples[i].nowUs;
    if i == 0 then cs[i] == Silence
    else
      var moved, served := samples[i].crossings - samples[i - 1].crossings,
                           samples[i].counter > samples[i - 1].counter;
      if moved > 0 then
        && cs[i].SeekBurst? && cs[i].clicks == Max(0, Min(moved, p.maxBurst))
        && cs[i].spacingUs == Max(2700, Max(p.seekSpacingUs, p.minClickSpacingUs))
      else if served && now - LastBusy(samples, i) >= p.motorIdleUs then cs[i] == MotorSpin(3, 5000)
      else if served && now - LastActivity(samples, cs, i) >= p.activityIntervalUs then cs[i] == ActivityTick(1)
      else cs[i] == Silence
  }

  lemma {:induction false} SoundsAt(p: Params, m: Memory, samples: seq<Sample>, i: nat)
    requires i < |samples|
    ensures Sounds(p, m, samples)[i] == Hear(p, MemoryAfter(p, m, samples, i), samples[i]).0
    ensures MemoryAfter(p, m, samples, i + 1) == Hear(p, MemoryAfter(p, m, samples, i), samples[i]).1
    decreases i
  {
    if i > 0 {
      SoundsAt(p, Hear(p, m, samples[0]).1, samples[1..], i - 1);
    }
  }

  // What the detector remembers are these times and the last counters.
  lemma {:induction false} Remembers(p: Params, samples: seq<Sample>, n: nat)
    requires n <= |samples|
    ensures var m, cs := MemoryAfter(p, FRESH, samples, n), Sounds(p, FRESH, samples);
            && m.lastIoUs == LastBusy(samples, n) && m.lastActivityUs == LastActivity(samples, cs, n)
            && m.lastCrossings == (if n == 0 then None else Some(samples[n - 1].crossings))
            && m.lastCounter == (if n == 0 then None else Some(samples[n - 1].counter))
    decreases n
  {
    if n > 0 {
      Remembers(p, samples, n - 1);
      SoundsAt(p, FRESH, samples, n - 1);
    }
  }

  lemma HeardExactly(p: Params, samples: seq<Sample>, i: nat)
    requires i < |samples|
    ensures Right(p, samples, Sounds(p, FRESH, samples), i)
  {
    Remembers(p, samples, i);
    SoundsAt(p, FRESH, samples, i);
  }

  // The counters and the clock never run backwards.
  ghost predicate Ordered(samples: seq<Sample>) {
    forall i, j | 0 <= i < j < |samples| ::
      && samples[i].crossings <= samples[j].crossings && samples[i].counter <= samples[j].counter
      && samples[i].nowUs <= samples[j].nowUs
  }

  lemma OrderedTail(samples: seq<Sample>)
    requires Ordered(samples) && samples != []
    ensures Ordered(samples[1..])
  {
  }

  function SeekClicks(cs: seq<SoundCommand>): nat {
    if cs == [] then 0 else (if cs[0].SeekBurst? then cs[0].clicks else 0) + SeekClicks(cs[1..])
  }

  // The increments of the crossing counter, each cut off at the cap.
  function Capped(last: int, cap: int, samples: seq<Sample>): int
    decreases |samples|
  {
    if samples == [] then 0
    else Min(samples[0].crossings - last, Max(0, cap)) + Capped(samples[0].crossings, cap, samples[1..])
  }

  // No single increment is larger than the cap.
  predicate WithinCap(last: int, cap: int, samples: seq<Sample>)
    decreases |samples|
  {
    samples == []
    || (samples[0].crossings - last <= Max(0, cap) && WithinCap(samples[0].crossings, cap, samples[1..]))
  }

  // Seek clicks are the capped increments: never more than the head has moved,
  // and just as many exactly if no increment was larger than the cap.
  lemma {:induction false} ClicksFollowCrossings(p: Params, m: Memory, samples: seq<Sample>, last: int)
    requires Ordered(samples) && m.lastCrossings == Some(last)
    requires samples != [] ==> last <= samples[0].crossings
    ensures var total := if samples == [] then 0 else samples[|samples| - 1].crossings - last;
            var clicks := SeekClicks(Sounds(p, m, samples));
            && clicks == Capped(last, p.maxBurst, samples) && clicks <= total
            && (clicks == total <==> WithinCap(last, p.maxBurst, samples))
    decreases |samples|
  {
    if samples != [] {
      OrderedTail(samples);
      var (c, m') := Hear(p, m, samples[0]);
      var rest := Sounds(p, m', samples[1..]);
      assert ([c] + rest)[1..] == rest;
      ClicksFollowCrossings(p, m', samples[1..], samples[0].crossings);
    }
  }

  // The first sample only sets the baseline.
  lemma ClicksFromTheFirstSample(p: Params, samples: seq<Sample>)
    requires Ordered(samples) && samples != []
    ensures SeekClicks(Sounds(p, FRESH, samples))
            <= samples[|samples| - 1].crossings - samples[0].crossings
    ensures SeekClicks(Sounds(p, FRESH, samples))
            == samples[|samples| - 1].crossings - samples[0].crossings
            <==> WithinCap(samples[0].crossings, p.maxBurst, samples[1..])
  {
    var (c, m) := Hear(p, FRESH, samples[0]);
    var rest := Sounds(p, m, samples[1..]);
    assert ([c] + rest)[1..] == rest;
    OrderedTail(samples);
    ClicksFollowCrossings(p, m, samples[1..], samples[0].crossings);
  }

  // ------------------------------------------------------ activity sounds

  // Any two activity sounds are at least the activity interval apart.
  ghost predicate Spaced(p: Params, samples: seq<Sample>, cs: seq<SoundCommand>)
    requires |cs| == |samples|
  {
    forall i, j | 0 <= i < j < |cs| && cs[i].Activity() && cs[j].Activity() ::
      samples[j].nowUs - samples[i].nowUs >= p.activityIntervalUs
  }

  // The memory is older than the samples to come.
  predicate Past(m: Memory, samples: seq<Sample>) {
    m.lastActivityUs <= m.lastIoUs && (samples != [] ==> m.lastIoUs <= samples[0].nowUs)
  }

  // Every activity sound comes at least the interval after the last one.
  lemma {:induction false} AfterLast(p: Params, m: Memory, samples: seq<Sample>, j: nat)
    requires Ordered(samples) && Past(m, samples) && j < |samples|
    requires p.activityIntervalUs <= Max(0, p.motorIdleUs)
    requires Sounds(p, m, samples)[j].Activity()
    ensures samples[j].nowUs - m.lastActivityUs >= p.activityIntervalUs
    decreases |samples|
  {
    if j > 0 {
      OrderedTail(samples);
      AfterLast(p, Hear(p, m, samples[0]).1, samples[1..], j - 1);
    }
  }

  lemma {:induction false} ActivityIsSpaced(p: Params, m: Memory, samples: seq<Sample>)
    requires Ordered(samples) && Past(m, samples)
    requires p.activityIntervalUs <= Max(0, p.motorIdleUs)
    ensures Spaced(p, samples, Sounds(p, m, samples))
    decreases |samples|
  {
    if samples != [] {
      var (c, m') := Hear(p, m, samples[0]);
      var cs := Sounds(p, m, samples);
      OrderedTail(samples);
      ActivityIsSpaced(p, m', samples[1..]);
      forall i, j | 0 <= i < j < |cs| && cs[i].Activity() && cs[j].Activity()
        ensures samples[j].nowUs - samples[i].nowUs >= p.activityIntervalUs
      {
        if i == 0 {
          AfterLast(p, m', samples[1..], j - 1);
        } else {
          assert samples[1..][i - 1] == samples[i] && samples[1..][j - 1] == samples[j];
        }
      }
    }
  }

  // Two spindle starts as close together as the idle time lets them be.
  function TwoStarts(idle: int): seq<Sample> {
    var t := Max(0, idle);
    [Sample(0, 0, 0), Sample(1, 0, t), Sample(2, 0, t + t)]
  }

  // Activity sounds keep their distance on every run exactly if the interval is
  // no longer than the idle time: a motor start does not wait for it.
  lemma SpacedExactly(p: Params)
    ensures (forall samples | Ordered(samples) && Past(FRESH, samples) ::
               Spaced(p, samples, Sounds(p, FRESH, samples)))
            <==> p.activityIntervalUs <= Max(0, p.motorIdleUs)
  {
    if p.activityIntervalUs <= Max(0, p.motorIdleUs) {
      forall samples | Ordered(samples) && Past(FRESH, samples)
        ensures Spaced(p, samples, Sounds(p, FRESH, samples))
      {
        ActivityIsSpaced(p, FRESH, samples);
      }
    } else {
      var run := TwoStarts(p.motorIdleUs);
      TwoStartsTooClose(p);
      assert !Spaced(p, run, Sounds(p, FRESH, run));
    }
  }

  lemma TwoStartsTooClose(p: Params)
    requires p.activityIntervalUs > Max(0, p.motorIdleUs)
    ensures var run := TwoStarts(p.motorIdleUs);
            Ordered(run) && Past(FRESH, run) && !Spaced(p, run, Sounds(p, FRESH, run))
  {
    var run := TwoStarts(p.motorIdleUs);
    var m1 := Hear(p, FRESH, run[0]).1;
    var m2 := Hear(p, m1, run[1]).1;
    var cs := Sounds(p, FRESH, run);
    assert run[1..][0] == run[1] && run[1..][1..][0] == run[2];
    assert Sounds(p, m1, run[1..])[0] == cs[1];
    assert Sounds(p, m2, run[1..][1..])[0] == cs[2];
    assert cs[1].Activity() && cs[2].Activity();
  }

  // ------------------------------------------------------ from request to sound

  lemma {:induction false} TravelGrows(head: Option<nat>, rs: seq<IoRequest>, n: nat)
    requires n <= |rs|
    ensures Travel(head, rs[..n]) <= Travel(head, rs)
    decreases |rs|
  {
    if n > 0 {
      assert rs[..n][1..] == rs[1..][..n - 1];
      TravelGrows(HeadAfter(head, rs[0].lba, rs[0].nblocks), rs[1..], n - 1);
    }
  }

  // Samples taken while the requests of a run are being recorded: sample i sees
  // the first seen[i] of them.
  ghost predicate SamplesOf(rs: seq<IoRequest>, seen: seq<nat>, samples: seq<Sample>) {
    && |seen| == |samples| && (forall i | 0 <= i < |seen| :: seen[i] <= |rs|)
    && (forall i, j | 0 <= i < j < |seen| :: seen[i] <= seen[j])
    && (forall i | 0 <= i < |samples| :: samples[i].crossings == Travel(None, rs[..seen[i]]))
    && (forall i, j | 0 <= i < j < |samples| ::
          samples[i].counter <= samples[j].counter && samples[i].nowUs <= samples[j].nowUs)
  }

  // The drive never clicks more often than the head of a drive that serves the
  // same requests moves between the first sample and the last; and just as often
  // if no burst was cut off.
  lemma ClicksFollowHead(p: Params, rs: seq<IoRequest>, seen: seq<nat>, samples: seq<Sample>)
    requires SamplesOf(rs, seen, samples) && samples != []
    ensures var moved := Travel(None, rs[..seen[|seen| - 1]]) - Travel(None, rs[..seen[0]]);
            var clicks := SeekClicks(Sounds(p, FRESH, samples));
            && clicks <= moved
            && (clicks == moved <==> WithinCap(samples[0].crossings, p.maxBurst, samples[1..]))
  {
    forall i, j | 0 <= i < j < |samples|
      ensures samples[i].crossings <= samples[j].crossings
    {
      assert rs[..seen[j]][..seen[i]] == rs[..seen[i]];
      TravelGrows(None, rs[..seen[j]], seen[i]);
    }
    ClicksFromTheFirstSample(p, samples);
  }
}
