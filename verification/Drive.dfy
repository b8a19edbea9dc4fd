// From commands to delays and sounds: the requests that the commands of a run hand
// to the throttle and to the crossing counter, and what these make of them.
module Drive {
  import opened Base
  import opened Storage
  import opened Scsi
  import opened IoEvents
  import opened Exchanges
  import opened Throttle
  import opened StepDetector

  // What the commands of a run have published, in order.
  function AllIo(log: seq<Exchange>): seq<IoRequest> {
    if log == [] then [] else AllIo(log[..|log| - 1]) + log[|log| - 1].io
  }

  // A drive that leaves room in 32 bits for one more request of the largest size
  // past its last sector; 2^23 sectors is the largest a wrapper can announce.
  predicate SmallDrive(v: LunView) {
    v.blksize >= 512 && v.numSectors + U32 / 512 <= U32
  }

  // All commands of the run have found such a drive.
  predicate SmallDrives(log: seq<Exchange>) {
    forall i | 0 <= i < |log| :: SmallDrive(log[i].cmd.before)
  }

  // The command published a request for no blocks.
  predicate AsksNothing(e: Exchange) {
    (e.cmd.Reads() || e.cmd.Writes()) && e.cmd.verdict.size < e.cmd.before.blksize
  }

  function AskedNothing(log: seq<Exchange>): nat {
    if log == [] then 0
    else AskedNothing(log[..|log| - 1]) + (if AsksNothing(log[|log| - 1]) then 1 else 0)
  }

  // What one command publishes fits its parameters, unless the drive is too large.
  lemma PublishedFits(e: Exchange)
    requires e.Answered()
    ensures |e.io| <= 1 && AllInRange(e.io)
    ensures SmallDrive(e.cmd.before) ==> AllFit(e.io) && Empties(e.io) == if AsksNothing(e) then 1 else 0
  {
    if e.cmd.Reads() || e.cmd.Writes() {
      HandlersAreSafe(e.cmd.Expects(), e.cmd.cdb, e.cmd.Unit());
      if e.cmd.before.blksize > 0 {
        BlocksFit(e.cmd.verdict.size, e.cmd.before.blksize);
      }
      if SmallDrive(e.cmd.before) {
        SmallMod(CommandLba(e.cmd.verdict.cmnd), U32);
        assert e.io[..0] == [];
      }
    }
  }

  lemma BlocksFit(size: nat, blksize: nat)
    requires blksize > 0
    ensures size / blksize <= size && (size / blksize == 0 <==> size < blksize)
    ensures size < U32 && blksize >= 512 ==> size / blksize < U32 / 512
  {
    DivMod(size, blksize);
    ManyBlocks(size / blksize, size % blksize, blksize);
  }

  lemma ManyBlocks(q: nat, r: nat, blksize: nat)
    requires 0 <= r < blksize
    ensures q <= blksize * q + r && (q == 0 <==> blksize * q + r < blksize)
    ensures blksize >= 512 ==> 512 * q <= blksize * q + r
  {
    MulLess(1, blksize, q, q);
    if blksize >= 512 {
      MulLess(512, blksize, q, q);
    }
    if q > 0 {
      MulLess(blksize, blksize, 1, q);
    }
  }

  lemma EmptiesJoin(a: seq<IoRequest>, b: seq<IoRequest>)
    requires |b| <= 1
    ensures Empties(a + b) == Empties(a) + Empties(b)
    ensures AllInRange(a + b) <==> AllInRange(a) && AllInRange(b)
    ensures AllFit(a + b) <==> AllFit(a) && AllFit(b)
  {
    if b == [] {
      assert a + b == a;
    } else {
      assert b == [b[0]] && (a + b)[..|a|] == a && b[..0] == [];
      AllFitSnoc(a, b[0]);
      if AllInRange(a + b) {
        forall i | 0 <= i < |a|
          ensures a[i].InRange()
        {
          assert (a + b)[i].InRange();
        }
        assert (a + b)[|a|].InRange();
      }
    }
  }

  lemma RunFront(log: seq<Exchange>)
    requires Run(log) && log != []
    ensures Run(log[..|log| - 1]) && log[|log| - 1].Answered()
  {
    var front := log[..|log| - 1];
    forall i | 0 <= i < |front|
      ensures front[i].Answered()
    {
      assert log[i].Answered();
    }
    forall i | 0 <= i < |front| - 1
      ensures Linked(front, i)
    {
      assert Linked(log, i);
    }
    assert log[|log| - 1].Answered();
  }

  // The same for a run, with the requests for no blocks counted.
  lemma {:induction false} RunFits(log: seq<Exchange>)
    requires Run(log)
    ensures AllInRange(AllIo(log))
    ensures SmallDrives(log) ==> AllFit(AllIo(log)) && Empties(AllIo(log)) == AskedNothing(log)
    decreases |log|
  {
    if log != [] {
      var front, last := log[..|log| - 1], log[|log| - 1];
      RunFront(log);
      RunFits(front);
      PublishedFits(last);
      EmptiesJoin(AllIo(front), last.io);
      assert SmallDrives(log) ==> SmallDrives(front) && SmallDrive(last.cmd.before);
    }
  }

  function Clicks(c: SoundCommand): nat {
    if c.SeekBurst? then c.clicks else 0
  }

  // The sound loop looks at the counters whenever it likes.
  method Listen(tracker: Tracker, d: Detector, nowUs: int) returns (clicks: nat)
    modifies d
    ensures d.lastCrossings == Some(tracker.trackCrossings)
    ensures clicks <= if old(d.lastCrossings).None? then 0
                      else Max(0, tracker.trackCrossings - old(d.lastCrossings).value)
  {
    var c := d.Tick(Sample(tracker.totalBlocks, tracker.trackCrossings, nowUs));
    clicks := Clicks(c);
  }

  // One request is served, and the sound loop may look at the counters afterwards.
  method ServeOne(limiter: Limiter, tracker: Tracker, d: Detector, r: IoRequest) returns (clicks: nat)
    requires limiter.Valid() && tracker.Valid() && r.InRange()
    requires d.lastCrossings.Some? ==> d.lastCrossings.value <= tracker.trackCrossings
    modifies limiter, tracker, d
    ensures limiter.Valid() && tracker.Valid() && tracker.trackCrossings >= old(tracker.trackCrossings)
    ensures limiter.history == old(limiter.history) + [r] && tracker.history == old(tracker.history) + [r]
    ensures d.lastCrossings.Some? ==> d.lastCrossings.value <= tracker.trackCrossings
    ensures d.lastCrossings == old(d.lastCrossings) || d.lastCrossings == Some(tracker.trackCrossings)
    ensures clicks <= if old(d.lastCrossings).None? || d.lastCrossings.None? then 0
                      else d.lastCrossings.value - old(d.lastCrossings).value
  {
    var switch: bool, name: string, look: bool, nowUs: int := *, *, *, *;
    if switch {
      var rc := limiter.SetPreset(name);
    }
    limiter.OnRequest(r);
    tracker.Record(r);
    clicks := 0;
    if look {
      clicks := Listen(tracker, d, nowUs);
    }
  }

  // A run of requests is served.
  method ServeAll(limiter: Limiter, tracker: Tracker, d: Detector, rs: seq<IoRequest>) returns (clicks: nat)
    requires AllInRange(rs) && d.lastCrossings.None?
    requires limiter.Valid() && tracker.Valid() && limiter.history == [] && tracker.history == []
    modifies limiter, tracker, d
    ensures limiter.Valid() && tracker.Valid()
    ensures limiter.history == tracker.history == rs
    ensures clicks <= tracker.trackCrossings
  {
    var i := 0;
    clicks := 0;
    while i < |rs|
      invariant i <= |rs| && limiter.Valid() && tracker.Valid()
      invariant limiter.history == tracker.history == rs[..i]
      invariant clicks <= if d.lastCrossings.None? then 0 else d.lastCrossings.value
      invariant d.lastCrossings.Some? ==> 0 <= d.lastCrossings.value <= tracker.trackCrossings
    {
      var more := ServeOne(limiter, tracker, d, rs[i]);
      clicks := clicks + more;
      assert rs[..i + 1] == rs[..i] + [rs[i]];
      i := i + 1;
    }
    assert rs[..i] == rs;
  }

  // The drive serves what the commands of a run publish, while presets are switched
  // and the sound loop polls at any time.  The seeks charged are paid for by the
  // tracks the head crosses, but for one and for two with each command for no
  // blocks; and there are no more seek clicks than tracks crossed.
  method Play(limiter: Limiter, tracker: Tracker, d: Detector, log: seq<Exchange>) returns (clicks: nat)
    requires Run(log) && d.lastCrossings.None?
    requires limiter.Valid() && tracker.Valid() && limiter.history == [] && tracker.history == []
    modifies limiter, tracker, d
    ensures limiter.Valid() && tracker.Valid()
    ensures limiter.history == tracker.history == AllIo(log)
    ensures clicks <= tracker.trackCrossings
    ensures SmallDrives(log) ==>
              && tracker.trackCrossings == Travel(None, AllIo(log))
              && limiter.seeks <= 1 + tracker.trackCrossings + 2 * AskedNothing(log)
  {
    RunFits(log);
    clicks := ServeAll(limiter, tracker, d, AllIo(log));
  }
}
