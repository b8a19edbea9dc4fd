// The rate limiter: the delays it charges for a request, and how its seek
// delays relate to the tracks the head crosses.
module Throttle {
  import opened Base
  import opened IoEvents

  datatype Preset = Preset(name: string, readKbps: nat, writeKbps: nat, seekUs: nat)

  const PRESETS: seq<Preset> := [
    Preset("floppy-real", 50, 30, 6000),
    Preset("floppy-fast", 200, 200, 500),
    Preset("unthrottled", 0, 0, 0)]

  // ------------------------------------------------------ the transfer delay

  // The microseconds charged for a transfer, in 32-bit arithmetic.
  function IoUs(nblocks: nat, kbps: nat): nat
    requires kbps > 0
  {
    (nblocks * 512 % U32 * 1000 % U32) / (kbps * 1024 % U32 / 1000 + 1)
  }

  // The same without wrap-around.
  function ExactUs(nblocks: nat, kbps: nat): nat {
    nblocks * 512000 / (kbps * 1024 / 1000 + 1)
  }

  const MAX_BLOCKS: nat := 8388

  // Up to 8388 blocks nothing wraps around; from 8389 on the product does.
  lemma NoOverflowExactly(nblocks: nat)
    ensures nblocks * 512 * 1000 < U32 <==> nblocks <= MAX_BLOCKS
  {
  }

  lemma DelayIsExact(nblocks: nat, kbps: nat)
    requires nblocks <= MAX_BLOCKS && 0 < kbps && kbps * 1024 < U32
    ensures IoUs(nblocks, kbps) == ExactUs(nblocks, kbps)
  {
    SmallMod(nblocks * 512, U32);
    SmallMod(nblocks * 512 * 1000, U32);
    SmallMod(kbps * 1024, U32);
  }

  // The divisor kbps * 1024 / 1000 + 1 lies between 1.024 kbps and that plus one.
  lemma Divisor(kbps: nat)
    ensures kbps * 1024 < (kbps * 1024 / 1000 + 1) * 1000 <= kbps * 1024 + 1000
  {
  }

  lemma Quotient(a: nat, d: nat)
    requires d > 0
    ensures a / d * d <= a < (a / d + 1) * d
  {
    assert a == d * (a / d) + a % d;
  }

  lemma MulLess(a: int, b: int, c: int, d: int)
    requires 0 <= c <= d && a <= b && 0 <= b
    ensures a * c <= b * d
  {
    assert a * c <= b * c;
    assert b * c <= b * d;
  }

  // The delay is no longer than the transfer at the nominal rate, and within a
  // microsecond of the transfer at a rate a little above it.
  lemma DelayBounds(nblocks: nat, kbps: nat)
    requires kbps > 0
    ensures ExactUs(nblocks, kbps) * kbps <= nblocks * 500000
    ensures (ExactUs(nblocks, kbps) + 1) * (1024 * kbps + 1000) > nblocks * 512000000
  {
    var d := kbps * 1024 / 1000 + 1;
    var us := ExactUs(nblocks, kbps);
    Divisor(kbps);
    Quotient(nblocks * 512000, d);
    assert us * d <= nblocks * 512000 < (us + 1) * d;
    MulLess(us, us, kbps * 1024, d * 1000);
    assert us * (d * 1000) == us * d * 1000;
    assert us * (kbps * 1024) == us * kbps * 1024;
    MulLess(us + 1, us + 1, d * 1000, kbps * 1024 + 1000);
    assert (us + 1) * (d * 1000) == (us + 1) * d * 1000;
  }

  function Sum(parts: seq<nat>): nat {
    if parts == [] then 0 else parts[0] + Sum(parts[1..])
  }

  // The delay charged for a transfer cut into these parts.
  function SumUs(parts: seq<nat>, kbps: nat): nat {
    if parts == [] then 0 else ExactUs(parts[0], kbps) + SumUs(parts[1..], kbps)
  }

  lemma SplitTwo(a: nat, b: nat, d: nat)
    requires d > 0
    ensures a / d + b / d <= (a + b) / d <= a / d + b / d + 1
  {
    Quotient(a, d);
    Quotient(b, d);
    Quotient(a + b, d);
    var p, q := a / d, b / d;
    Distribute(d, p, q);
    Distribute(d, p + q, 2);
    Between((a + b) / d, p + q, d, a + b);
  }

  lemma Between(q: int, p: int, d: nat, a: nat)
    requires d > 0 && q * d <= a < (q + 1) * d && d * p <= a < d * (p + 2)
    ensures p <= q <= p + 1
  {
    if q < p {
      MulLess(q + 1, p, d, d);
    }
    if p + 1 < q {
      MulLess(p + 2, q, d, d);
    }
  }

  // Cutting a transfer into m parts never adds to the delay, and takes less than
  // m microseconds off.
  lemma {:induction false} SplittingLosesLittle(parts: seq<nat>, kbps: nat)
    requires parts != []
    ensures SumUs(parts, kbps) <= ExactUs(Sum(parts), kbps) < SumUs(parts, kbps) + |parts|
  {
    if |parts| > 1 {
      SplittingLosesLittle(parts[1..], kbps);
      SplitTwo(parts[0] * 512000, Sum(parts[1..]) * 512000, kbps * 1024 / 1000 + 1);
    }
  }

  // ------------------------------------------------------ the seek delays

  // ~0u: no request has been throttled yet.
  const NO_TRACK: nat := U32 - 1

  function Empties(rs: seq<IoRequest>): nat {
    if rs == [] then 0 else Empties(rs[..|rs| - 1]) + (if rs[|rs| - 1].nblocks == 0 then 1 else 0)
  }

  // The throttle and the head disagree about the track.
  function Off(lastTrack: nat, head: Option<nat>): nat {
    if lastTrack == NO_TRACK || (head.Some? && head.value == lastTrack) then 0 else 1
  }

  // The seeks charged so far are paid for by the first request, by the tracks
  // the head has crossed, and twice over by each request for no blocks.
  ghost predicate Paid(seeks: nat, lastTrack: nat, rs: seq<IoRequest>) {
    && (lastTrack == NO_TRACK ==> seeks == 0)
    && seeks + Off(lastTrack, HeadAfterAll(None, rs)) <= 1 + Travel(None, rs) + 2 * Empties(rs)
  }

  // What a request for blocks from track s to track e costs, against the w tracks
  // the head crosses for it.
  lemma Crossed(lastTrack: nat, head: Option<nat>, s: nat, e: nat, w: nat)
    requires s <= e < NO_TRACK && w == (if head.None? then 0 else Abs(s - head.value)) + (e - s)
    ensures Off(lastTrack, Some(e)) <= Off(lastTrack, head) + w
    ensures Off(s, Some(e)) <= w
    ensures lastTrack != NO_TRACK ==>
              (if s != lastTrack then 1 else 0) + Off(s, Some(e)) <= Off(lastTrack, head) + w
  {
  }

  // One more request keeps the account, whether it is throttled or not.
  lemma StillPaid(seeks: nat, lastTrack: nat, rs: seq<IoRequest>, r: IoRequest)
    requires Paid(seeks, lastTrack, rs) && r.Fits()
    ensures Paid(seeks, lastTrack, rs + [r])
    ensures Paid(seeks + (if Track(r.lba) != lastTrack then 1 else 0), Track(r.lba), rs + [r])
    ensures Paid(seeks, Track(r.lba), rs + [r])
  {
    assert (rs + [r])[..|rs|] == rs;
    TravelSnoc(None, rs, r);
    var head := HeadAfterAll(None, rs);
    if r.nblocks > 0 {
      WalkClosed(head, r.lba, r.nblocks);
      Crossed(lastTrack, head, Track(r.lba), Track(r.lba + r.nblocks - 1), Walk(head, r.lba, r.nblocks));
    }
  }

  function UpToNewline(name: string): string {
    if name == "" || name[0] == '\n' then "" else [name[0]] + UpToNewline(name[1..])
  }

  // The first line of what was written is this.
  predicate IsLine(name: string, line: string) {
    line <= name && (|line| == |name| || name[|line|] == '\n')
  }

  lemma {:induction false} LineIs(name: string, line: string)
    requires '\n' !in line
    ensures UpToNewline(name) == line <==> IsLine(name, line)
    decreases |name|
  {
    if name != "" && name[0] != '\n' && line != "" && line[0] == name[0] {
      LineIs(name[1..], line[1..]);
      assert line == [line[0]] + line[1..] && name == [name[0]] + name[1..];
    }
  }

  // The rates in KB/s and the seek time in microseconds that go with a name.
  predicate Rates(name: string, read: nat, write: nat, seek: nat) {
    if name == "floppy-real" then read == 50 && write == 30 && seek == 6000
    else if name == "floppy-fast" then read == 200 && write == 200 && seek == 500
    else name == "unthrottled" && read == 0 && write == 0 && seek == 0
  }

  predicate IsName(name: string) {
    name == "floppy-real" || name == "floppy-fast" || name == "unthrottled"
  }

  lemma TableIs(i: nat)
    requires i < |PRESETS|
    ensures var p := PRESETS[i];
            IsName(p.name) && Rates(p.name, p.readKbps, p.writeKbps, p.seekUs)
  {
    assert "floppy-real"[7] == 'r' && "floppy-fast"[7] == 'f' && "unthrottled"[7] == 't';
  }

  lemma Unlisted(name: string)
    requires forall i | 0 <= i < |PRESETS| :: PRESETS[i].name != name
    ensures !IsName(name)
  {
    assert PRESETS[0].name != name && PRESETS[1].name != name && PRESETS[2].name != name;
  }

  // struct floppy_throttle_state
  class Limiter {
    var readKbps: nat
    var writeKbps: nat
    var seekUs: nat
    var lastTrack: nat

    ghost var history: seq<IoRequest>  // the requests seen
    ghost var seeks: nat               // the seek delays charged
    ghost var transferUs: nat          // the transfer delays charged

    ghost predicate Valid()
      reads this
    {
      AllFit(history) ==> Paid(seeks, lastTrack, history)
    }

    constructor ()
      ensures Valid() && history == [] && seeks == 0 && transferUs == 0
      ensures readKbps == 50 && writeKbps == 30 && seekUs == 6000 && lastTrack == 0xffff_ffff
    {
      readKbps, writeKbps, seekUs := PRESETS[0].readKbps, PRESETS[0].writeKbps, PRESETS[0].seekUs;
      lastTrack := NO_TRACK;
      history, seeks, transferUs := [], 0, 0;
    }

    // floppy_throttle_set_preset
    method SetPreset(name: string) returns (rc: int)
      requires Valid()
      modifies this`readKbps, this`writeKbps, this`seekUs
      ensures Valid() && (rc == 0 || rc == EINVAL)
      ensures rc == 0 <==> |name| < 31 && IsName(UpToNewline(name))
      ensures rc == 0 ==> Rates(UpToNewline(name), readKbps, writeKbps, seekUs)
      ensures rc != 0 ==> readKbps == old(readKbps) && writeKbps == old(writeKbps) && seekUs == old(seekUs)
    {
      if |name| >= 31 {
        return EINVAL;
      }
      var i := 0;
      while i < |PRESETS|
        invariant i <= |PRESETS| && unchanged(this)
        invariant forall j | 0 <= j < i :: PRESETS[j].name != UpToNewline(name)
      {
        var p := PRESETS[i];
        TableIs(i);
        if UpToNewline(name) == p.name {
          readKbps, writeKbps, seekUs := p.readKbps, p.writeKbps, p.seekUs;
          return 0;
        }
        i := i + 1;
      }
      Unlisted(UpToNewline(name));
      rc := EINVAL;
    }

    // apply_io_delay
    method ApplyIoDelay(r: IoRequest, kbps: nat)
      requires Valid() && r.InRange()
      modifies this`lastTrack, this`history, this`seeks, this`transferUs
      ensures Valid() && history == old(history) + [r]
      ensures transferUs == old(transferUs) + (if kbps > 0 then IoUs(r.nblocks, kbps) else 0)
      ensures kbps == 0 && seekUs == 0 ==> seeks == old(seeks) && lastTrack == old(lastTrack)
      ensures kbps > 0 || seekUs > 0 ==>
                && lastTrack == Track(r.lba)
                && seeks == old(seeks) + (if seekUs > 0 && Track(r.lba) != old(lastTrack) then 1 else 0)
    {
      AllFitSnoc(history, r);
      if AllFit(history + [r]) {
        StillPaid(seeks, lastTrack, history, r);
      }
      history := history + [r];
      if kbps == 0 && seekUs == 0 {
        return;
      }
      var track := r.lba / SECTORS_PER_TRACK;
      var needSeek := track != lastTrack && seekUs > 0;
      lastTrack := track;
      if needSeek {
        seeks := seeks + 1;
      }
      if kbps > 0 && r.nblocks > 0 {
        transferUs := transferUs + IoUs(r.nblocks, kbps);
      }
    }

    // floppy_throttle_on_read and floppy_throttle_on_write
    method OnRequest(r: IoRequest)
      requires Valid() && r.InRange()
      modifies this`lastTrack, this`history, this`seeks, this`transferUs
      ensures Valid() && history == old(history) + [r]
      ensures var kbps := if r.isWrite then writeKbps else readKbps;
              && transferUs == old(transferUs) + (if kbps > 0 then IoUs(r.nblocks, kbps) else 0)
              && (kbps == 0 && seekUs == 0 ==> seeks == old(seeks) && lastTrack == old(lastTrack))
              && (kbps > 0 || seekUs > 0 ==>
                    && lastTrack == Track(r.lba)
                    && seeks == old(seeks)
                                + (if seekUs > 0 && Track(r.lba) != old(lastTrack) then 1 else 0))
    {
      ApplyIoDelay(r, if r.isWrite then writeKbps else readKbps);
    }

    // Over any run of requests, with presets switched at any time, no more seeks
    // are charged than one and the tracks the head has crossed, except that a
    // request for no blocks can cost two more.
    lemma SeekBound()
      requires Valid() && AllFit(history)
      ensures seeks <= 1 + Travel(None, history) + 2 * Empties(history)
    {
    }
  }

  // do_read and do_write hand every request to the limiter and then to the
  // counter, while presets are switched at any time.
  method Serve(limiter: Limiter, tracker: Tracker, rs: seq<IoRequest>)
    requires limiter.Valid() && tracker.Valid() && limiter.history == tracker.history
    requires AllInRange(rs)
    modifies limiter, tracker
    ensures limiter.Valid() && tracker.Valid()
    ensures limiter.history == tracker.history == old(tracker.history) + rs
    ensures AllFit(tracker.history) ==>
              && tracker.trackCrossings == Travel(None, tracker.history)
              && limiter.seeks <= 1 + tracker.trackCrossings + 2 * Empties(tracker.history)
  {
    var i := 0;
    while i < |rs|
      invariant i <= |rs| && limiter.Valid() && tracker.Valid()
      invariant limiter.history == tracker.history == old(tracker.history) + rs[..i]
    {
      var switch: bool, name: string := *, *;
      if switch {
        var rc := limiter.SetPreset(name);
      }
      limiter.OnRequest(rs[i]);
      tracker.Record(rs[i]);
      assert rs[..i + 1] == rs[..i] + [rs[i]];
      i := i + 1;
    }
    assert rs[..i] == rs;
  }

  // One block of track 0, or none of track 1.
  const READ_ONE := IoRequest(0, 1, false)
  const READ_NONE := IoRequest(SECTORS_PER_TRACK, 0, false)

  // Two seeks for a request of no blocks are really charged, however many there
  // are: the head does not move, and the bound is met.
  method EmptyRequestsCostTwo(n: nat) returns (t: Limiter)
    ensures fresh(t) && t.Valid() && t.seeks == 1 + 2 * n && AllFit(t.history)
    ensures Travel(None, t.history) == 0 && Empties(t.history) == n && |t.history| == 1 + 2 * n
  {
    t := new Limiter();
    t.OnRequest(READ_ONE);
    OneMore([], READ_ONE);
    WalkClosed(None, 0, 1);
    WalkClosed(Some(0), 0, 1);
    var i := 0;
    while i < n
      invariant t.Valid() && fresh(t) && t.seekUs > 0 && t.lastTrack == 0 && i <= n
      invariant t.seeks == 1 + 2 * i && |t.history| == 1 + 2 * i && AllFit(t.history)
      invariant Travel(None, t.history) == 0 && HeadAfterAll(None, t.history) == Some(0)
      invariant Empties(t.history) == i
    {
      OneMore(t.history, READ_NONE);
      OneMore(t.history + [READ_NONE], READ_ONE);
      t.OnRequest(READ_NONE);
      t.OnRequest(READ_ONE);
      i := i + 1;
    }
  }

  lemma OneMore(rs: seq<IoRequest>, r: IoRequest)
    ensures Travel(None, rs + [r]) == Travel(None, rs) + Walk(HeadAfterAll(None, rs), r.lba, r.nblocks)
    ensures HeadAfterAll(None, rs + [r]) == HeadAfter(HeadAfterAll(None, rs), r.lba, r.nblocks)
    ensures Empties(rs + [r]) == Empties(rs) + (if r.nblocks == 0 then 1 else 0)
    ensures AllFit(rs + [r]) <==> AllFit(rs) && r.Fits()
  {
    TravelSnoc(None, rs, r);
    AllFitSnoc(rs, r);
    assert (rs + [r])[..|rs|] == rs;
  }
}
