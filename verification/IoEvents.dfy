// The track-crossing counter: a closed form per request against the head of a
// drive that visits every block.
module IoEvents {
  import opened Base

  const SECTORS_PER_TRACK: nat := 36

  // One request published by do_read or do_write.
  datatype IoRequest = IoRequest(lba: nat, nblocks: nat, isWrite: bool) {
    // The request fits the u32 parameters it is passed in.
    predicate InRange() {
      lba < U32 && nblocks < U32
    }

    // And so does its last block.
    predicate Fits() {
      InRange() && lba + nblocks <= U32
    }
  }

  predicate AllInRange(rs: seq<IoRequest>) {
    forall i | 0 <= i < |rs| :: rs[i].InRange()
  }

  predicate AllFit(rs: seq<IoRequest>) {
    forall i | 0 <= i < |rs| :: rs[i].Fits()
  }

  lemma AllFitSnoc(rs: seq<IoRequest>, r: IoRequest)
    ensures AllFit(rs + [r]) <==> AllFit(rs) && r.Fits()
  {
    if AllFit(rs + [r]) {
      forall i | 0 <= i < |rs|
        ensures rs[i].Fits()
      {
        assert (rs + [r])[i].Fits();
      }
      assert (rs + [r])[|rs|].Fits();
    }
  }

  function Track(block: nat): nat {
    block / SECTORS_PER_TRACK
  }

  // A track is 36 blocks.
  lemma TrackIs(block: nat, track: nat)
    ensures Track(block) == track <==> 36 * track <= block < 36 * (track + 1)
  {
  }

  // ------------------------------------------------------ the head of the drive

  // How far the head moves to the track of a block.  Before the first block of
  // all it is nowhere, and gets there without being heard.
  function Move(head: Option<nat>, block: nat): nat {
    if head.None? then 0 else Abs(Track(block) - head.value)
  }

  // How far it moves to visit n blocks from lba on, one after the other.
  function Walk(head: Option<nat>, lba: nat, n: nat): nat
    decreases n
  {
    if n == 0 then 0 else Move(head, lba) + Walk(Some(Track(lba)), lba + 1, n - 1)
  }

  // Where that leaves it.
  function HeadAfter(head: Option<nat>, lba: nat, n: nat): Option<nat> {
    if n == 0 then head else Some(Track(lba + n - 1))
  }

  // Visiting the blocks of every request, in order.
  function Travel(head: Option<nat>, rs: seq<IoRequest>): nat
    decreases |rs|
  {
    if rs == [] then 0
    else Walk(head, rs[0].lba, rs[0].nblocks)
         + Travel(HeadAfter(head, rs[0].lba, rs[0].nblocks), rs[1..])
  }

  function HeadAfterAll(head: Option<nat>, rs: seq<IoRequest>): Option<nat>
    decreases |rs|
  {
    if rs == [] then head
    else HeadAfterAll(HeadAfter(head, rs[0].lba, rs[0].nblocks), rs[1..])
  }

  lemma TrackMonotone(a: nat, b: nat)
    requires a <= b
    ensures Track(a) <= Track(b)
  {
  }

  // Inside one request the head only moves forward.
  lemma {:induction false} WalkForward(lba: nat, n: nat)
    requires n > 0
    ensures Walk(Some(Track(lba)), lba, n) == Track(lba + n - 1) - Track(lba)
    decreases n
  {
    TrackMonotone(lba, lba + n - 1);
    if n > 1 {
      TrackMonotone(lba, lba + 1);
      TrackMonotone(lba + 1, lba + n - 1);
      WalkForward(lba + 1, n - 1);
      WalkFrom(Some(Track(lba)), lba + 1, n - 1);
    }
  }

  // The first block decides where the walk starts; from there on it is forward.
  lemma {:induction false} WalkFrom(head: Option<nat>, lba: nat, n: nat)
    requires n > 0
    ensures Walk(head, lba, n) == Move(head, lba) + Walk(Some(Track(lba)), lba, n)
  {
  }

  // The closed form.
  lemma WalkClosed(head: Option<nat>, lba: nat, n: nat)
    requires n > 0
    ensures Track(lba) <= Track(lba + n - 1)
    ensures Walk(head, lba, n) == Move(head, lba) + (Track(lba + n - 1) - Track(lba))
  {
    TrackMonotone(lba, lba + n - 1);
    WalkForward(lba, n);
    WalkFrom(head, lba, n);
  }

  // From the first block of a floppy to the last the head crosses 79 tracks.
  lemma WholeFloppy()
    ensures Walk(None, 0, 2880) == 79
  {
    WalkClosed(None, 0, 2880);
    TrackIs(0, 0);
    TrackIs(2879, 79);
  }

  // Cutting a request in two changes nothing.
  lemma {:induction false} WalkSplit(head: Option<nat>, lba: nat, m: nat, n: nat)
    ensures Walk(head, lba, m + n)
            == Walk(head, lba, m) + Walk(HeadAfter(head, lba, m), lba + m, n)
    decreases m
  {
    if m > 0 {
      WalkSplit(Some(Track(lba)), lba + 1, m - 1, n);
    }
  }

  lemma {:induction false} TravelSnoc(head: Option<nat>, rs: seq<IoRequest>, r: IoRequest)
    ensures Travel(head, rs + [r])
            == Travel(head, rs) + Walk(HeadAfterAll(head, rs), r.lba, r.nblocks)
    ensures HeadAfterAll(head, rs + [r]) == HeadAfter(HeadAfterAll(head, rs), r.lba, r.nblocks)
    decreases |rs|
  {
    if rs != [] {
      assert (rs + [r])[1..] == rs[1..] + [r];
      TravelSnoc(HeadAfter(head, rs[0].lba, rs[0].nblocks), rs[1..], r);
    } else {
      assert (rs + [r])[1..] == [];
    }
  }

  // Some request was for at least one block.
  ghost predicate AnyBlocks(rs: seq<IoRequest>) {
    exists i | 0 <= i < |rs| :: rs[i].nblocks > 0
  }

  lemma AnyBlocksSnoc(rs: seq<IoRequest>, r: IoRequest)
    ensures AnyBlocks(rs + [r]) <==> AnyBlocks(rs) || r.nblocks > 0
  {
    if i :| 0 <= i < |rs| && rs[i].nblocks > 0 {
      assert (rs + [r])[i].nblocks > 0;
    }
    if r.nblocks > 0 {
      assert (rs + [r])[|rs|].nblocks > 0;
    }
  }

  // ------------------------------------------------------ the counter

  // struct floppy_io_event_state
  class Tracker {
    var totalBlocks: nat
    var lastLba: nat
    var lastIsWrite: bool
    var trackCrossings: nat
    var lastEndTrack: nat

    // Every request recorded so far.
    ghost var history: seq<IoRequest>

    // Where the tracker believes the head is.
    ghost function Head(): Option<nat>
      reads this
    {
      if totalBlocks > 0 then Some(lastEndTrack) else None
    }

    // A positive block count means exactly that there was a request before, and as
    // long as the last block of every request fits 32 bits the counter is the travel
    // of the head.
    ghost predicate Valid()
      reads this
    {
      && (totalBlocks > 0 <==> AnyBlocks(history))
      && (AllFit(history) ==>
            trackCrossings == Travel(None, history) && HeadAfterAll(None, history) == Head())
    }

    constructor ()
      ensures Valid() && history == [] && trackCrossings == 0
    {
      totalBlocks, lastLba, lastIsWrite, trackCrossings, lastEndTrack := 0, 0, false, 0, 0;
      history := [];
    }

    // The crossings floppy_io_event_record adds for a request.  If the last block does
    // not fit, those inside the request are not counted.
    method Crossings(lba: nat, nblocks: nat) returns (crossings: nat, endTrack: nat)
      requires lba < U32 && 0 < nblocks < U32
      ensures endTrack == Track((lba + nblocks - 1) % U32)
      ensures crossings == if lba + nblocks <= U32 then Walk(Head(), lba, nblocks) else Move(Head(), lba)
    {
      var startTrack := Track(lba);
      endTrack := Track((lba + nblocks - 1) % U32);
      crossings := 0;
      if endTrack > startTrack {
        crossings := crossings + (endTrack - startTrack);
      }
      if totalBlocks > 0 {
        if startTrack != lastEndTrack {
          crossings := crossings + if startTrack > lastEndTrack then startTrack - lastEndTrack
                                   else lastEndTrack - startTrack;
        }
      }
      if lba + nblocks <= U32 {
        SmallMod(lba + nblocks - 1, U32);
        WalkClosed(Head(), lba, nblocks);
      } else {
        assert (lba + nblocks - 1) % U32 == lba + nblocks - 1 - U32;
        TrackMonotone(lba + nblocks - 1 - U32, lba);
      }
    }

    // floppy_io_event_record
    method Record(r: IoRequest)
      requires Valid() && r.InRange()
      modifies this
      ensures Valid() && history == old(history) + [r]
      ensures totalBlocks == old(totalBlocks) + r.nblocks
      ensures r.nblocks > 0 ==>
                trackCrossings == old(trackCrossings)
                                  + if r.Fits() then Walk(old(Head()), r.lba, r.nblocks)
                                    else Move(old(Head()), r.lba)
      ensures r.nblocks > 0 ==> lastLba == r.lba && lastIsWrite == r.isWrite
      ensures r.nblocks == 0 ==>
                trackCrossings == old(trackCrossings) && lastEndTrack == old(lastEndTrack)
                && lastLba == old(lastLba) && lastIsWrite == old(lastIsWrite)
    {
      TravelSnoc(None, history, r);
      AnyBlocksSnoc(history, r);
      AllFitSnoc(history, r);
      history := history + [r];
      if r.nblocks == 0 {
        return;
      }
      if r.Fits() {
        SmallMod(r.lba + r.nblocks - 1, U32);
      }
      var crossings, endTrack := Crossings(r.lba, r.nblocks);
      trackCrossings := trackCrossings + crossings;
      totalBlocks := totalBlocks + r.nblocks;
      lastLba, lastEndTrack, lastIsWrite := r.lba, endTrack, r.isWrite;
    }
  }

  // A request whose last block does not fit in 32 bits leaves the counter with
  // another track than the one the head is on; every other leaves it right.
  lemma EndTrackRight(lba: nat, nblocks: nat)
    requires lba < U32 && 0 < nblocks < U32
    ensures Track((lba + nblocks - 1) % U32) == Track(lba + nblocks - 1) <==> lba + nblocks <= U32
  {
    if lba + nblocks > U32 {
      var last := lba + nblocks - 1;
      assert last % U32 == last - U32;
      TrackMonotone(last - U32 + SECTORS_PER_TRACK, last);
    }
  }
}
