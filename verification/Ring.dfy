// The cyclic list of buffer heads and the window of bulk-out requests in it.
//
// The thread walks the ring with two pointers: `fill`, the next buffer to give
// to an endpoint, and `drain`, the next buffer whose data it will look at.
// Completion interrupts change buffer states behind its back.  A window is the
// run of buffers from `drain` up to `fill`, in cyclic order.
module Ring {
  import opened Base

  // What the host sent for one bulk-out request: how many bytes were asked for,
  // the bytes that came, and the status of the transfer.
  datatype Arrival = Arrival(asked: nat, payload: seq<byte>, status: int) {
    // The host stopped early, or the transfer failed.
    predicate CutOff() {
      |payload| < asked || status != 0
    }
  }

  datatype BufState = Sending | Receiving | Empty | Full

  // struct fsg_buffhd.  `buf` is the whole buffer, stale bytes included;
  // `outLength` is outreq->length, `actual` and `status` are what bulk_out_complete
  // found in outreq, and `inLength` is inreq->length.
  datatype BuffHd = BuffHd(
    state: BufState, buf: seq<byte>, intended: nat, outLength: nat,
    actual: nat, status: int, inLength: nat)
  {
    predicate Ok() {
      |buf| == BUFLEN && outLength <= BUFLEN && actual <= BUFLEN && inLength <= BUFLEN
      && intended <= BUFLEN
    }

    predicate Busy() {
      state == Sending || state == Receiving
    }

    // The bytes the last bulk-out completion delivered.
    function Payload(): seq<byte> {
      if actual <= |buf| then buf[..actual] else buf
    }

    // The last bulk-out completion, as the host saw it.
    function Arrived(): Arrival {
      Arrival(intended, Payload(), status)
    }

    // The bytes a bulk-in transfer of this buffer puts on the wire.
    function Outgoing(): seq<byte> {
      if inLength <= |buf| then buf[..inLength] else buf
    }
  }

  // The ring position j places after base.
  function At(base: nat, j: nat, n: nat): (i: nat)
    requires base < n && j <= n
    ensures i < n
  {
    if base + j < n then base + j else base + j - n
  }

  // How far i lies after base.
  function Pos(base: nat, i: nat, n: nat): (j: nat)
    requires base < n && i < n
    ensures j < n && At(base, j, n) == i
  {
    if base <= i then i - base else i + n - base
  }

  lemma AtInjective(base: nat, j: nat, k: nat, n: nat)
    requires base < n && j < n && k < n && j != k
    ensures At(base, j, n) != At(base, k, n)
  {
  }

  // `win` is the window that starts at `base`: a run of completed requests
  // (Full), oldest first, followed by the requests still in the bulk-out
  // endpoint's queue (Receiving), oldest first.  No other buffer is Receiving.
  ghost predicate Coupled(bufs: seq<BuffHd>, base: nat, queue: seq<nat>, win: seq<BuffHd>) {
    && base < |bufs|
    && |queue| <= |win| <= |bufs|
    && (forall j | 0 <= j < |win| :: bufs[At(base, j, |bufs|)] == win[j])
    && (forall j | |win| <= j < |bufs| :: bufs[At(base, j, |bufs|)].state != Receiving)
    && (forall j | 0 <= j < |win| - |queue| :: win[j].state == Full)
    && (forall j | 0 <= j < |queue| ::
          queue[j] == At(base, |win| - |queue| + j, |bufs|))
    && (forall j | |win| - |queue| <= j < |win| :: win[j].state == Receiving)
  }

  // Every buffer outside the window is Empty: the ring of a bulk-out command.
  ghost predicate RestEmpty(bufs: seq<BuffHd>, base: nat, w: nat)
    requires base < |bufs|
  {
    forall j | w <= j < |bufs| :: bufs[At(base, j, |bufs|)].state == Empty
  }

  // One buffer as interrupts may leave it: completions only ever turn Sending
  // into Empty and Receiving into Full, and leave idle buffers alone.
  ghost predicate After(x: BuffHd, y: BuffHd) {
    || y == x
    || (x.state == Sending && y == x.(state := Empty))
    || (x.state == Receiving && y.state == Full && y.Ok()
        && y.intended == x.intended && y.outLength == x.outLength
        && y.inLength == x.inLength && y.actual <= x.outLength)
  }

  ghost predicate Later(s: seq<BuffHd>, t: seq<BuffHd>) {
    |t| == |s| && forall i | 0 <= i < |s| :: After(s[i], t[i])
  }

  lemma LaterTransitive(s: seq<BuffHd>, t: seq<BuffHd>, u: seq<BuffHd>)
    requires Later(s, t) && Later(t, u)
    ensures Later(s, u)
  {
  }

  lemma LaterTail(s: seq<BuffHd>, t: seq<BuffHd>)
    requires Later(s, t) && s != []
    ensures After(s[0], t[0]) && Later(s[1..], t[1..])
  {
    forall i | 0 <= i < |s[1..]|
      ensures After(s[1..][i], t[1..][i])
    {
      assert s[1..][i] == s[i + 1] && t[1..][i] == t[i + 1];
    }
  }

  lemma ShortIsCut(b: BuffHd)
    requires b.Ok() && b.actual < b.intended
    ensures b.Arrived().CutOff()
  {
  }

  // The bytes of a run of transfers, in order.
  function Payloads(s: seq<Arrival>): seq<byte> {
    if s == [] then [] else Payloads(s[..|s| - 1]) + s[|s| - 1].payload
  }

  // The bytes of a run of bulk-in transfers, in order.
  function Bytes(s: seq<seq<byte>>): seq<byte> {
    if s == [] then [] else Bytes(s[..|s| - 1]) + s[|s| - 1]
  }

  lemma BytesSnoc(s: seq<seq<byte>>, x: seq<byte>)
    ensures Bytes(s + [x]) == Bytes(s) + x
  {
    assert (s + [x])[..|s|] == s;
  }

  // The last of the first n transfers failed.
  predicate LastFailed(s: seq<Arrival>, n: nat) {
    0 < n <= |s| && s[n - 1].status != 0
  }

  // Later transfers change nothing about that.
  lemma LastFailedStays(s: seq<Arrival>, t: seq<Arrival>, n: nat)
    requires s <= t && n <= |s|
    ensures LastFailed(t, n) == LastFailed(s, n)
  {
  }

  // The bytes asked for by a run of transfers.
  function AskedFor(s: seq<Arrival>): nat {
    if s == [] then 0 else AskedFor(s[..|s| - 1]) + s[|s| - 1].asked
  }

  // The bytes asked for by the requests still outstanding, which are those from c on.
  ghost function Wanted(w: seq<BuffHd>, c: nat): nat
    decreases |w| - c
  {
    if c >= |w| then 0 else w[c].intended + Wanted(w, c + 1)
  }

  predicate AnyCutOff(s: seq<Arrival>) {
    exists i | 0 <= i < |s| :: s[i].CutOff()
  }

  lemma Snoc(s: seq<Arrival>, a: Arrival)
    ensures Payloads(s + [a]) == Payloads(s) + a.payload
    ensures AskedFor(s + [a]) == AskedFor(s) + a.asked
  {
    assert (s + [a])[..|s|] == s;
  }

  lemma {:induction false} WantedSnoc(w: seq<BuffHd>, c: nat, b: BuffHd)
    requires c <= |w|
    ensures Wanted(w + [b], c) == Wanted(w, c) + b.intended
    decreases |w| - c
  {
    if c == |w| {
      assert Wanted(w + [b], c + 1) == 0;
    } else {
      WantedSnoc(w, c + 1, b);
    }
  }

  // It depends on nothing else.
  lemma {:induction false} WantedSame(v: seq<BuffHd>, c: nat, w: seq<BuffHd>, d: nat)
    requires |v| - c == |w| - d && forall i | c <= i < |v| :: v[i] == w[i - c + d]
    ensures Wanted(v, c) == Wanted(w, d)
    decreases |v| - c
  {
    if c < |v| {
      assert v[c] == w[d];
      WantedSame(v, c + 1, w, d + 1);
    }
  }

  // Submitting the buffer just past the window extends window and queue.
  lemma SubmitKeeps(bufs: seq<BuffHd>, base: nat, queue: seq<nat>, win: seq<BuffHd>, b: BuffHd)
    requires Coupled(bufs, base, queue, win) && |win| < |bufs| && b.state == Receiving
    ensures var i := At(base, |win|, |bufs|);
            Coupled(bufs[i := b], base, queue + [i], win + [b])
  {
    var n := |bufs|;
    var i := At(base, |win|, n);
    forall j | 0 <= j < n && j != |win|
      ensures bufs[i := b][At(base, j, n)] == bufs[At(base, j, n)]
    {
      AtInjective(base, j, |win|, n);
    }
  }

  // A completion of the oldest queued request turns one Receiving into Full.
  lemma CompleteKeeps(bufs: seq<BuffHd>, base: nat, queue: seq<nat>, win: seq<BuffHd>, b: BuffHd)
    requires Coupled(bufs, base, queue, win) && queue != [] && b.state == Full
    ensures var c := |win| - |queue|;
            && queue[0] == At(base, c, |bufs|)
            && Coupled(bufs[queue[0] := b], base, queue[1..], win[c := b])
  {
    var n := |bufs|;
    var c := |win| - |queue|;
    assert queue[0] == At(base, c + 0, n);
    forall j | 0 <= j < n && j != c
      ensures bufs[queue[0] := b][At(base, j, n)] == bufs[At(base, j, n)]
    {
      AtInjective(base, j, c, n);
    }
    forall j | 0 <= j < |queue[1..]|
      ensures queue[1..][j] == At(base, |win| - |queue[1..]| + j, n)
    {
      assert queue[1..][j] == queue[j + 1];
    }
  }

  // Emptying the oldest completed buffer advances the window by one place.
  lemma DrainKeeps(bufs: seq<BuffHd>, base: nat, queue: seq<nat>, win: seq<BuffHd>)
    requires Coupled(bufs, base, queue, win) && win != [] && win[0].state == Full
    requires RestEmpty(bufs, base, |win|)
    ensures bufs[base] == win[0]
    ensures var bufs' := bufs[base := bufs[base].(state := Empty)];
            var base' := At(base, 1, |bufs|);
            && Coupled(bufs', base', queue, win[1..])
            && RestEmpty(bufs', base', |win| - 1)
            && At(base', |win| - 1, |bufs|) == At(base, |win|, |bufs|)
  {
    var n := |bufs|;
    var bufs' := bufs[base := bufs[base].(state := Empty)];
    var base' := At(base, 1, n);
    assert At(base, 0, n) == base;
    forall j | 0 <= j < n - 1
      ensures At(base', j, n) == At(base, j + 1, n)
      ensures bufs'[At(base', j, n)] == bufs[At(base, j + 1, n)]
    {
      AtInjective(base, j + 1, 0, n);
    }
    assert At(base', n - 1, n) == base;
    forall j | 0 <= j < |queue|
      ensures queue[j] == At(base', |win[1..]| - |queue| + j, n)
    {
      assert queue[j] == At(base, |win| - |queue| + j, n);
    }
  }

  // Changing a buffer outside the window, without making it Receiving.
  lemma OutsideKeeps(bufs: seq<BuffHd>, base: nat, queue: seq<nat>, win: seq<BuffHd>,
                     i: nat, b: BuffHd)
    requires Coupled(bufs, base, queue, win) && i < |bufs| && b.state != Receiving
    requires |win| <= Pos(base, i, |bufs|)
    ensures Coupled(bufs[i := b], base, queue, win)
  {
    var n := |bufs|;
    forall j | 0 <= j < |win|
      ensures bufs[i := b][At(base, j, n)] == bufs[At(base, j, n)]
    {
      AtInjective(base, j, Pos(base, i, n), n);
    }
  }

  // An idle or sending buffer that is not Full lies outside the window.
  lemma OutsideWindow(bufs: seq<BuffHd>, base: nat, queue: seq<nat>, win: seq<BuffHd>, i: nat)
    requires Coupled(bufs, base, queue, win) && i < |bufs|
    requires bufs[i].state == Sending || bufs[i].state == Empty
    ensures |win| <= Pos(base, i, |bufs|)
  {
    assert i == At(base, Pos(base, i, |bufs|), |bufs|);
  }

  // A Receiving buffer is in the queue, so the queue is not empty.
  lemma ReceivingQueued(bufs: seq<BuffHd>, base: nat, queue: seq<nat>, win: seq<BuffHd>, i: nat)
    requires Coupled(bufs, base, queue, win) && i < |bufs| && bufs[i].state == Receiving
    ensures queue != []
  {
    var j := Pos(base, i, |bufs|);
    assert bufs[At(base, j, |bufs|)].state == Receiving;
  }

  // RestEmpty is stable under interrupts.
  lemma RestEmptyStable(bufs: seq<BuffHd>, later: seq<BuffHd>, base: nat, w: nat)
    requires base < |bufs| && RestEmpty(bufs, base, w) && Later(bufs, later)
    ensures RestEmpty(later, base, w)
  {
  }

  // An empty window can be started anywhere.
  lemma EmptyWindow(bufs: seq<BuffHd>, base: nat)
    requires base < |bufs|
    requires forall i | 0 <= i < |bufs| :: bufs[i].state != Receiving
    ensures Coupled(bufs, base, [], [])
  {
  }

  ghost predicate AllOk(bufs: seq<BuffHd>) {
    forall i | 0 <= i < |bufs| :: bufs[i].Ok()
  }

  // Everything that ever came in on bulk-out: up to the wrapper of the command being
  // carried out, and since; how much of the latter the thread has drained, and what
  // it comes to: the bytes drained, and the bytes asked for.
  datatype Tape = Tape(
    past: seq<Arrival>, data: seq<Arrival>, drained: nat, consumed: seq<byte>, asked: nat)
  {
    function Heard(): seq<Arrival> {
      past + data
    }

    // The j-th transfer that has not been drained yet.
    function Waiting(j: nat): Arrival
      requires drained + j < |data|
    {
      data[drained + j]
    }

    // One more transfer comes in.
    function Hear(a: Arrival): Tape {
      this.(data := data + [a])
    }

    // One more transfer is drained.
    function Drain(): Tape
      requires drained < |data|
    {
      this.(drained := drained + 1, consumed := consumed + data[drained].payload)
    }

    // Everything has been drained.
    function Settle(): Tape {
      Tape(past, data, |data|, Payloads(data), AskedFor(data))
    }

    // The next command begins.
    function Restart(): Tape {
      Tape(Heard(), [], 0, [], 0)
    }
  }

  // The window holds what has come in and has not been drained, followed by what
  // is outstanding.
  ghost predicate Carries(win: seq<BuffHd>, c: nat, t: Tape)
    requires c <= |win|
  {
    && t.drained + c == |t.data|
    && (forall j {:trigger t.Waiting(j)} | 0 <= j < c :: t.Waiting(j) == win[j].Arrived())
    && t.consumed == Payloads(t.data[..t.drained])
    && t.asked == AskedFor(t.data) + Wanted(win, c)
  }

  // The ring together with the stream of transfers it carries.
  ghost predicate Pipe(bufs: seq<BuffHd>, base: nat, queue: seq<nat>, win: seq<BuffHd>, t: Tape) {
    && Coupled(bufs, base, queue, win)
    && AllOk(bufs)
    && Carries(win, |win| - |queue|, t)
  }

  // A pipe with nothing in it can be started anywhere.
  lemma EmptyPipe(bufs: seq<BuffHd>, base: nat, t: Tape)
    requires base < |bufs| && AllOk(bufs)
    requires forall i | 0 <= i < |bufs| :: bufs[i].state != Receiving
    ensures Pipe(bufs, base, [], [], t.Settle()) && Pipe(bufs, base, [], [], t.Restart())
  {
    EmptyWindow(bufs, base);
    assert t.data[..|t.data|] == t.data;
  }

  // The buffers of a new ring.
  function NewBuffers(n: nat): (bufs: seq<BuffHd>)
    ensures |bufs| == n && forall i | 0 <= i < n :: bufs[i].Ok() && bufs[i].state == Empty
  {
    seq(n, i => BuffHd(Empty, seq(BUFLEN, j => 0), 0, 0, 0, 0, 0))
  }

  // A transfer that completes moves from what is outstanding to what has come in.
  lemma CarriesComplete(win: seq<BuffHd>, c: nat, t: Tape, done: BuffHd)
    requires c < |win| && Carries(win, c, t) && done.intended == win[c].intended
    ensures Carries(win[c := done], c + 1, t.Hear(done.Arrived()))
  {
    var t' := t.Hear(done.Arrived());
    assert t'.data[..t.drained] == t.data[..t.drained];
    Snoc(t.data, done.Arrived());
    WantedSame(win, c + 1, win[c := done], c + 1);
    forall j | 0 <= j < c + 1
      ensures t'.Waiting(j) == win[c := done][j].Arrived()
    {
      if j < c {
        assert t'.Waiting(j) == t.Waiting(j) == win[j].Arrived();
      } else {
        assert t'.Waiting(j) == t'.data[|t.data|] == done.Arrived();
      }
    }
  }

  lemma CarriesRequest(win: seq<BuffHd>, c: nat, t: Tape, b: BuffHd)
    requires c <= |win| && Carries(win, c, t)
    ensures Carries(win + [b], c, t.(asked := t.asked + b.intended))
  {
    var t' := t.(asked := t.asked + b.intended);
    WantedSnoc(win, c, b);
    forall j | 0 <= j < c
      ensures t'.Waiting(j) == (win + [b])[j].Arrived()
    {
      assert t.Waiting(j) == win[j].Arrived();
    }
  }

  lemma CarriesDrain(win: seq<BuffHd>, c: nat, t: Tape)
    requires 0 < c <= |win| && Carries(win, c, t)
    ensures t.drained < |t.data| && t.data[t.drained] == win[0].Arrived()
    ensures Carries(win[1..], c - 1, t.Drain())
  {
    assert t.data[..t.drained + 1] == t.data[..t.drained] + [t.data[t.drained]];
    Snoc(t.data[..t.drained], t.data[t.drained]);
    WantedSame(win, c, win[1..], c - 1);
    assert t.Waiting(0) == win[0].Arrived();
    forall j | 0 <= j < c - 1
      ensures t.Drain().Waiting(j) == win[1..][j].Arrived()
    {
      assert t.Waiting(j + 1) == win[j + 1].Arrived();
    }
  }

  // A buffer as bulk_out_complete leaves it.
  function Completed(b: BuffHd, payload: seq<byte>, status: int): (r: BuffHd)
    requires b.Ok() && |payload| <= b.outLength
    ensures r.Ok() && r.state == Full && r.Payload() == payload
  {
    b.(state := Full, buf := payload + b.buf[|payload|..], actual := |payload|, status := status)
  }

  lemma PipeComplete(bufs: seq<BuffHd>, base: nat, queue: seq<nat>, win: seq<BuffHd>, t: Tape,
                     payload: seq<byte>, status: int)
    requires Pipe(bufs, base, queue, win, t) && queue != []
    requires queue[0] < |bufs| && |payload| <= bufs[queue[0]].outLength
    ensures var done := Completed(bufs[queue[0]], payload, status);
            var win' := win[|win| - |queue| := done];
            && Pipe(bufs[queue[0] := done], base, queue[1..], win', t.Hear(done.Arrived()))
            && Later(bufs, bufs[queue[0] := done]) && Later(win, win')
  {
    var done := Completed(bufs[queue[0]], payload, status);
    CompleteKeeps(bufs, base, queue, win, done);
    var c := |win| - |queue|;
    assert win[c].state == Receiving && bufs[At(base, c, |bufs|)] == win[c];
    CarriesComplete(win, c, t, done);
  }

  // Completion of the bulk-in transfer in buffer i.
  lemma PipeSent(bufs: seq<BuffHd>, base: nat, queue: seq<nat>, win: seq<BuffHd>, t: Tape, i: nat)
    requires Pipe(bufs, base, queue, win, t)
    requires i < |bufs| && bufs[i].state == Sending
    ensures var bufs' := bufs[i := bufs[i].(state := Empty)];
            Pipe(bufs', base, queue, win, t) && Later(bufs, bufs')
  {
    OutsideWindow(bufs, base, queue, win, i);
    OutsideKeeps(bufs, base, queue, win, i, bufs[i].(state := Empty));
  }

  // A bulk-out request length rounded up to whole packets.
  function RoundUp(length: nat, packet: nat): (r: nat)
    requires packet > 0
    ensures length <= r
  {
    if length % packet > 0 then length + (packet - length % packet) else length
  }

  // A request is rounded to whole packets, and by less than one.
  lemma RoundUpPackets(length: nat, packet: nat)
    requires packet > 0
    ensures RoundUp(length, packet) % packet == 0 && length <= RoundUp(length, packet) < length + packet
  {
    var d := length / packet;
    assert length == packet * d + length % packet;
    if length % packet > 0 {
      assert RoundUp(length, packet) == packet * d + packet;
      Distribute(packet, d, 1);
      MultipleMod(packet, d + 1);
    }
  }

  // A packet size that divides the buffer size keeps every rounded request in
  // the buffer, and leaves whole-buffer requests alone.
  lemma RoundUpFits(length: nat, packet: nat)
    requires packet > 0 && BUFLEN % packet == 0 && length <= BUFLEN
    ensures RoundUp(length, packet) <= BUFLEN
    ensures length == BUFLEN ==> RoundUp(length, packet) == length
  {
    var q, d := BUFLEN / packet, length / packet;
    assert length == packet * d + length % packet;
    assert BUFLEN == packet * q;
    if length % packet > 0 {
      assert RoundUp(length, packet) == packet * d + packet;
      Distribute(packet, q, d);
      PositiveMultiple(packet, q - d);
    }
  }

  lemma PositiveMultiple(b: nat, x: int)
    requires b > 0 && b * x > 0
    ensures b * x >= b
  {
  }

  // A buffer handed to the bulk-out endpoint for a request of `length` bytes.
  function Requested(b: BuffHd, length: nat, packet: nat): BuffHd
    requires packet > 0
  {
    b.(state := Receiving, intended := length, outLength := RoundUp(length, packet))
  }

  lemma PipeRequest(bufs: seq<BuffHd>, base: nat, queue: seq<nat>, win: seq<BuffHd>, t: Tape,
                    length: nat, packet: nat)
    requires Pipe(bufs, base, queue, win, t) && |win| < |bufs|
    requires packet > 0 && BUFLEN % packet == 0 && length <= BUFLEN
    ensures var i := At(base, |win|, |bufs|);
            var b := Requested(bufs[i], length, packet);
            && b.Ok()
            && Pipe(bufs[i := b], base, queue + [i], win + [b], t.(asked := t.asked + length))
  {
    var i := At(base, |win|, |bufs|);
    RoundUpFits(length, packet);
    var b := Requested(bufs[i], length, packet);
    SubmitKeeps(bufs, base, queue, win, b);
    CarriesRequest(win, |win| - |queue|, t, b);
  }

  // Setting up and sending a buffer outside the window changes nothing for it.
  lemma PipeOutside(bufs: seq<BuffHd>, base: nat, queue: seq<nat>, win: seq<BuffHd>, t: Tape,
                    i: nat, b: BuffHd)
    requires Pipe(bufs, base, queue, win, t)
    requires i < |bufs| && |win| <= Pos(base, i, |bufs|) && b.state != Receiving && b.Ok()
    ensures Pipe(bufs[i := b], base, queue, win, t)
  {
    OutsideKeeps(bufs, base, queue, win, i, b);
  }

  predicate NoneSending(bufs: seq<BuffHd>) {
    forall k | 0 <= k < |bufs| :: bufs[k].state != Sending
  }

  // The ring during the data phase of a command that takes data from the host:
  // the window runs from the drain pointer to the fill pointer.
  ghost predicate OutRing(bufs: seq<BuffHd>, base: nat, w: nat, drain: nat, fill: nat)
  {
    && base < |bufs| && w <= |bufs|
    && drain == base && fill == At(base, w, |bufs|)
    && RestEmpty(bufs, base, w)
  }

  lemma OutRingRequest(bufs: seq<BuffHd>, base: nat, w: nat, drain: nat, fill: nat, b: BuffHd)
    requires OutRing(bufs, base, w, drain, fill) && w < |bufs|
    ensures fill < |bufs|
    ensures OutRing(bufs[fill := b], base, w + 1, drain, At(fill, 1, |bufs|))
  {
    var n := |bufs|;
    forall j | w + 1 <= j < n
      ensures bufs[fill := b][At(base, j, n)].state == Empty
    {
      AtInjective(base, j, w, n);
    }
  }

  // The head of the window is the buffer at the drain pointer; it is idle only
  // if its data has arrived.
  lemma WindowHead(bufs: seq<BuffHd>, base: nat, queue: seq<nat>, win: seq<BuffHd>)
    requires Coupled(bufs, base, queue, win) && win != []
    ensures bufs[base] == win[0]
    ensures !bufs[base].Busy() ==> win[0].state == Full
  {
    assert At(base, 0, |bufs|) == base;
  }

  // With an empty window the buffer at the drain pointer is Empty, and with a
  // window that is not full so is the one at the fill pointer.
  lemma OutRingEnds(bufs: seq<BuffHd>, base: nat, queue: seq<nat>, win: seq<BuffHd>, drain: nat, fill: nat)
    requires Coupled(bufs, base, queue, win) && OutRing(bufs, base, |win|, drain, fill)
    ensures bufs[drain].state == Empty <==> win == []
    ensures bufs[fill].state == Empty <==> |win| < |bufs|
  {
    assert At(base, 0, |bufs|) == base;
    assert At(base, |bufs|, |bufs|) == base;
    if win != [] {
      WindowHead(bufs, base, queue, win);
      assert win[0].state == Full || win[0].state == Receiving;
    }
  }

  // The head of the window, if its data has arrived, is what is drained next.
  lemma HeadDrains(bufs: seq<BuffHd>, base: nat, queue: seq<nat>, win: seq<BuffHd>, t: Tape)
    requires Pipe(bufs, base, queue, win, t) && win != [] && win[0].state == Full
    ensures t.drained < |t.data| && t.data[t.drained] == win[0].Arrived()
    ensures |queue| <= |win[1..]| && Carries(win[1..], |win[1..]| - |queue|, t.Drain())
    ensures AllOk(bufs[base := bufs[base].(state := Empty)])
  {
    assert |queue| < |win|;
    CarriesDrain(win, |win| - |queue|, t);
  }

  // Taking the head of the window out, with the stream position it had.
  lemma PipeDrain(bufs: seq<BuffHd>, base: nat, queue: seq<nat>, win: seq<BuffHd>, t: Tape)
    requires Pipe(bufs, base, queue, win, t) && RestEmpty(bufs, base, |win|)
    requires win != [] && win[0].state == Full
    ensures t.drained < |t.data| && t.data[t.drained] == win[0].Arrived()
    ensures Pipe(bufs[base := bufs[base].(state := Empty)], At(base, 1, |bufs|), queue, win[1..], t.Drain())
  {
    DrainKeeps(bufs, base, queue, win);
    HeadDrains(bufs, base, queue, win, t);
  }

  lemma OutRingDrain(bufs: seq<BuffHd>, base: nat, queue: seq<nat>, win: seq<BuffHd>, drain: nat, fill: nat)
    requires Coupled(bufs, base, queue, win) && OutRing(bufs, base, |win|, drain, fill)
    requires win != [] && win[0].state == Full
    ensures drain == base && bufs[base] == win[0]
    ensures var base' := At(base, 1, |bufs|);
            OutRing(bufs[base := bufs[base].(state := Empty)], base', |win| - 1, base', fill)
  {
    DrainKeeps(bufs, base, queue, win);
  }

  // No buffer holds data and no request is outstanding on bulk-out.
  ghost predicate AllIdle(bufs: seq<BuffHd>) {
    forall i | 0 <= i < |bufs| :: bufs[i].state == Empty || bufs[i].state == Sending
  }

  // The same, but for one buffer.
  ghost predicate IdleExcept(bufs: seq<BuffHd>, k: nat) {
    forall i | 0 <= i < |bufs| && i != k :: bufs[i].state == Empty || bufs[i].state == Sending
  }

  lemma AllIdleStable(bufs: seq<BuffHd>, later: seq<BuffHd>)
    requires AllIdle(bufs) && Later(bufs, later)
    ensures AllIdle(later)
  {
  }

  // The ring of a bulk-out command whose window is empty.
  lemma RestIsIdle(bufs: seq<BuffHd>, base: nat)
    requires base < |bufs| && RestEmpty(bufs, base, 0)
    ensures AllIdle(bufs) && bufs[base].state == Empty
  {
    forall i | 0 <= i < |bufs|
      ensures bufs[i].state == Empty
    {
      assert i == At(base, Pos(base, i, |bufs|), |bufs|);
    }
    assert At(base, 0, |bufs|) == base;
  }

  // A window of one buffer whose data has arrived: nothing is Receiving.
  lemma ReceivedOne(bufs: seq<BuffHd>, base: nat, queue: seq<nat>, win: seq<BuffHd>)
    requires Coupled(bufs, base, queue, win) && |win| == 1 && !bufs[base].Busy()
    ensures queue == [] && forall i | 0 <= i < |bufs| :: bufs[i].state != Receiving
  {
    WindowHead(bufs, base, queue, win);
    forall i | 0 <= i < |bufs|
      ensures bufs[i].state != Receiving
    {
      assert i == At(base, Pos(base, i, |bufs|), |bufs|);
    }
  }
}
