// The arithmetic of do_write: how far the requests to the host, the buffers
// drained and the blocks stored in the file have got relative to each other.
module WritePath {
  import opened Base
  import opened Ring

  // Where one WRITE goes: `total` bytes (already clipped to what the host
  // offers) at byte `off` of a file of `flen` bytes in blocks of `bs`.
  datatype Target = Target(total: nat, off: nat, flen: nat, bs: nat) {
    ghost predicate Ok() {
      BlockSize(bs) && off <= flen && total > 0
    }
  }

  // How many of the first m * BUFLEN bytes the command has.
  function Asked(total: nat, m: nat): nat {
    Min(total, m * BUFLEN)
  }

  // The length of the m-th request to the host.
  function RequestLength(total: nat, m: nat): nat {
    Asked(total, m + 1) - Asked(total, m)
  }

  // The m-th and last request began with bytes the command has, inside the file.
  predicate Began(t: Target, m: nat) {
    m == 0 || ((m - 1) * BUFLEN < t.total && t.off + (m - 1) * BUFLEN < t.flen)
  }

  // d requests drained, w more in the window, k bytes stored, c bytes consumed.
  datatype Progress = Progress(d: nat, w: nat, k: nat, c: nat) {
    // No later byte can be stored: less than a block is left before the end of
    // the file, or everything asked for has been drained.
    predicate Dead(t: Target) {
      t.flen - (t.off + k) < t.bs || (t.total <= d * BUFLEN && w == 0)
    }
  }

  ghost predicate Inv(t: Target, p: Progress) {
    && t.Ok()
    && p.k <= p.c && p.k % t.bs == 0
    && p.k <= Asked(t.total, p.d) && t.off + p.k <= t.flen
    && Began(t, p.d + p.w)
    && (p.k == p.c || p.Dead(t))
    && p.k == Reachable(t, p.d)
    && Asked(t.total, p.d) <= p.c <= p.d * BUFLEN && (p.d * BUFLEN < t.total ==> p.c == p.d * BUFLEN)
  }

  // Whole blocks of what has come in, was asked for and lies inside the file.
  function Storable(t: Target, c: nat): nat
    requires t.Ok()
  {
    RoundDown(Min(Min(c, t.total), t.flen - t.off), t.bs)
  }

  // As long as every buffer was as long as its request, all that is stored.
  lemma StoredStorable(t: Target, p: Progress)
    requires Inv(t, p)
    ensures p.k == Storable(t, p.c)
  {
  }

  // What d whole requests can leave in the file: the blocks of their data that
  // lie before its end.
  function Reachable(t: Target, d: nat): nat
    requires t.Ok()
  {
    RoundDown(Min(Asked(t.total, d), t.flen - t.off), t.bs)
  }

  // The flag and counters of the loop, as the requests made so far fix them.
  ghost predicate Counters(t: Target, p: Progress, more: bool, leftToReq: nat, usbOffset: nat) {
    && leftToReq == t.total - Asked(t.total, p.d + p.w)
    && usbOffset == t.off + Asked(t.total, p.d + p.w)
    && (more ==> leftToReq > 0)
    && (!more ==> leftToReq == 0 || usbOffset >= t.flen)
  }

  // The window holds the requests that follow the drained ones.
  ghost predicate Sized(win: seq<BuffHd>, total: nat, d: nat, packet: nat)
    requires packet > 0
  {
    forall j | 0 <= j < |win| ::
      && win[j].intended == RequestLength(total, d + j)
      && win[j].outLength == RoundUp(win[j].intended, packet)
      && (win[j].state == Full ==> win[j].actual <= win[j].outLength)
      && (win[j].state == Full || win[j].state == Receiving)
  }

  lemma SizedLater(win: seq<BuffHd>, later: seq<BuffHd>, total: nat, d: nat, packet: nat)
    requires packet > 0 && Sized(win, total, d, packet) && Later(win, later)
    ensures Sized(later, total, d, packet)
  {
  }

  lemma SizedMore(win: seq<BuffHd>, b: BuffHd, total: nat, d: nat, packet: nat)
    requires packet > 0 && Sized(win, total, d, packet)
    requires b.intended == RequestLength(total, d + |win|)
    requires b.outLength == RoundUp(b.intended, packet) && b.state == Receiving
    ensures Sized(win + [b], total, d, packet)
  {
  }

  lemma SizedTail(win: seq<BuffHd>, total: nat, d: nat, packet: nat)
    requires packet > 0 && Sized(win, total, d, packet) && win != []
    ensures Sized(win[1..], total, d + 1, packet)
  {
    forall j | 0 <= j < |win[1..]|
      ensures win[1..][j].intended == RequestLength(total, d + 1 + j)
    {
      assert win[1..][j] == win[j + 1];
    }
  }

  // The oldest buffer of a window, once its data has arrived.
  lemma SizedHead(win: seq<BuffHd>, b: BuffHd, total: nat, d: nat, packet: nat)
    requires packet > 0 && Sized(win, total, d, packet) && win != []
    requires After(win[0], b) && b.state == Full
    ensures b.intended == RequestLength(total, d)
    ensures b.actual <= RoundUp(b.intended, packet)
  {
    assert win[0].intended == RequestLength(total, d + 0);
  }

  lemma Appended(a: seq<byte>, b: seq<byte>, k: nat)
    requires k <= |a|
    ensures (a + b)[..k] == a[..k] && (a + b)[|a|..] == b
  {
  }

  // Draining the oldest request of a window: what its buffer holds, what is left
  // of the window, and what has been consumed of the stream.
  lemma AfterDrain(win0: seq<BuffHd>, win: seq<BuffHd>, b: BuffHd, c0: seq<byte>,
                   total: nat, d: nat, packet: nat, k: nat)
    requires packet > 0 && Sized(win0, total, d, packet) && win0 != []
    requires After(win0[0], b) && b.state == Full && b.Ok() && Later(win0[1..], win) && k <= |c0|
    ensures b.intended == RequestLength(total, d) && b.actual <= RoundUp(b.intended, packet)
    ensures Sized(win, total, d + 1, packet)
    ensures var c := c0 + b.Payload();
            |c| == |c0| + b.actual && c[..k] == c0[..k] && c[|c0|..] == b.Payload()
  {
    SizedTail(win0, total, d, packet);
    SizedHead(win0, b, total, d, packet);
    SizedLater(win0[1..], win, total, d + 1, packet);
    Appended(c0, b.Payload(), k);
  }

  // What one drained buffer may contribute: whole blocks of the data that is
  // neither excess nor beyond the end of the file.
  function Usable(t: Target, k: nat, actual: nat, intended: nat): (n: nat)
    requires t.Ok() && t.off + k <= t.flen
  {
    RoundDown(Min(Min(actual, t.flen - (t.off + k)), intended), t.bs)
  }

  // The next request is never empty and never longer than a buffer.
  lemma NextRequest(t: Target, p: Progress, leftToReq: nat, usbOffset: nat)
    requires Inv(t, p) && Counters(t, p, true, leftToReq, usbOffset) && usbOffset < t.flen
    ensures Min(leftToReq, BUFLEN) == RequestLength(t.total, p.d + p.w)
    ensures 0 < RequestLength(t.total, p.d + p.w) <= BUFLEN
    ensures var q, amount := p.(w := p.w + 1), Min(leftToReq, BUFLEN);
            && Inv(t, q) && Reached(t, q, q.k)
            && Counters(t, q, leftToReq - amount != 0, leftToReq - amount, usbOffset + amount)
            && amount == Asked(t.total, q.d + q.w) - Asked(t.total, p.d + p.w)
  {
  }

  // If a drained buffer contributes anything, nothing before it was dropped.
  lemma UsableMeansComplete(t: Target, p: Progress, actual: nat, intended: nat)
    requires Inv(t, p) && p.w > 0 && Usable(t, p.k, actual, intended) > 0
    ensures p.k == p.c
  {
    RoundDownFacts(p.k, Min(Min(actual, t.flen - (t.off + p.k)), intended), t.bs);
  }

  // The usable part is whole blocks that fit the buffer, the request and the file.
  lemma UsableBounds(t: Target, p: Progress, actual: nat, intended: nat)
    requires t.Ok() && t.off + p.k <= t.flen && p.k % t.bs == 0
    ensures var u := Usable(t, p.k, actual, intended);
            && u <= actual && u <= intended && t.off + p.k + u <= t.flen
            && u % t.bs == 0
  {
    RoundDownFacts(p.k, Min(Min(actual, t.flen - (t.off + p.k)), intended), t.bs);
  }

  // The blocks of the first a bytes, then those of the next `more`, are the blocks
  // of all of them, as far as there is space.
  lemma ReachStep(a: nat, more: nat, space: nat, k: nat, b: nat)
    requires b > 0 && a % b == 0 && k == RoundDown(Min(a, space), b) && k <= space
    ensures k + RoundDown(Min(space - k, more), b) == RoundDown(Min(a + more, space), b)
  {
    if a <= space {
      RoundDownFacts(0, a, b);
      RoundDownAfter(a, Min(space - a, more), b);
    } else {
      RoundDownFacts(0, space, b);
      RoundDownFacts(0, Min(space - k, more), b);
    }
  }

  // Storing the usable part of the d-th buffer reaches as far as d + 1 whole
  // requests can.
  lemma ReachOneMore(t: Target, d: nat, k: nat, actual: nat)
    requires t.Ok() && k == Reachable(t, d) && d * BUFLEN < t.total
    requires RequestLength(t.total, d) <= actual && t.off + k <= t.flen
    ensures k + Usable(t, k, actual, RequestLength(t.total, d)) == Reachable(t, d + 1)
  {
    BuffersAreBlocks(d, t.bs);
    ReachStep(d * BUFLEN, RequestLength(t.total, d), t.flen - t.off, k, t.bs);
  }

  // It still is once a shorter buffer has been stored, with which the host has sent
  // less than it was asked for.
  lemma StoreShort(t: Target, p: Progress, actual: nat, intended: nat)
    requires Inv(t, p) && p.w > 0 && intended == RequestLength(t.total, p.d) && actual < intended
    ensures p.k + Usable(t, p.k, actual, intended) == Storable(t, p.c + actual)
    ensures p.c + actual < Asked(t.total, p.d + 1)
  {
    assert p.d * BUFLEN < t.total;
    BuffersAreBlocks(p.d, t.bs);
    ReachStep(p.d * BUFLEN, actual, t.flen - t.off, p.k, t.bs);
  }

  // A buffer as long as its request keeps what has come in whole requests.
  lemma WholeRequests(total: nat, d: nat, c: nat, actual: nat, packet: nat)
    requires packet > 0 && BUFLEN % packet == 0 && d * BUFLEN < total && c == d * BUFLEN
    requires RequestLength(total, d) <= actual <= RoundUp(RequestLength(total, d), packet)
    ensures Asked(total, d + 1) <= c + actual
    ensures (d + 1) * BUFLEN < total ==> c + actual == (d + 1) * BUFLEN
    ensures c + actual <= (d + 1) * BUFLEN
  {
    RoundUpFits(RequestLength(total, d), packet);
  }

  // Whether anything more can be stored once a full-length buffer has been.
  lemma CompleteOrDead(t: Target, p: Progress, actual: nat, intended: nat, packet: nat)
    requires Inv(t, p) && p.w > 0 && packet > 0 && BUFLEN % packet == 0
    requires intended == RequestLength(t.total, p.d)
    requires intended <= actual <= RoundUp(intended, packet)
    ensures var u := Usable(t, p.k, actual, intended);
            var q := Progress(p.d + 1, p.w - 1, p.k + u, p.c + actual);
            q.k == q.c || q.Dead(t)
  {
    RoundDownFacts(p.k, Min(Min(actual, t.flen - (t.off + p.k)), intended), t.bs);
    RoundUpFits(intended, packet);
    if intended == BUFLEN {
      RoundDownFacts(p.k, BUFLEN, t.bs);
    }
  }

  // Draining a buffer as long as its request and storing its usable part keeps
  // the account, if it leaves nothing stored out of order.
  lemma StoreWhole(t: Target, p: Progress, actual: nat, intended: nat, packet: nat)
    requires Inv(t, p) && p.w > 0 && packet > 0 && BUFLEN % packet == 0
    requires intended == RequestLength(t.total, p.d)
    requires intended <= actual <= RoundUp(intended, packet)
    requires var u := Usable(t, p.k, actual, intended);
             var q := Progress(p.d + 1, p.w - 1, p.k + u, p.c + actual);
             q.k == q.c || q.Dead(t)
    ensures var u := Usable(t, p.k, actual, intended);
            Inv(t, Progress(p.d + 1, p.w - 1, p.k + u, p.c + actual))
  {
    var u := Usable(t, p.k, actual, intended);
    ReachOneMore(t, p.d, p.k, actual);
    WholeRequests(t.total, p.d, p.c, actual, packet);
    UsableBounds(t, p, actual, intended);
    StoredFits(t.total, p.d, p.k, u);
    SumMod(p.k, u, t.bs);
  }

  // A full-length buffer whose usable part has been stored.
  lemma StoreAll(t: Target, p: Progress, actual: nat, intended: nat, packet: nat)
    requires Inv(t, p) && p.w > 0 && packet > 0 && BUFLEN % packet == 0
    requires intended == RequestLength(t.total, p.d)
    requires intended <= actual <= RoundUp(intended, packet)
    ensures var u := Usable(t, p.k, actual, intended);
            Inv(t, Progress(p.d + 1, p.w - 1, p.k + u, p.c + actual))
  {
    CompleteOrDead(t, p, actual, intended, packet);
    StoreWhole(t, p, actual, intended, packet);
  }

  // What a buffer whose usable part has been stored leaves: the account, or all that
  // came if the host has stopped early.
  lemma StoreEnds(t: Target, p: Progress, q: Progress, actual: nat, intended: nat, packet: nat)
    requires Inv(t, p) && p.w > 0 && packet > 0 && BUFLEN % packet == 0
    requires intended == RequestLength(t.total, p.d) && actual <= RoundUp(intended, packet)
    requires q == Progress(p.d + 1, p.w - 1, p.k + Usable(t, p.k, actual, intended), p.c + actual)
    ensures if actual < intended then q.k == Storable(t, q.c) && q.c < Asked(t.total, q.d) else Inv(t, q)
  {
    if actual < intended {
      StoreShort(t, p, actual, intended);
    } else {
      StoreAll(t, p, actual, intended, packet);
    }
  }

  // No more can be stored of d + 1 requests than they asked for.
  lemma StoredFits(total: nat, d: nat, k: nat, stored: nat)
    requires k <= Asked(total, d) && stored <= RequestLength(total, d)
    ensures k + stored <= Asked(total, d + 1)
  {
  }

  // Having stored everything the host offered means having drained every
  // request and having nothing left to ask for.
  lemma AllStored(t: Target, p: Progress, hostSize: nat)
    requires p.k <= Asked(t.total, p.d) && t.total <= hostSize && p.k == hostSize
    requires Began(t, p.d + p.w)
    ensures Asked(t.total, p.d + p.w) == hostSize
    ensures p.w == 0 || hostSize == 0
  {
  }

  // Once all of it has been asked for, the last request was the one that carries
  // the last byte, and it began inside the file.
  lemma AllAsked(t: Target, m: nat)
    requires Began(t, m) && t.total > 0 && Asked(t.total, m) == t.total
    ensures t.off + LastStart(t.total) < t.flen
  {
    LastStartIs(t.total, m - 1);
  }

  // If the next request would begin past the end of the file, so would the last.
  lemma PastTheEnd(t: Target, m: nat)
    requires Asked(t.total, m) < t.total && t.flen <= t.off + Asked(t.total, m)
    ensures t.flen <= t.off + LastStart(t.total)
  {
    LaterStart(t.total, m);
  }

  // How the loop ends if nothing breaks: what is reported if the last request would
  // begin past the end of the file, and what has come in.
  ghost predicate Ends(t: Target, p: Progress, warned: bool)
    requires t.total > 0
  {
    if warned then
      t.flen <= t.off + LastStart(t.total) && (Asked(t.total, p.d) <= p.c ==> t.flen <= t.off + p.c)
    else if p.c < t.total then p.c < Asked(t.total, p.d)
    else t.off + LastStart(t.total) < t.flen
  }

  lemma LoopEnds(t: Target, p: Progress, more: bool, leftToReq: nat, usbOffset: nat, warned: bool)
    requires Inv(t, p) && Counters(t, p, more, leftToReq, usbOffset)
    requires if warned then leftToReq > 0 && usbOffset >= t.flen else more || leftToReq == 0
    requires p.k == t.total || (!more && p.w == 0)
    ensures Ends(t, p, warned)
  {
    if warned {
      PastTheEnd(t, p.d + p.w);
    } else {
      AllAsked(t, p.d + p.w);
    }
  }

  lemma CutShortEnds(t: Target, m: nat, q: Progress, more: bool, leftToReq: nat, usbOffset: nat, warned: bool)
    requires leftToReq == t.total - Asked(t.total, m) && usbOffset == t.off + Asked(t.total, m)
    requires warned ==> leftToReq > 0 && usbOffset >= t.flen
    requires t.total > 0 && q.c < Asked(t.total, q.d)
    ensures Ends(t, q, warned)
  {
    if warned {
      PastTheEnd(t, m);
    }
  }

  // The file after the next n bytes of the stream have been stored, when the
  // first k of them were there and the rest of the stream is `payload`.
  lemma StoreData(file0: seq<byte>, file: seq<byte>, off: nat, consumed: seq<byte>, k: nat,
                  b: BuffHd, amount: nat, n: nat)
    requires k <= |consumed| && consumed[k..] == b.Payload() && b.Ok()
    requires n <= amount <= b.actual && off + k + amount <= |file0|
    requires file == Patch(file0, off, consumed[..k])
    ensures k + n <= |consumed|
    ensures Patch(file, off + k, b.buf[..amount][..n]) == Patch(file0, off, consumed[..k + n])
  {
    var data := b.buf[..amount][..n];
    assert data == consumed[k..][..n] == consumed[k..k + n];
    SliceJoin(consumed, 0, k, k + n);
    assert consumed[..k + n] == consumed[..k] + data;
    PatchTwice(file0, off, consumed[..k], data);
  }

  // k bytes count as stored and `touched` bytes of the stream are in the file.
  ghost predicate Reached(t: Target, p: Progress, touched: nat) {
    && t.Ok() && p.k <= Asked(t.total, p.d) && p.k % t.bs == 0
    && Began(t, p.d + p.w) && p.c <= p.d * BUFLEN
    && p.k <= touched <= p.c && touched < p.k + t.bs && t.off + touched <= t.flen
  }

  lemma InvReached(t: Target, p: Progress)
    requires Inv(t, p)
    ensures Reached(t, p, p.k)
  {
  }

  // What counts of a write that stored n of `amount` bytes.
  function Counted(t: Target, n: nat, amount: nat): nat
    requires t.Ok()
  {
    if n < amount then RoundDown(n, t.bs) else n
  }

  lemma CountedFacts(t: Target, k: nat, n: nat, amount: nat)
    requires t.Ok() && k % t.bs == 0 && amount % t.bs == 0 && n <= amount
    ensures var c := Counted(t, n, amount);
            c <= n < c + t.bs && (k + c) % t.bs == 0
  {
    if n < amount {
      RoundDownFacts(k, n, t.bs);
    } else {
      SumMod(k, n, t.bs);
    }
  }

  lemma StoreReached(t: Target, p: Progress, actual: nat, intended: nat, n: nat)
    requires Inv(t, p) && p.w > 0 && intended == RequestLength(t.total, p.d)
    requires n <= Usable(t, p.k, actual, intended) && actual <= BUFLEN
    ensures var counted := Counted(t, n, Usable(t, p.k, actual, intended));
            && counted <= n
            && Reached(t, Progress(p.d + 1, p.w - 1, p.k + counted, p.c + actual), p.k + n)
  {
    UsableBounds(t, p, actual, intended);
    CountedFacts(t, p.k, n, Usable(t, p.k, actual, intended));
    StoredFits(t.total, p.d, p.k, Counted(t, n, Usable(t, p.k, actual, intended)));
  }

  // Nothing asked for yet, nothing stored yet.
  lemma Started(t: Target)
    requires t.Ok()
    ensures Inv(t, Progress(0, 0, 0, 0))
  {
    NothingReachable(t);
  }

  lemma NothingReachable(t: Target)
    requires t.Ok()
    ensures 0 % t.bs == 0 && Reachable(t, 0) == 0
  {
    RoundDownZero(t.bs);
    assert Min(Asked(t.total, 0), t.flen - t.off) == 0;
  }
}
