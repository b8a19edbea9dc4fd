// The state the gadget thread shares with interrupts: the pipeline buffers, the
// queues of the two bulk endpoints, and the exception registers.
//
// Completions, control requests and signals may come between any two steps of
// the thread; `Interrupts` stands for any number of them.
module Endpoints {
  import opened Base
  import opened Ring
  import opened Exceptions
  import opened Scsi
  import opened Exchanges
  import opened Transcript

  // The exception registers of struct fsg_common and the signals they raise.
  class Port {
    var exc: Pending
    var ep0ReqTag: nat
    var signal: bool    // SIGUSR1
    var foreign: bool   // SIGINT, SIGTERM or SIGKILL

    ghost var requests: seq<Event>  // everything requested since the last take
    ghost var before: seq<Event>    // everything requested up to then
    ghost var taken: seq<Pending>   // every exception taken so far

    // Whether this is a run in which resets, configuration changes and signals
    // from outside happen.
    const disturbed: bool

    // The registers hold the last of the most urgent requests, until EXIT has
    // been taken; and only an outside event leaves the thread anything to do
    // beyond aborting the data phase it is in.
    ghost predicate Valid()
      reads this
    {
      && (exc.state == Terminated || Reports(requests, exc))
      && Raisable(requests)
      && (disturbed || (!foreign && (signal ==> exc.state == AbortBulkOut)
                        && (exc.state == Normal || exc.state == AbortBulkOut)))
    }

    // No exception is pending, unless something outside has interfered.
    ghost predicate Calm()
      reads this
    {
      disturbed || (exc.state == Normal && !signal && !foreign)
    }

    predicate SignalPending()
      reads this
    {
      signal || foreign
    }

    // The main loop has an exception to handle.
    predicate Attention()
      reads this
    {
      signal || foreign || exc.state != Normal
    }

    twostate predicate Same()
      reads this
    {
      && exc == old(exc) && signal == old(signal) && foreign == old(foreign)
      && requests == old(requests)
    }

    // What has been taken, and what that was about.
    twostate predicate SameTaken()
      reads this
    {
      taken == old(taken) && before == old(before)
    }

    // What any number of outside events can have done.
    twostate predicate Moved()
      reads this
    {
      && Valid() && SameTaken()
      && old(requests) <= requests
      && (old(Attention()) ==> Attention())
      && (exc.state == Terminated ==> old(exc).state == Terminated)
      && (disturbed || Same())
    }

    constructor (disturbed: bool)
      ensures Valid() && Calm() && this.disturbed == disturbed && !Attention() && requests == []
    {
      exc, ep0ReqTag, signal, foreign := Pending(Normal, 0, None), 0, false, false;
      requests, before, taken := [], [], [];
      this.disturbed := disturbed;
    }

    // The registers as they stand when nothing is pending, from where on nothing outside
    // interferes.
    constructor Resume(p: Port)
      requires p.Valid() && !p.Attention()
      ensures Valid() && Calm() && !disturbed && !Attention() && requests == []
      ensures exc == p.exc && ep0ReqTag == p.ep0ReqTag
    {
      exc, ep0ReqTag, signal, foreign := p.exc, p.ep0ReqTag, false, false;
      requests, before, taken := [], [], [];
      disturbed := false;
    }

    // __raise_exception
    method RaiseException(to: FsgState, arg: Option<nat>)
      requires Valid() && to != Normal && to != Terminated && (disturbed || to == AbortBulkOut)
      modifies this
      ensures Valid() && foreign == old(foreign) && ep0ReqTag == old(ep0ReqTag)
      ensures requests == old(requests) + [Raise(to, arg, ep0ReqTag)]
      ensures exc == Apply(old(exc), Raise(to, arg, ep0ReqTag))
      ensures disturbed || (signal && exc.state == AbortBulkOut)
      ensures SameTaken()
    {
      ghost var r := Raise(to, arg, ep0ReqTag);
      if exc.state != Terminated {
        ApplyReports(requests, exc, r);
      }
      if exc.state.Priority() <= to.Priority() {
        exc := Pending(to, ep0ReqTag, arg);
        signal := true;
      }
      requests := requests + [r];
    }

    // Clear the pending signals; any but SIGUSR1 becomes an EXIT.
    method DequeueSignals()
      requires Valid() && exc.state != Terminated
      modifies this
      ensures Valid() && !signal && !foreign
      ensures exc.tag == old(exc.tag) && exc.arg == old(exc.arg) && exc.state != Terminated
      ensures old(requests) <= requests && (old(foreign) || (exc == old(exc) && requests == old(requests)))
      ensures old(foreign) ==> exc.state == Exit
      ensures SameTaken()
    {
      if foreign {
        ApplyReports(requests, exc, Foreign);
        exc, requests := exc.(state := Exit), requests + [Foreign];
      }
      signal, foreign := false, false;
    }

    // Take the pending exception: what is taken is the last of the most urgent
    // requests made since the previous take, and none of them stays pending.
    method Take() returns (p: Pending)
      requires Valid() && exc.state != Terminated && (disturbed || !signal)
      modifies this`exc, this`requests, this`before, this`taken
      ensures p == old(exc) && Reports(old(requests), p) && taken == old(taken) + [p]
      ensures before == old(before) + old(requests)
      ensures Valid() && exc == old(exc).(state := Normal) && requests == []
    {
      p := exc;
      exc, before, requests, taken := exc.(state := Normal), before + requests, [], taken + [p];
    }

    // The exiting thread stops.
    method Terminate()
      requires Valid() && disturbed
      modifies this`exc
      ensures Valid() && exc.state == Terminated
    {
      exc := exc.(state := Terminated);
    }

    // Any number of outside events.
    method ControlEvents()
      requires Valid()
      modifies this
      ensures Moved()
    {
      var n: nat := *;
      while n > 0
        invariant Moved()
      {
        var what: int := *;
        ControlEvent(what);
        n := n - 1;
      }
    }

    // fsg_setup, fsg_set_alt, fsg_disable and signals from elsewhere.
    method ControlEvent(what: int)
      requires Valid()
      modifies this
      ensures Moved()
    {
      if what == 2 {
        ep0ReqTag := ep0ReqTag + 1;             // get max LUN
      } else if disturbed && what == 3 {
        ep0ReqTag := ep0ReqTag + 1;             // bulk-only reset request
        RaiseException(ProtocolReset, None);
      } else if disturbed && what == 4 {
        var fsg: Option<nat> := *;              // set_alt (Some) or disable (None)
        RaiseException(ConfigChange, fsg);
      } else if disturbed && what == 5 {
        foreign := true;
      }
    }
  }

  // The account with the host: the turns of the conversation, the replies given in
  // them, and the commands answered.
  class Ledger {
    ghost var turns: seq<Turn>
    ghost var replies: seq<Reply>
    ghost var log: seq<Exchange>

    // Every wrapper accepted has been answered by exactly one status, in order,
    // and nothing else has been sent.
    ghost predicate Complete(sent: seq<seq<byte>>)
      reads this
    {
      Transcript.Complete(turns, replies, log, sent)
    }

    // Every wrapper but this last one.
    ghost predicate AllBut(sent: seq<seq<byte>>, cbw: Cbw)
      reads this
    {
      Transcript.AllBut(turns, replies, log, sent, cbw)
    }

    constructor ()
      ensures turns == [] && replies == [] && log == []
    {
      turns, replies, log := [], [], [];
    }
  }

  class Pipeline {
    const count: nat        // fsg_num_buffers
    const next: seq<nat>    // bh->next
    const maxpacket: nat    // bulk_out_maxpacket
    const port: Port
    const ledger: Ledger

    var bufs: seq<BuffHd>
    var fill: nat           // next_buffhd_to_fill
    var drain: nat          // next_buffhd_to_drain
    var outQueue: seq<nat>  // the bulk-out endpoint's queue, oldest first
    var cancelling: bool    // usb_ep_dequeue is being applied to every buffer

    ghost var base: nat               // where the window starts
    ghost var win: seq<BuffHd>        // the window of bulk-out requests
    ghost var past: seq<Arrival>      // what came in on bulk-out, up to the last wrapper
    ghost var data: seq<Arrival>      // what has come in since
    ghost var drained: nat            // how much of that the thread has drained
    ghost var consumed: seq<byte>     // the bytes drained
    ghost var outAsked: nat           // the bytes asked of the host since that wrapper
    ghost var settled: bool           // no bulk-in transfer is in progress
    ghost var told: seq<seq<byte>>    // what was sent on bulk-in, up to the last status
    ghost var telling: seq<seq<byte>> // what has been sent since

    ghost function Stream(): Tape
      reads this`past, this`data, this`drained, this`consumed, this`outAsked
    {
      Tape(past, data, drained, consumed, outAsked)
    }

    // Everything that ever came in on bulk-out.
    ghost function Heard(): seq<Arrival>
      reads this`past, this`data
    {
      past + data
    }

    // Everything that ever was sent on bulk-in.
    ghost function Sent(): seq<seq<byte>>
      reads this`told, this`telling
    {
      told + telling
    }

    // The data sent to the host since the last status.
    ghost function InData(): seq<byte>
      reads this`telling
    {
      Bytes(telling)
    }

    // What lies before the command being carried out stays as it is.
    twostate predicate SamePast()
      reads this`past, this`told
    {
      past == old(past) && told == old(told)
    }

    // Nothing is asked of the host, nor sent to it.
    twostate predicate SameAsked()
      reads this`past, this`told, this`telling, this`outAsked
    {
      SamePast() && telling == old(telling) && outAsked == old(outAsked)
    }

    // What the next buffer to fill would send as it is.
    ghost function Stale(): seq<byte>
      reads this`bufs, this`fill
    {
      if fill < |bufs| then bufs[fill].Outgoing() else []
    }

    ghost predicate Valid()
      reads this
    {
      && Wired()
      && (!cancelling || AllOk(bufs))
      && (cancelling || Pipe(bufs, base, outQueue, win, Stream()))
    }

    // The pointers and links are in order.
    ghost predicate Wired()
      reads this`bufs, this`fill, this`drain, this`settled
    {
      var pointers := fill < |bufs| && drain < |bufs| && |bufs| == count;
      var wiring := 0 < maxpacket && BUFLEN % maxpacket == 0 && Linked();
      pointers && wiring && (!settled || NoneSending(bufs))
    }

    // The links of the cyclic list.
    ghost predicate Linked() {
      |next| == count && forall i | 0 <= i < count :: next[i] == At(i, 1, count)
    }

    // Between commands: no request is outstanding and no buffer holds data.
    ghost predicate Idle()
      reads this
    {
      !cancelling && win == [] && AllIdle(bufs)
    }

    // The next buffer to fill is ready to be sent, and no other holds data.
    ghost predicate Ready()
      reads this
    {
      && !cancelling && win == [] && fill < |bufs|
      && bufs[fill].state == Full && IdleExcept(bufs, fill)
    }

    // The data phase of a command that takes data from the host.
    ghost predicate OutPhase()
      reads this
    {
      var inPlace := !cancelling && OutRing(bufs, base, |win|, drain, fill);
      Valid() && inPlace
    }

    // fsg_common_set_num_buffers: n buffers on a cyclic list.
    static method LinkBuffers(n: nat) returns (next: seq<nat>)
      requires n >= 1
      ensures |next| == n && forall i | 0 <= i < n :: next[i] == At(i, 1, n)
    {
      next := [];
      var left := n - 1;
      while left > 0
        invariant left < n && |next| == n - 1 - left
        invariant forall i | 0 <= i < |next| :: next[i] == i + 1
      {
        next := next + [|next| + 1];
        left := left - 1;
      }
      next := next + [0];
    }

    constructor (n: nat, packet: nat, port: Port, ledger: Ledger)
      requires n >= 1 && packet > 0 && BUFLEN % packet == 0
      ensures this.port == port && this.ledger == ledger && count == n && maxpacket == packet
      ensures told == [] && telling == [] && Heard() == [] && Idle()
      ensures Valid()
    {
      var links := LinkBuffers(n);
      next, count := links, n;
      bufs := NewBuffers(n);
      fill, drain, outQueue, cancelling, maxpacket := 0, 0, [], false, packet;
      this.port, this.ledger := port, ledger;
      base, win, past, data := 0, [], [], [];
      drained, consumed, outAsked := 0, [], 0;
      told, telling, settled := [], [], true;
      new;
      EmptyWindow(bufs, 0);
    }

    // The pipeline as it stands between two commands, with new histories.
    constructor Resume(p: Pipeline, port: Port, ledger: Ledger)
      requires p.Valid() && p.Idle()
      ensures this.port == port && this.ledger == ledger && SameRing(p)
      ensures told == [] && telling == [] && Heard() == [] && Idle()
      ensures Valid()
    {
      next, count, maxpacket, bufs := p.next, p.count, p.maxpacket, p.bufs;
      fill, drain, outQueue, cancelling := p.fill, p.drain, [], false;
      this.port, this.ledger := port, ledger;
      base, win, past, data := p.base, [], [], [];
      drained, consumed, outAsked := 0, [], 0;
      told, telling, settled := [], [], p.settled;
      new;
      EmptyWindow(bufs, base);
    }

    // The same buffers, pointers and queue.
    predicate SameRing(p: Pipeline)
      reads this`bufs, this`fill, this`drain, this`outQueue, this`cancelling
      reads p`bufs, p`fill, p`drain, p`outQueue, p`cancelling
    {
      && next == p.next && count == p.count && maxpacket == p.maxpacket && bufs == p.bufs
      && fill == p.fill && drain == p.drain && outQueue == p.outQueue && cancelling == p.cancelling
    }

    twostate predicate Env()
      reads this, port
    {
      && Valid()
      && Later(old(bufs), bufs) && (cancelling || Later(old(win), win))
      && old(data) <= data
      && |outQueue| <= |old(outQueue)|
      && (settled || (!old(settled) && (cancelling || |outQueue| == |old(outQueue)|)))
    }

    // ------------------------------------------------------------ interrupts

    // bulk_out_complete for the request at the head of the endpoint's queue.
    // The host sends on bulk-out only once every bulk-in transfer has arrived.
    method BulkOutComplete(payload: seq<byte>, status: int)
      requires Valid() && !cancelling && outQueue != [] && settled
      requires outQueue[0] < |bufs| && |payload| <= bufs[outQueue[0]].outLength
      modifies this`bufs, this`outQueue, this`win, this`data
      ensures Valid() && Later(old(bufs), bufs) && Later(old(win), win)
      ensures outQueue == old(outQueue)[1..]
      ensures data == old(data) + [Arrival(old(bufs)[old(outQueue)[0]].intended, payload, status)]
    {
      PipeComplete(bufs, base, outQueue, win, Stream(), payload, status);
      var i := outQueue[0];
      var done := Completed(bufs[i], payload, status);
      bufs, outQueue, win, data :=
        bufs[i := done], outQueue[1..], win[|win| - |outQueue| := done], data + [done.Arrived()];
    }

    // bulk_in_complete
    method BulkInComplete(i: nat)
      requires Valid() && i < |bufs| && bufs[i].state == Sending
      modifies this`bufs
      ensures Valid() && Later(old(bufs), bufs) && bufs[i].state == Empty
    {
      if !cancelling {
        PipeSent(bufs, base, outQueue, win, Stream(), i);
      }
      bufs := bufs[i := bufs[i].(state := Empty)];
    }

    // bulk_out_complete for a cancelled request, in any order.
    method BulkOutCancelled(i: nat, payload: seq<byte>, status: int)
      requires Valid() && cancelling && i < |bufs| && bufs[i].state == Receiving
      requires |payload| <= bufs[i].outLength
      modifies this`bufs, this`data
      ensures Valid() && Later(old(bufs), bufs) && bufs[i].state == Full
      ensures data == old(data) + [Arrival(old(bufs)[i].intended, payload, status)]
    {
      var done := Completed(bufs[i], payload, status);
      bufs, data := bufs[i := done], data + [done.Arrived()];
    }

    method OutInterrupt()
      requires Valid()
      modifies this`bufs, this`outQueue, this`win, this`data, this`settled
      ensures Env()
    {
      var i: nat := *;
      var payload: seq<byte> := *;
      var status: int := *;
      if cancelling {
        if 0 <= i < |bufs| && bufs[i].state == Receiving && |payload| <= bufs[i].outLength {
          BulkOutCancelled(i, payload, status);
        }
      } else if outQueue != [] && NoneSending(bufs) {
        settled := true;
        if outQueue[0] < |bufs| && |payload| <= bufs[outQueue[0]].outLength {
          BulkOutComplete(payload, status);
        }
      }
    }

    method InInterrupt()
      requires Valid()
      modifies this`bufs, this`outQueue, this`win, this`data, this`settled
      ensures Env()
    {
      var i: nat := *;
      if 0 <= i < |bufs| && bufs[i].state == Sending {
        BulkInComplete(i);
      }
    }

    // Any one of them.
    method Interrupt(what: int)
      requires Valid() && port.Valid()
      modifies this`bufs, this`outQueue, this`win, this`data, this`settled, port
      ensures Env() && port.Moved()
    {
      if what == 0 {
        OutInterrupt();
      } else if what == 1 {
        InInterrupt();
      } else {
        port.ControlEvent(what);
      }
    }

    method Interrupts()
      requires Valid() && port.Valid()
      modifies this`bufs, this`outQueue, this`win, this`data, this`settled, port
      ensures Env() && port.Moved()
    {
      var n: nat := *;
      while n > 0
        invariant Env() && port.Moved()
      {
        var what: int := *;
        ghost var bufs1, win1 := bufs, win;
        Interrupt(what);
        LaterTransitive(old(bufs), bufs1, bufs);
        if !cancelling {
          LaterTransitive(old(win), win1, win);
        }
        n := n - 1;
      }
    }

    // ------------------------------------------------------------ sleeping

    // Every bulk-in transfer in progress completes.
    method FlushIn()
      requires Valid()
      modifies this`bufs, this`settled
      ensures Valid() && Later(old(bufs), bufs) && settled
    {
      var i := 0;
      while i < |bufs|
        invariant Valid() && settled == old(settled) && Later(old(bufs), bufs)
        invariant i <= |bufs|
        invariant forall k | 0 <= k < i :: bufs[k].state != Sending
      {
        if bufs[i].state == Sending {
          BulkInComplete(i);
        }
        i := i + 1;
      }
      settled := true;
    }

    // The oldest bulk-out request completes, with whatever the host sent.
    method NextOut()
      requires Valid() && !cancelling && outQueue != [] && settled
      modifies this`bufs, this`outQueue, this`win, this`data
      ensures Valid() && Later(old(bufs), bufs) && Later(old(win), win) && old(data) <= data
      ensures |outQueue| == |old(outQueue)| - 1
    {
      assert outQueue[0] == At(base, |win| - |outQueue| + 0, |bufs|);
      var payload: seq<byte> := *;
      var status: int := *;
      if |payload| > bufs[outQueue[0]].outLength {
        payload := payload[..bufs[outQueue[0]].outLength];
      }
      BulkOutComplete(payload, status);
    }

    // The transfers the thread is waiting for make progress: those to the host
    // complete, or the oldest request to the host does.
    method CompleteSome(i: nat)
      requires Valid() && i < |bufs| && !cancelling && bufs[i].Busy()
      modifies this`bufs, this`outQueue, this`win, this`data, this`settled
      ensures Env() && (old(settled) ==> |outQueue| < |old(outQueue)|) && settled
    {
      if NoneSending(bufs) {
        settled := true;
        ReceivingQueued(bufs, base, outQueue, win, i);
        NextOut();
      } else {
        FlushIn();
      }
    }

    method Progress(i: nat)
      requires Valid() && port.Valid() && i < |bufs| && !cancelling && bufs[i].Busy()
      modifies this`bufs, this`outQueue, this`win, this`data, this`settled, port
      ensures Env() && (old(settled) ==> |outQueue| < |old(outQueue)|) && settled && port.Moved()
    {
      CompleteSome(i);
      ghost var bufs1, win1 := bufs, win;
      Interrupts();
      LaterTransitive(old(bufs), bufs1, bufs);
      LaterTransitive(old(win), win1, win);
    }

    // sleep_thread: wait until the buffer is no longer busy or a signal arrives.
    // Every transfer the thread waits for eventually completes.
    method SleepThread(i: nat) returns (rc: int)
      requires Valid() && port.Valid() && i < |bufs| && !cancelling
      modifies this`bufs, this`outQueue, this`win, this`data, this`settled, port
      ensures Env() && port.Moved()
      ensures rc == 0 || (rc == EINTR && port.SignalPending())
      ensures rc == 0 ==> !bufs[i].Busy()
    {
      Interrupts();
      while bufs[i].Busy() && !port.SignalPending()
        invariant Env() && port.Moved()
        decreases !settled, |outQueue|
      {
        ghost var bufs1, win1 := bufs, win;
        Progress(i);
        LaterTransitive(old(bufs), bufs1, bufs);
        LaterTransitive(old(win), win1, win);
      }
      rc := if bufs[i].Busy() then EINTR else 0;
    }

    // ------------------------------------------------------------ transfers

    // start_in_transfer
    method StartInTransfer(i: nat)
      requires Valid() && i < |bufs| && !bufs[i].Busy() && !cancelling
      requires |win| <= Pos(base, i, |bufs|)
      modifies this`bufs, this`settled, this`telling
      ensures Valid()
      ensures bufs == old(bufs)[i := old(bufs)[i].(state := Sending)]
      ensures telling == old(telling) + [old(bufs)[i].Outgoing()]
    {
      var b := bufs[i].(state := Sending);
      PipeOutside(bufs, base, outQueue, win, Stream(), i, b);
      bufs, settled, telling := bufs[i := b], false, telling + [b.Outgoing()];
    }

    // set_bulk_out_req_length and start_out_transfer
    method StartOutTransfer(i: nat, length: nat)
      requires Valid() && !cancelling && |win| < |bufs|
      requires i == At(base, |win|, |bufs|) && bufs[i].state == Empty && length <= BUFLEN
      modifies this`bufs, this`win, this`outQueue, this`outAsked
      ensures Valid() && outAsked == old(outAsked) + length
      ensures bufs == old(bufs)[i := Requested(old(bufs)[i], length, maxpacket)]
      ensures win == old(win) + [bufs[i]] && outQueue == old(outQueue) + [i]
    {
      PipeRequest(bufs, base, outQueue, win, Stream(), length, maxpacket);
      var b := Requested(bufs[i], length, maxpacket);
      bufs, win, outQueue, outAsked := bufs[i := b], win + [b], outQueue + [i], outAsked + length;
    }

    // Ask the host for more data in the next buffer to fill.
    method RequestMore(amount: nat) returns (ghost b: BuffHd)
      requires OutPhase() && |win| < |bufs| && amount <= BUFLEN
      modifies this`bufs, this`win, this`outQueue, this`fill, this`outAsked
      ensures OutPhase() && outAsked == old(outAsked) + amount
      ensures win == old(win) + [b] && b.state == Receiving && b.intended == amount
      ensures b.outLength == RoundUp(amount, maxpacket)
    {
      OutRingEnds(bufs, base, outQueue, win, drain, fill);
      OutRingRequest(bufs, base, |win|, drain, fill, Requested(bufs[fill], amount, maxpacket));
      StartOutTransfer(fill, amount);
      b := bufs[fill];
      fill := next[fill];
    }

    // The head of the window, whose data has arrived, leaves it.
    method TakeHead()
      requires Valid() && !cancelling && drain == base && RestEmpty(bufs, base, |win|)
      requires win != [] && win[0].state == Full
      modifies this`bufs, this`drain, this`base, this`win, this`drained, this`consumed
      ensures Valid()
      ensures bufs == old(bufs)[old(base) := old(bufs)[old(base)].(state := Empty)]
      ensures drain == base == At(old(base), 1, |bufs|) && win == old(win)[1..]
      ensures Stream() == old(Stream()).Drain()
    {
      PipeDrain(bufs, base, outQueue, win, Stream());
      bufs, drain, base, win, drained, consumed :=
        bufs[drain := bufs[drain].(state := Empty)], next[drain],
        At(base, 1, |bufs|), win[1..], drained + 1, consumed + data[drained].payload;
    }

    // Take the buffer at the drain pointer, whose data has arrived, back.
    method TakeBack()
      requires OutPhase() && win != [] && !bufs[drain].Busy()
      modifies this
      ensures OutPhase() && SameAsked() && data == old(data)
      ensures old(bufs[drain]) == old(win)[0] && old(win)[0].state == Full && old(win)[0].Ok()
      ensures win == old(win)[1..] && consumed == old(consumed) + old(win)[0].Payload()
      ensures drained == old(drained) + 1 <= |data| && data[old(drained)] == old(win)[0].Arrived()
    {
      WindowHead(bufs, base, outQueue, win);
      HeadDrains(bufs, base, outQueue, win, Stream());
      OutRingDrain(bufs, base, outQueue, win, drain, fill);
      TakeHead();
    }

    // Wait for the data in the next buffer to drain.
    method SleepDrain() returns (rc: int)
      requires OutPhase() && port.Valid() && win != []
      modifies this, port
      ensures SameAsked() && consumed == old(consumed) && drained == old(drained)
      ensures OutPhase() && port.Moved() && old(data) <= data
      ensures win != [] && After(old(win)[0], win[0]) && Later(old(win)[1..], win[1..])
      ensures rc == 0 || (rc == EINTR && port.SignalPending())
      ensures rc == 0 ==> !bufs[drain].Busy()
    {
      rc := SleepThread(drain);
      RestEmptyStable(old(bufs), bufs, base, |win|);
      LaterTail(old(win), win);
    }

    // The head of the window has left it: this is the buffer with its data, which is
    // the next transfer and the next part of the stream.
    twostate predicate HeadTaken(b: BuffHd)
      requires old(win) != []
      reads this
    {
      && OutPhase() && After(old(win)[0], b) && b.state == Full && b.Ok()
      && Later(old(win)[1..], win) && consumed == old(consumed) + b.Payload()
      && drained == old(drained) + 1 <= |data| && data[old(drained)] == b.Arrived()
    }

    twostate predicate NoneTaken()
      reads this
    {
      OutPhase() && consumed == old(consumed) && drained == old(drained)
    }

    // Wait for the data in the next buffer to drain and take the buffer back.
    method DrainNext() returns (rc: int, b: BuffHd)
      requires OutPhase() && port.Valid() && win != []
      modifies this, port
      ensures port.Moved() && old(data) <= data && SameAsked()
      ensures (rc == 0 && HeadTaken(b)) || (rc == EINTR && port.SignalPending() && NoneTaken())
    {
      rc := SleepDrain();
      b := bufs[drain];
      if rc == 0 {
        TakeBack();
      }
    }
  
    // The thread writes data into the next buffer to fill.
    method PutData(data: seq<byte>)
      requires Valid() && !cancelling && win == [] && !bufs[fill].Busy() && |data| <= BUFLEN
      modifies this`bufs
      ensures Valid()
      ensures var b := old(bufs)[fill];
              bufs == old(bufs)[fill := b.(buf := data + b.buf[|data|..])]
    {
      var b := bufs[fill];
      var b' := b.(buf := data + b.buf[|data|..]);
      PipeOutside(bufs, base, outQueue, win, Stream(), fill, b');
      bufs := bufs[fill := b'];
    }

    // The first `length` bytes of the next buffer to fill are ready to be sent.
    method SetReply(length: nat)
      requires Valid() && !cancelling && win == [] && !bufs[fill].Busy() && length <= BUFLEN
      modifies this`bufs
      ensures Valid()
      ensures bufs == old(bufs)[fill := old(bufs)[fill].(inLength := length, state := Full)]
    {
      var b := bufs[fill].(inLength := length, state := Full);
      PipeOutside(bufs, base, outQueue, win, Stream(), fill, b);
      bufs := bufs[fill := b];
    }

    // Both: a reply of exactly these bytes.
    method PutReply(data: seq<byte>)
      requires Valid() && Idle() && !bufs[fill].Busy() && |data| <= BUFLEN
      modifies this`bufs
      ensures Valid() && Ready() && bufs[fill].inLength == |data| && bufs[fill].Outgoing() == data
    {
      PutData(data);
      SetReply(|data|);
    }

    // Send the next buffer to fill and move on.
    method SendData()
      requires Valid() && (Ready() || (Idle() && !bufs[fill].Busy()))
      modifies this`bufs, this`settled, this`telling, this`fill
      ensures Valid() && Idle() && fill == At(old(fill), 1, count)
      ensures telling == old(telling) + [old(bufs)[old(fill)].Outgoing()]
    {
      StartInTransfer(fill);
      fill := next[fill];
    }

    // The last transfer sent was the status: it closes the data of its command.
    ghost method CloseReply()
      requires Valid() && telling != []
      modifies this`told, this`telling, ledger`replies
      ensures Valid() && telling == [] && told == old(told) + old(telling)
      ensures var n := |old(telling)| - 1;
              ledger.replies == old(ledger.replies) + [Reply(old(telling)[..n], old(telling)[n])]
    {
      var n := |telling| - 1;
      ledger.replies := ledger.replies + [Reply(telling[..n], telling[n])];
      told, telling := told + telling, [];
    }

    method SendStatus()
      requires Valid() && Ready()
      modifies this`bufs, this`settled, this`told, this`telling, this`fill, ledger`replies
      ensures Valid() && Idle() && telling == [] && fill == At(old(fill), 1, count)
      ensures var r := Reply(old(telling), old(bufs)[old(fill)].Outgoing());
              ledger.replies == old(ledger.replies) + [r] && told == old(told) + r.Transfers()
    {
      SendData();
      CloseReply();
    }

    // Both: a reply of exactly these bytes that closes the data of its command.
    method SendReply(reply: seq<byte>)
      requires Valid() && Idle() && !bufs[fill].Busy() && |reply| <= BUFLEN
      modifies this, ledger`replies
      ensures Valid() && Idle() && telling == [] && past == old(past) && data == old(data)
      ensures var r := Reply(old(telling), reply);
              ledger.replies == old(ledger.replies) + [r] && told == old(told) + r.Transfers()
    {
      PutReply(reply);
      SendStatus();
    }

    // Wait for the next buffer to fill while the ring is idle.
    method SleepIdle() returns (rc: int)
      requires Valid() && Idle() && port.Valid()
      modifies this, port
      ensures Valid() && Idle() && port.Moved()
      ensures SamePast() && data == old(data) && telling == old(telling)
      ensures rc == 0 || (rc == EINTR && port.SignalPending())
      ensures rc == 0 ==> bufs[fill].state == Empty
    {
      rc := SleepThread(fill);
      AllIdleStable(old(bufs), bufs);
      assert bufs[fill].state == Empty || bufs[fill].state == Sending;
    }

    // The thread is busy elsewhere while the next buffer to fill is Empty.
    method IdleInterrupts()
      requires Valid() && Idle() && port.Valid() && bufs[fill].state == Empty
      modifies this`bufs, this`outQueue, this`win, this`data, this`settled, port
      ensures Valid() && Idle() && port.Moved() && data == old(data)
      ensures bufs[fill].state == Empty
    {
      Interrupts();
      AllIdleStable(old(bufs), bufs);
    }

    // Wait for the next buffer to fill, which is Empty already.
    method SleepRest()
      requires OutPhase() && port.Valid() && win == []
      modifies this`bufs, this`outQueue, this`win, this`data, this`settled, port
      ensures OutPhase() && win == [] && port.Moved() && data == old(data)
    {
      OutRingEnds(bufs, base, outQueue, win, drain, fill);
      var rc := SleepThread(fill);
      RestEmptyStable(old(bufs), bufs, base, 0);
    }

    // Interrupts while no request is outstanding and every buffer is empty.
    method RestInterrupts()
      requires OutPhase() && port.Valid() && win == []
      modifies this`bufs, this`outQueue, this`win, this`data, this`settled, port
      ensures OutPhase() && win == [] && port.Moved() && data == old(data)
    {
      Interrupts();
      RestEmptyStable(old(bufs), bufs, base, 0);
    }

    // The thread overwrites the next buffer to fill without sending it.
    method ScratchData(data: seq<byte>)
      requires OutPhase() && win == [] && |data| <= BUFLEN
      modifies this`bufs
      ensures OutPhase() && bufs[fill].state == Empty && bufs[fill].Ok()
      ensures bufs[fill].buf[..|data|] == data
    {
      OutRingEnds(bufs, base, outQueue, win, drain, fill);
      PutData(data);
    }
  
    // Interrupts during the data phase of a command that takes data.
    method OutInterrupts()
      requires OutPhase() && port.Valid()
      modifies this`bufs, this`outQueue, this`win, this`data, this`settled, port
      ensures OutPhase() && Later(old(win), win) && port.Moved() && old(data) <= data
    {
      Interrupts();
      RestEmptyStable(old(bufs), bufs, base, |win|);
    }
  
    // ------------------------------------------------------------ wrappers

    // With no request outstanding the window can start anywhere.
    method EmptyQueue(at: nat)
      requires Wired() && at < |bufs| && AllOk(bufs)
      requires forall i | 0 <= i < |bufs| :: bufs[i].state != Receiving
      modifies this`outQueue, this`base, this`win, this`drained, this`consumed, this`outAsked
      ensures Valid() && base == at && win == [] && outQueue == [] && Stream() == old(Stream()).Settle()
      ensures Pipe(bufs, base, outQueue, win, Stream())
    {
      EmptyPipe(bufs, at, Stream());
      outQueue, base, win := [], at, [];
      drained, consumed, outAsked := |data|, Payloads(data), AskedFor(data);
    }

    // Ask for a command block wrapper in the next buffer to fill, which stays
    // the next buffer to fill.
    method AskForCbw(length: nat)
      requires Valid() && Idle() && bufs[fill].state == Empty && length <= BUFLEN
      modifies this
      ensures SamePast() && telling == old(telling) && data == old(data)
      ensures Valid() && !cancelling && |win| == 1 && |outQueue| == 1
      ensures fill == old(fill) && drain == old(drain) && base == fill
      ensures bufs[fill].state == Receiving && CbwPending() && win[0].intended == length
    {
      EmptyQueue(fill);
      assert At(base, 0, |bufs|) == fill;
      StartOutTransfer(fill, length);
      forall i | 0 <= i < |bufs| && i != fill
        ensures bufs[i].state == Empty || bufs[i].state == Sending
      {
      }
    }

    // One request is outstanding, in the next buffer to fill.
    ghost predicate CbwPending()
      reads this
    {
      && !cancelling && fill < |bufs| && base == fill && |win| == 1 && IdleExcept(bufs, fill)
    }

    // The wrapper that has come in is the last thing the host has sent.
    ghost predicate CbwHeard(asked: nat)
      reads this
    {
      && Valid() && CbwPending() && !bufs[fill].Busy() && settled
      && data != [] && data[|data| - 1] == bufs[fill].Arrived() && bufs[fill].intended == asked
    }

    // Wait for the wrapper to arrive.
    method SleepCbw() returns (rc: int)
      requires Valid() && CbwPending() && |outQueue| == 1 && port.Valid()
      modifies this, port
      ensures SamePast() && telling == old(telling)
      ensures Valid() && !cancelling && port.Moved() && old(data) <= data
      ensures rc == 0 || (rc == EINTR && port.SignalPending())
      ensures rc == 0 ==> CbwHeard(old(win)[0].intended) && data[..|data| - 1] == old(data)
    {
      rc := SleepThread(fill);
      if rc == 0 {
        ReceivedOne(bufs, base, outQueue, win);
        WindowHead(bufs, base, outQueue, win);
        assert Stream().Waiting(0) == win[0].Arrived();
      }
    }

    // The wrapper has been looked at; its buffer is free again and, since the host
    // has everything it was sent, so is every other.  The data of the command
    // starts here.
    method ReleaseCbw()
      requires Valid() && CbwPending() && !bufs[fill].Busy() && settled
      modifies this`bufs, this`win, this`outQueue, this`base, this`drain, this`told, this`telling
      modifies this`past, this`data, this`drained, this`consumed, this`outAsked
      ensures OutPhase() && win == [] && Stream() == old(Stream()).Restart()
      ensures told == old(Sent()) && telling == []
    {
      ReceivedOne(bufs, base, outQueue, win);
      bufs := bufs[fill := bufs[fill].(state := Empty)];
      past, data := Heard(), [];
      EmptyQueue(fill);
      drain, told, telling := fill, Sent(), [];
    }

    // ------------------------------------------------------------ cancelling

    // usb_ep_dequeue on buffer i, and wait for it to become idle.
    method CancelOne(i: nat) returns (rc: int)
      requires Valid() && cancelling && i < |bufs| && port.Valid()
      modifies this`bufs, this`outQueue, this`win, this`data, this`settled, port
      ensures Valid() && port.Moved() && old(data) <= data
      ensures rc == 0 || (rc == EINTR && port.SignalPending())
      ensures rc == 0 ==> !bufs[i].Busy()
      ensures forall k | 0 <= k < |bufs| && !old(bufs)[k].Busy() :: !bufs[k].Busy()
    {
      Interrupts();
      rc := 0;
      if bufs[i].Busy() && port.SignalPending() {
        rc := EINTR;
      } else if bufs[i].state == Sending {
        BulkInComplete(i);
      } else if bufs[i].state == Receiving {
        BulkOutCancelled(i, [], ECONNRESET);
      }
    }

    // Cancel every transfer; a signal ends the attempt early.
    method CancelAll() returns (rc: int)
      requires Valid() && port.Valid()
      modifies this, port
      ensures SamePast() && telling == old(telling)
      ensures Valid() && cancelling && port.Moved() && old(data) <= data
      ensures rc == 0 || (rc == EINTR && port.SignalPending())
      ensures rc == 0 ==> forall k | 0 <= k < |bufs| :: !bufs[k].Busy()
    {
      StartCancelling();
      var i := 0;
      while i < |bufs|
        invariant Valid() && cancelling && port.Moved() && i <= |bufs| && old(data) <= data
        invariant SamePast() && telling == old(telling)
        invariant forall k | 0 <= k < i :: !bufs[k].Busy()
      {
        rc := CancelOne(i);
        if rc != 0 {
          return;
        }
        i := i + 1;
      }
      rc := 0;
    }

    method StartCancelling()
      requires Valid()
      modifies this`cancelling
      ensures Valid() && cancelling
    {
      cancelling := true;
    }

    // Every buffer becomes Empty.
    method ClearBuffers()
      requires Valid() && cancelling
      modifies this`bufs
      ensures Valid() && forall k | 0 <= k < |bufs| :: bufs[k].state == Empty
    {
      var i := 0;
      while i < |bufs|
        invariant Valid() && i <= |bufs|
        invariant forall k | 0 <= k < i :: bufs[k].state == Empty
      {
        bufs := bufs[i := bufs[i].(state := Empty)];
        i := i + 1;
      }
    }

    method ResetRing()
      requires Valid() && cancelling
      modifies this`bufs, this`outQueue, this`win, this`settled, this`cancelling
      modifies this`fill, this`drain, this`base, this`drained, this`consumed, this`outAsked
      ensures Valid() && Idle() && fill == 0 && drain == 0
      ensures forall k | 0 <= k < |bufs| :: bufs[k].state == Empty
    {
      ClearBuffers();
      EmptyQueue(0);
      fill, drain, cancelling, settled := 0, 0, false, true;
    }

    // Both pointers at the first buffer of an empty ring, and no request queued.
    method Reset()
      requires Valid() && cancelling
      modifies this
      ensures SamePast() && telling == old(telling) && data == old(data)
      ensures Valid() && Idle() && fill == 0 && drain == 0
      ensures forall k | 0 <= k < |bufs| :: bufs[k].state == Empty
    {
      ResetRing();
    }
  }
}
