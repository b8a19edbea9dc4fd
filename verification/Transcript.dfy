// The conversation with the host.  Its half is everything that came in on bulk-out,
// in turns of a wrapper and the data that follows it; the driver's half is everything
// it has sent on bulk-in, which is one reply for each wrapper it accepts.
module Transcript {
  import opened Base
  import opened Ring
  import opened Storage
  import opened Scsi
  import opened Exchanges

  // The transfers of data and the status that one command put on the bulk-in endpoint.
  datatype Reply = Reply(parts: seq<seq<byte>>, status: seq<byte>) {
    function Data(): seq<byte> {
      Bytes(parts)
    }

    function Transfers(): seq<seq<byte>> {
      parts + [status]
    }
  }

  // All the transfers these replies consist of.
  function Wire(replies: seq<Reply>): seq<seq<byte>> {
    if replies == [] then [] else Wire(replies[..|replies| - 1]) + replies[|replies| - 1].Transfers()
  }

  // A wrapper that was refused, or one whose command was carried out, with the
  // transfers that came in for it.
  datatype Turn =
    | Refused(wrapper: Arrival)
    | Served(wrapper: Arrival, data: seq<Arrival>)
  {
    function Words(): seq<Arrival> {
      if Served? then [wrapper] + data else [wrapper]
    }

    // A good transfer that is no wrapper: from here on everything is ignored.
    predicate Breaks() {
      wrapper.status == 0 && ParseCbw(wrapper.payload).Invalid?
    }
  }

  // What the host has said in these turns.
  function Spoken(turns: seq<Turn>): seq<Arrival> {
    if turns == [] then [] else Spoken(turns[..|turns| - 1]) + turns[|turns| - 1].Words()
  }

  predicate Ignoring(turns: seq<Turn>) {
    exists i | 0 <= i < |turns| :: turns[i].Breaks()
  }

  // A wrapper counts if it is a good transfer, valid and meaningful, and nothing
  // invalid came before it.
  predicate Acceptable(w: Arrival, ignoring: bool) {
    w.status == 0 && !ignoring && ParseCbw(w.payload).Accepted?
  }

  // Every turn began with a request for a wrapper, and exactly the acceptable ones
  // were served.
  ghost predicate Orderly(turns: seq<Turn>) {
    forall i | 0 <= i < |turns| ::
      && turns[i].wrapper.asked == CBW_LENGTH
      && (turns[i].Served? <==> Acceptable(turns[i].wrapper, Ignoring(turns[..i])))
  }

  function ServedOf(turns: seq<Turn>): seq<Turn> {
    if turns == [] then []
    else if turns[|turns| - 1].Served? then ServedOf(turns[..|turns| - 1]) + [turns[|turns| - 1]]
    else ServedOf(turns[..|turns| - 1])
  }

  // The transfers that came in for a command: all that it announced was asked for
  // unless the host cut one of them off, and none if the data goes the other way.
  predicate DataRight(cbw: Cbw, data: seq<Arrival>) {
    if cbw.Expects().dir == FromHost then AskedFor(data) == cbw.size || AnyCutOff(data) else data == []
  }

  // The exchange is what became of this turn: its command is the one the wrapper
  // announces, and what it received is what the first transfers brought.
  ghost predicate Tells(t: Turn, e: Exchange) {
    && t.Served? && ParseCbw(t.wrapper.payload) == Accepted(e.cmd.cbw)
    && e.taken <= |t.data| && e.received == Payloads(t.data[..e.taken])
    && e.broken == LastFailed(t.data, e.taken)
    && DataRight(e.cmd.cbw, t.data)
  }

  // The exchanges are what became of the turns that were served, in order.
  ghost predicate Heard(turns: seq<Turn>, log: seq<Exchange>) {
    |ServedOf(turns)| == |log| && forall i | 0 <= i < |log| :: Tells(ServedOf(turns)[i], log[i])
  }

  // The reply carries the data and the status of the exchange, and no transfer of data
  // at all unless the host expects some.
  ghost predicate Gives(r: Reply, e: Exchange) {
    && r.Data() == e.data && r.status == EncodeCsw(e.csw)
    && (e.cmd.Expects().dir != ToHost ==> r.parts == [])
  }

  // What has been sent on bulk-in is the replies of these exchanges, in order.
  ghost predicate Carried(replies: seq<Reply>, log: seq<Exchange>, sent: seq<seq<byte>>) {
    && |replies| == |log| && sent == Wire(replies)
    && forall i | 0 <= i < |log| :: Gives(replies[i], log[i])
  }

  // Every wrapper accepted has been answered by exactly one status, in order, and
  // nothing else has been sent.
  ghost predicate Complete(turns: seq<Turn>, replies: seq<Reply>, log: seq<Exchange>, sent: seq<seq<byte>>) {
    Run(log) && Orderly(turns) && Heard(turns, log) && Carried(replies, log, sent)
  }

  // Every one but the last, which announced this command.
  ghost predicate AllBut(turns: seq<Turn>, replies: seq<Reply>, log: seq<Exchange>, sent: seq<seq<byte>>,
                         cbw: Cbw) {
    && turns != [] && turns[|turns| - 1].Served? && turns[|turns| - 1].data == []
    && ParseCbw(turns[|turns| - 1].wrapper.payload) == Accepted(cbw)
    && Orderly(turns) && Heard(turns[..|turns| - 1], log) && Run(log) && Carried(replies, log, sent)
  }

  // The last turn with the data that came in for it.
  function Close(turns: seq<Turn>, data: seq<Arrival>): seq<Turn>
    requires turns != []
  {
    turns[..|turns| - 1] + [Served(turns[|turns| - 1].wrapper, data)]
  }

  // ------------------------------------------------------------ one more turn

  lemma FrontAndLast(turns: seq<Turn>)
    requires turns != []
    ensures turns == turns[..|turns| - 1] + [turns[|turns| - 1]]
  {
  }

  lemma FrontOfSnoc(turns: seq<Turn>, t: Turn)
    ensures (turns + [t])[..|turns|] == turns
  {
  }

  lemma SpokenSnoc(turns: seq<Turn>, t: Turn)
    ensures Spoken(turns + [t]) == Spoken(turns) + t.Words()
    ensures ServedOf(turns + [t]) == if t.Served? then ServedOf(turns) + [t] else ServedOf(turns)
    ensures Ignoring(turns + [t]) == (Ignoring(turns) || t.Breaks())
  {
    FrontOfSnoc(turns, t);
    if Ignoring(turns) {
      var i :| 0 <= i < |turns| && turns[i].Breaks();
      assert (turns + [t])[i].Breaks();
    }
    if t.Breaks() {
      assert (turns + [t])[|turns|].Breaks();
    }
  }

  lemma OrderlySnoc(turns: seq<Turn>, t: Turn)
    requires Orderly(turns) && t.wrapper.asked == CBW_LENGTH
    requires t.Served? <==> Acceptable(t.wrapper, Ignoring(turns))
    ensures Orderly(turns + [t])
  {
    var more := turns + [t];
    forall i | 0 <= i < |more|
      ensures more[i].wrapper.asked == CBW_LENGTH
      ensures more[i].Served? <==> Acceptable(more[i].wrapper, Ignoring(more[..i]))
    {
      assert more[..i] == turns[..i];
      if i == |turns| {
        assert turns[..i] == turns;
      }
    }
  }

  // A wrapper that is refused leaves nothing to answer.
  lemma RefuseOne(turns: seq<Turn>, replies: seq<Reply>, log: seq<Exchange>, sent: seq<seq<byte>>, w: Arrival)
    requires Complete(turns, replies, log, sent) && w.asked == CBW_LENGTH && !Acceptable(w, Ignoring(turns))
    ensures Complete(turns + [Refused(w)], replies, log, sent)
    ensures Spoken(turns + [Refused(w)]) == Spoken(turns) + [w]
  {
    SpokenSnoc(turns, Refused(w));
    OrderlySnoc(turns, Refused(w));
  }

  lemma LastIsOwed(more: seq<Turn>, turns: seq<Turn>, replies: seq<Reply>, log: seq<Exchange>,
                   sent: seq<seq<byte>>, t: Turn)
    requires more != [] && more[|more| - 1] == t && more[..|more| - 1] == turns && Orderly(more)
    requires Heard(turns, log) && Run(log) && Carried(replies, log, sent)
    requires t.Served? && t.data == [] && ParseCbw(t.wrapper.payload).Accepted?
    ensures AllBut(more, replies, log, sent, ParseCbw(t.wrapper.payload).cbw)
  {
  }

  // One that is accepted is owed an answer.
  lemma AcceptOne(turns: seq<Turn>, replies: seq<Reply>, log: seq<Exchange>, sent: seq<seq<byte>>, w: Arrival)
    requires Complete(turns, replies, log, sent) && w.asked == CBW_LENGTH && Acceptable(w, Ignoring(turns))
    ensures AllBut(turns + [Served(w, [])], replies, log, sent, ParseCbw(w.payload).cbw)
    ensures Spoken(turns + [Served(w, [])]) == Spoken(turns) + [w]
  {
    SpokenSnoc(turns, Served(w, []));
    OrderlySnoc(turns, Served(w, []));
    FrontOfSnoc(turns, Served(w, []));
    LastIsOwed(turns + [Served(w, [])], turns, replies, log, sent, Served(w, []));
  }

  lemma OrderlyFront(turns: seq<Turn>)
    requires Orderly(turns) && turns != []
    ensures Orderly(turns[..|turns| - 1])
  {
    var front := turns[..|turns| - 1];
    forall i | 0 <= i < |front|
      ensures front[i].wrapper.asked == CBW_LENGTH
      ensures front[i].Served? <==> Acceptable(front[i].wrapper, Ignoring(front[..i]))
    {
      assert front[..i] == turns[..i];
    }
  }

  // Data changes nothing about which wrappers count.
  lemma CloseOrderly(turns: seq<Turn>, data: seq<Arrival>)
    requires turns != [] && Orderly(turns) && turns[|turns| - 1].Served?
    ensures Orderly(Close(turns, data))
  {
    OrderlyFront(turns);
    OrderlySnoc(turns[..|turns| - 1], Served(turns[|turns| - 1].wrapper, data));
  }

  lemma LaterData(front: seq<Turn>, w: Arrival, data: seq<Arrival>)
    ensures Spoken(front + [Served(w, data)]) == Spoken(front + [Served(w, [])]) + data
    ensures Ignoring(front + [Served(w, data)]) == Ignoring(front + [Served(w, [])])
  {
    SpokenSnoc(front, Served(w, data));
    SpokenSnoc(front, Served(w, []));
    Regroup(Spoken(front), [w], data);
    assert Served(w, []).Words() == [w];
  }

  lemma CloseSpoken(turns: seq<Turn>, data: seq<Arrival>)
    requires turns != [] && turns[|turns| - 1].Served? && turns[|turns| - 1].data == []
    ensures Spoken(Close(turns, data)) == Spoken(turns) + data
    ensures Ignoring(Close(turns, data)) == Ignoring(turns)
  {
    var w := turns[|turns| - 1].wrapper;
    LaterData(turns[..|turns| - 1], w, data);
    FrontAndLast(turns);
    assert turns[|turns| - 1] == Served(w, []);
  }

  lemma Regroup(a: seq<Arrival>, b: seq<Arrival>, c: seq<Arrival>)
    ensures a + (b + c) == (a + b) + c
  {
  }

  lemma HeardMore(turns: seq<Turn>, log: seq<Exchange>, t: Turn, e: Exchange)
    requires Heard(turns, log) && Tells(t, e)
    ensures Heard(turns + [t], log + [e])
  {
    SpokenSnoc(turns, t);
  }

  lemma WireSnoc(replies: seq<Reply>, r: Reply)
    ensures Wire(replies + [r]) == Wire(replies) + r.Transfers()
  {
    assert (replies + [r])[..|replies|] == replies;
  }

  lemma CarriedMore(replies: seq<Reply>, log: seq<Exchange>, sent: seq<seq<byte>>, r: Reply, e: Exchange)
    requires Carried(replies, log, sent) && Gives(r, e)
    ensures Carried(replies + [r], log + [e], sent + r.Transfers())
  {
    WireSnoc(replies, r);
  }

  // The answer that was owed has been given.
  lemma Answer(turns: seq<Turn>, replies: seq<Reply>, log: seq<Exchange>, sent: seq<seq<byte>>,
               data: seq<Arrival>, r: Reply, e: Exchange)
    requires AllBut(turns, replies, log, sent, e.cmd.cbw) && e.Answered() && Follows(log, e.cmd.before)
    requires e.taken <= |data| && e.received == Payloads(data[..e.taken]) && DataRight(e.cmd.cbw, data)
    requires e.broken == LastFailed(data, e.taken) && Gives(r, e)
    ensures Complete(Close(turns, data), replies + [r], log + [e], sent + r.Transfers())
    ensures Spoken(Close(turns, data)) == Spoken(turns) + data
    ensures Ignoring(Close(turns, data)) == Ignoring(turns)
  {
    CloseOrderly(turns, data);
    CloseSpoken(turns, data);
    HeardMore(turns[..|turns| - 1], log, Served(turns[|turns| - 1].wrapper, data), e);
    RunMore(log, e);
    CarriedMore(replies, log, sent, r, e);
  }

  // The account is settled: all that was heard is accounted for in turns, everything
  // in them is answered, all that was sent are these answers, and the unit is as the
  // last command has left it.
  ghost predicate Square(turns: seq<Turn>, replies: seq<Reply>, log: seq<Exchange>, sent: seq<seq<byte>>,
                         heard: seq<Arrival>, ignoring: bool, v: LunView)
  {
    && Complete(turns, replies, log, sent) && Spoken(turns) == heard && ignoring == Ignoring(turns)
    && Follows(log, v)
  }

  // Before the first turn.
  lemma NothingYet(v: LunView)
    ensures Square([], [], [], [], [], false, v)
  {
  }

  // ------------------------------------------------------------ what the host sees

  lemma {:induction false} PayloadsPrefix(s: seq<Arrival>, k: nat)
    requires k <= |s|
    ensures Payloads(s[..k]) <= Payloads(s)
    decreases |s|
  {
    if k < |s| {
      PayloadsPrefix(s[..|s| - 1], k);
      assert s[..|s| - 1][..k] == s[..k];
    } else {
      assert s[..k] == s;
    }
  }

  // Where the i-th reply begins on the wire.
  function Place(replies: seq<Reply>, i: nat): nat
    requires i <= |replies|
  {
    |Wire(replies[..i])|
  }

  lemma {:induction false} WirePrefix(replies: seq<Reply>, i: nat)
    requires i <= |replies|
    ensures Wire(replies[..i]) <= Wire(replies)
    decreases |replies|
  {
    if i < |replies| {
      WirePrefix(replies[..|replies| - 1], i);
      assert replies[..|replies| - 1][..i] == replies[..i];
    } else {
      assert replies[..i] == replies;
    }
  }

  lemma Within(w: seq<seq<byte>>, a: seq<seq<byte>>, b: seq<seq<byte>>, x: seq<byte>)
    requires a + (b + [x]) <= w
    ensures w[|a|..|a| + |b|] == b && w[|a| + |b|] == x
  {
    assert w[..|a| + |b| + 1] == a + (b + [x]);
  }

  lemma Ends(replies: seq<Reply>)
    ensures Place(replies, 0) == 0 && Place(replies, |replies|) == |Wire(replies)|
  {
    assert replies[..|replies|] == replies;
  }

  // The transfers of the i-th reply lie between where it begins and where the next one
  // does, the status last.
  lemma OnTheWire(replies: seq<Reply>, i: nat)
    requires i < |replies|
    ensures var a, b := Place(replies, i), Place(replies, i + 1);
            && a + |replies[i].parts| == b - 1 && b <= |Wire(replies)|
            && Wire(replies)[a..b - 1] == replies[i].parts && Wire(replies)[b - 1] == replies[i].status
  {
    assert replies[..i + 1] == replies[..i] + [replies[i]];
    WireSnoc(replies[..i], replies[i]);
    WirePrefix(replies, i + 1);
    Within(Wire(replies), Wire(replies[..i]), replies[i].parts, replies[i].status);
  }

  // What the host was sent as data for the i-th wrapper that counted, and as status.
  function SentFor(replies: seq<Reply>, sent: seq<seq<byte>>, i: nat): seq<seq<byte>>
    requires i < |replies| && Place(replies, i) < Place(replies, i + 1) <= |sent|
  {
    sent[Place(replies, i)..Place(replies, i + 1) - 1]
  }

  function StatusFor(replies: seq<Reply>, sent: seq<seq<byte>>, i: nat): seq<byte>
    requires i < |replies| && 0 < Place(replies, i + 1) <= |sent|
  {
    sent[Place(replies, i + 1) - 1]
  }

  // The host reads its answers off the wire.  The last transfer of the i-th reply is a
  // command status wrapper, byte by byte as section 5.2 of the Bulk-Only Transport
  // specification has it, with the tag of the i-th wrapper that counted, and a residue
  // that says how much of the announced data has not moved; the transfers before it are
  // the data, and there are none if the host expects none.  The replies follow one
  // another from the first transfer to the last.
  lemma AnsweredInOrder(turns: seq<Turn>, replies: seq<Reply>, log: seq<Exchange>, sent: seq<seq<byte>>, i: nat)
    requires Complete(turns, replies, log, sent) && i < |ServedOf(turns)|
    ensures |replies| == |log| == |ServedOf(turns)| && ServedOf(turns)[i].Served?
    ensures Place(replies, 0) == 0 && Place(replies, |replies|) == |sent|
    ensures Place(replies, i) < Place(replies, i + 1) <= |sent|
    ensures var cbw, csw := log[i].cmd.cbw, log[i].csw;
            && IsWrapper(ServedOf(turns)[i].wrapper.payload, cbw.tag, cbw.size, cbw.toHost, cbw.lun, cbw.cdb)
            && IsStatus(StatusFor(replies, sent, i), cbw.tag, csw.residue, CodeOf(csw.status))
    ensures var cbw, residue, data := log[i].cmd.cbw, log[i].csw.residue, SentFor(replies, sent, i);
            && residue <= cbw.size
            && (if cbw.Expects().dir == ToHost then log[i].cmd.Silent() || residue + |Bytes(data)| == cbw.size
                else data == [] && residue + log[i].stored == cbw.size)
  {
    Ends(replies);
    OnTheWire(replies, i);
    assert Gives(replies[i], log[i]);
    assert Tells(ServedOf(turns)[i], log[i]);
    assert log[i].Answered();
    WrapperBytes(ServedOf(turns)[i].wrapper.payload, log[i].cmd.cbw);
    StatusBytes(log[i].csw);
  }

  // What is no wrapper: not 31 bytes long, or without the signature.
  predicate NoWrapper(r: seq<byte>) {
    |r| != 31 || LittleEndian(r, 0) != 0x4342_5355
  }

  // A good transfer that is none, where a wrapper is due, silences the driver: no wrapper
  // after it counts.
  lemma GarbageSilences(turns: seq<Turn>, i: nat, j: nat)
    requires Orderly(turns) && i < j < |turns|
    requires turns[i].wrapper.status == 0 && NoWrapper(turns[i].wrapper.payload)
    ensures turns[j].Refused?
  {
    WrapperBytes(turns[i].wrapper.payload, Cbw(0, 0, false, 0, []));
    assert turns[..j][i].Breaks();
  }

  // And nothing else does: a good transfer that announces a command counts if every
  // good transfer before it was a wrapper.
  lemma OtherwiseHeard(turns: seq<Turn>, j: nat, c: Cbw)
    requires Orderly(turns) && j < |turns| && turns[j].wrapper.status == 0
    requires IsWrapper(turns[j].wrapper.payload, c.tag, c.size, c.toHost, c.lun, c.cdb)
    requires forall i | 0 <= i < j :: turns[i].wrapper.status == 0 ==> !NoWrapper(turns[i].wrapper.payload)
    ensures turns[j].Served? && ParseCbw(turns[j].wrapper.payload) == Accepted(c)
  {
    WrapperBytes(turns[j].wrapper.payload, c);
    forall i | 0 <= i < j
      ensures !turns[..j][i].Breaks()
    {
      WrapperBytes(turns[i].wrapper.payload, c);
    }
  }

  // A command's data is what the host was sent before its status.
  lemma RepliedIs(turns: seq<Turn>, replies: seq<Reply>, log: seq<Exchange>, sent: seq<seq<byte>>, i: nat)
    requires Complete(turns, replies, log, sent) && i < |log|
    ensures |replies| == |log| == |ServedOf(turns)|
    ensures Place(replies, i) < Place(replies, i + 1) <= |sent|
    ensures Bytes(SentFor(replies, sent, i)) == log[i].data
  {
    assert Gives(replies[i], log[i]);
    OnTheWire(replies, i);
  }

  // What a command received is the beginning of what the host sent after its
  // wrapper.
  lemma ReceivedIsSent(turns: seq<Turn>, replies: seq<Reply>, log: seq<Exchange>, sent: seq<seq<byte>>, i: nat)
    requires Complete(turns, replies, log, sent) && i < |log|
    ensures |log| == |ServedOf(turns)|
    ensures ServedOf(turns)[i].Served? && log[i].received <= Payloads(ServedOf(turns)[i].data)
  {
    assert Tells(ServedOf(turns)[i], log[i]);
    PayloadsPrefix(ServedOf(turns)[i].data, log[i].taken);
  }
}
