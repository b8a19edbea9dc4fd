// The prioritised exception of the gadget thread: what is pending after any
// sequence of raises, independently of how __raise_exception keeps track of it.
module Exceptions {
  import opened Base

  // enum fsg_state, in priority order.
  datatype FsgState = Normal | AbortBulkOut | ProtocolReset | ConfigChange | Exit | Terminated {
    function Priority(): nat {
      match this
      case Normal => 0
      case AbortBulkOut => 1
      case ProtocolReset => 2
      case ConfigChange => 3
      case Exit => 4
      case Terminated => 5
    }
  }

  // A request for attention.  `Raise` is a call of __raise_exception, with the
  // ep0 tag current at that moment; `Foreign` is a signal other than SIGUSR1
  // that handle_exception turned into an EXIT.  `arg` is the fsg_dev passed to
  // CONFIG_CHANGE, by number, or None for a null pointer.
  datatype Event =
    | Raise(to: FsgState, arg: Option<nat>, tag: nat)
    | Foreign
  {
    function Target(): FsgState {
      if Raise? then to else Exit
    }

    function Priority(): nat {
      Target().Priority()
    }
  }

  // The exception registers of struct fsg_common.
  datatype Pending = Pending(state: FsgState, tag: nat, arg: Option<nat>)

  // __raise_exception: do nothing if a higher-priority exception is pending,
  // otherwise preempt it.  A foreign signal sets the state alone.
  function Apply(p: Pending, r: Event): Pending {
    match r
    case Raise(to, arg, tag) =>
      if p.state.Priority() <= to.Priority() then Pending(to, tag, arg) else p
    case Foreign => p.(state := Exit)
  }

  function ApplyAll(p: Pending, rs: seq<Event>): Pending {
    if rs == [] then p else Apply(ApplyAll(p, rs[..|rs| - 1]), rs[|rs| - 1])
  }

  // rs[i] is the last of the most urgent requests in rs.
  ghost predicate LastMostUrgent(rs: seq<Event>, i: int) {
    && 0 <= i < |rs|
    && (forall j | 0 <= j < |rs| :: rs[j].Priority() <= rs[i].Priority())
    && (forall j | i < j < |rs| :: rs[j].Priority() < rs[i].Priority())
  }

  // The registers hold request r.
  ghost predicate Holds(p: Pending, r: Event) {
    p.state == r.Target() && (r.Raise? ==> p.tag == r.tag && p.arg == r.arg)
  }

  // What a history of requests leaves pending, said without reference to the
  // order in which the registers were overwritten.
  ghost predicate Reports(rs: seq<Event>, p: Pending) {
    if rs == [] then p.state == Normal
    else exists i :: LastMostUrgent(rs, i) && Holds(p, rs[i])
  }

  // TERMINATED is set by the exiting thread itself and never requested.
  ghost predicate Raisable(rs: seq<Event>) {
    forall j | 0 <= j < |rs| :: rs[j].Target() != Terminated
  }

  // One more request keeps the registers in agreement with the reference.
  lemma ApplyReports(rs: seq<Event>, p: Pending, r: Event)
    requires Reports(rs, p) && Raisable(rs)
    ensures Reports(rs + [r], Apply(p, r))
  {
    if rs == [] {
      assert LastMostUrgent(rs + [r], 0);
    } else {
      var i :| LastMostUrgent(rs, i) && Holds(p, rs[i]);
      Extends(rs, r, i);
      Preempts(p, rs[i], r);
    }
  }

  lemma Preempts(p: Pending, held: Event, r: Event)
    requires Holds(p, held) && held.Target() != Terminated
    ensures Holds(Apply(p, r), if held.Priority() <= r.Priority() then r else held)
  {
  }

  // The newcomer wins unless the old winner is strictly more urgent.
  lemma Extends(rs: seq<Event>, r: Event, i: int)
    requires LastMostUrgent(rs, i)
    ensures LastMostUrgent(rs + [r], if rs[i].Priority() <= r.Priority() then |rs| else i)
  {
  }

  // Under any sequence of requests the registers hold the last of the most
  // urgent ones, with its argument and its ep0 tag.
  lemma {:induction false} PendingIsLastMostUrgent(p: Pending, rs: seq<Event>)
    requires p.state == Normal && Raisable(rs)
    ensures Reports(rs, ApplyAll(p, rs))
  {
    if rs != [] {
      var front := rs[..|rs| - 1];
      var last := rs[|rs| - 1];
      assert front + [last] == rs;
      PendingIsLastMostUrgent(p, front);
      ApplyReports(front, ApplyAll(p, front), last);
    }
  }

  // Whatever was requested is held itself, or superseded by something more
  // urgent, or by something later that is equally urgent.
  lemma NothingLost(rs: seq<Event>, p: Pending, j: nat)
    requires Reports(rs, p) && j < |rs|
    ensures || Holds(p, rs[j])
            || rs[j].Priority() < p.state.Priority()
            || (exists k :: j < k < |rs| && rs[k].Priority() == rs[j].Priority() && Holds(p, rs[k]))
  {
    var i :| LastMostUrgent(rs, i) && Holds(p, rs[i]);
    assert p.state.Priority() == rs[i].Priority();
    assert rs[j].Priority() <= rs[i].Priority();
  }

  // This request asks for this state; a foreign signal asks for an exit.
  predicate IsFor(r: Event, s: FsgState) {
    if r.Raise? then r.to == s else s == Exit
  }

  predicate Wanted(rs: seq<Event>, s: FsgState) {
    exists j | 0 <= j < |rs| :: IsFor(rs[j], s)
  }

  // The registers hold the last request for this state.
  predicate HoldsLast(p: Pending, rs: seq<Event>, s: FsgState) {
    && p.state == s
    && exists i | 0 <= i < |rs| ::
         && IsFor(rs[i], s) && (forall j | i < j < |rs| :: !IsFor(rs[j], s))
         && (rs[i].Raise? ==> p.tag == rs[i].tag && p.arg == rs[i].arg)
  }

  // Which request is held, by name: an exit if one was asked for, or else a configuration
  // change, or else a bulk-only reset, or else the abort of a data phase.
  lemma HeldByName(rs: seq<Event>, p: Pending)
    requires Reports(rs, p) && Raisable(rs) && rs != []
    ensures if Wanted(rs, Exit) then HoldsLast(p, rs, Exit)
            else if Wanted(rs, ConfigChange) then HoldsLast(p, rs, ConfigChange)
            else if Wanted(rs, ProtocolReset) then HoldsLast(p, rs, ProtocolReset)
            else if Wanted(rs, AbortBulkOut) then HoldsLast(p, rs, AbortBulkOut)
            else p.state == Normal
  {
    var i :| LastMostUrgent(rs, i) && Holds(p, rs[i]);
    assert IsFor(rs[i], p.state);
    assert HoldsLast(p, rs, p.state);
    forall s | Wanted(rs, s)
      ensures s.Priority() <= p.state.Priority()
    {
      var j :| 0 <= j < |rs| && IsFor(rs[j], s);
      assert rs[j].Priority() <= rs[i].Priority();
    }
  }
}
