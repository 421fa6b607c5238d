/** The polling event stream of webpilot/service/api.py. */
module EventStream {
  import opened Common
  import opened Runs
  import opened RunStore
  import opened EventLog
  import opened Protocol
  import opened ProtocolTheorems

  /**
    One turn of the loop reads the log twice: when it lists events and, later, when it reads the
    status. A log only grows, so each read is a prefix of the final log and is given by its length.
   */
  datatype Poll = Poll(listed: nat, read: nat)

  ghost predicate Chain(log: seq<Event>, polls: seq<Poll>) {
    && (forall k :: 0 <= k < |polls| ==> 0 < polls[k].read <= |log| && polls[k].listed <= polls[k].read)
    && (forall j, k :: 0 <= j < k < |polls| ==> polls[j].read <= polls[k].listed)
  }

  /** The status a client reads when the log has length `n`. */
  function StatusAt(log: seq<Event>, n: nat): Status
    requires 0 < n <= |log|
  {
    log[n - 1].status
  }

  /** The events numbered after+1 up to n. */
  function Slice(log: seq<Event>, after: nat, n: nat): seq<Event>
    requires n <= |log|
  {
    if after <= n then log[after..n] else []
  }

  /** Listing after `next` gives the slice from there on. */
  lemma ListedIsSlice(log: seq<Event>, next: nat, n: nat)
    requires LegalLog(log) && n <= |log|
    ensures EventsAfter(log[..n], next) == Slice(log, next, n)
    ensures forall k :: 0 <= k < |Slice(log, next, n)| ==> Slice(log, next, n)[k].sequence == next + k + 1
  {
    hide LegalLog, EventsAfter;
    PrefixLegal(log, n);
    EventsAfterIsSuffix(log[..n], next);
    EventsAfterIsSuffix(log, next);
    if next <= n {
      assert log[..n][next..] == log[next..n];
    }
  }

  /** The cursor stands where the sent slice ends. */
  lemma SliceContinues(log: seq<Event>, after: nat, seen: nat, n: nat)
    requires seen <= n <= |log|
    ensures Slice(log, after, n) == Slice(log, after, seen) + Slice(log, after + |Slice(log, after, seen)|, n)
  {
    if after <= seen {
      assert log[after..n] == log[after..seen] + log[seen..n];
    } else {
      assert Slice(log, after, seen) == [];
    }
  }

  /** The inner loop: every newly listed event is sent and moves the cursor to its sequence number. */
  method EmitNew(log: seq<Event>, sent0: seq<Event>, ghost seen: nat, n: nat, after: nat) returns (sent: seq<Event>)
    requires LegalLog(log) && seen <= n <= |log| && sent0 == Slice(log, after, seen)
    ensures sent == Slice(log, after, n)
  {
    hide LegalLog, EventsAfter, Slice;
    sent := sent0;
    var next := after + |sent0|;
    ListedIsSlice(log, next, n);
    SliceContinues(log, after, seen, n);
    var events := EventsAfter(log[..n], next);
    for k := 0 to |events|
      invariant sent == sent0 + events[..k]
      invariant next == after + |sent0| + k
    {
      next := events[k].sequence;
      sent := sent + [events[k]];
    }
    assert events[..|events|] == events;
  }

  lemma NothingBefore(log: seq<Event>, after: nat)
    ensures Slice(log, after, 0) == []
  {
  }

  lemma NothingNewMeansComplete(log: seq<Event>, after: nat, listed: nat, read: nat)
    requires listed <= read <= |log|
    ensures Slice(log, after, listed) == Slice(log, after, read) <==> read <= after || listed == read
  {
    if listed < read && after < read {
      assert |Slice(log, after, listed)| < |Slice(log, after, read)|;
    }
  }

  /**
    Streams until the status is terminal, or once, or until the client stops polling. What was sent is
    exactly the part of the log after `after` that the last listing saw: nothing is skipped, repeated
    or reordered. A stream that closed by itself has sent everything there was to send when it
    closed if and only if no event beyond `after` fell between its last two reads.
   */
  method StreamEvents(log: seq<Event>, after: nat, once: bool, polls: seq<Poll>)
    returns (sent: seq<Event>, used: nat, closed: bool)
    requires LegalLog(log) && Chain(log, polls)
    ensures used <= |polls| && (closed ==> used > 0) && (!closed ==> used == |polls|)
    ensures sent == if used == 0 then [] else Slice(log, after, polls[used - 1].listed)
    ensures closed && !once ==> IsTerminal(StatusAt(log, polls[used - 1].read))
    ensures forall k :: 0 <= k < (if closed then used - 1 else used) ==>
              !once && !IsTerminal(StatusAt(log, polls[k].read))
    ensures closed ==>
              (sent == Slice(log, after, polls[used - 1].read) <==>
               polls[used - 1].read <= after || polls[used - 1].listed == polls[used - 1].read)
  {
    hide LegalLog, Slice;
    assert Slice(log, after, 0) == [] by { NothingBefore(log, after); }
    sent, used, closed := [], 0, false;
    while used < |polls|
      invariant used <= |polls|
      invariant sent == if used == 0 then [] else Slice(log, after, polls[used - 1].listed)
      invariant forall k :: 0 <= k < used ==> !once && !IsTerminal(StatusAt(log, polls[k].read))
    {
      var seen := if used == 0 then 0 else polls[used - 1].listed;
      assert seen <= polls[used].listed;
      sent := EmitNew(log, sent, seen, polls[used].listed, after);
      used := used + 1;
      if once || IsTerminal(StatusAt(log, polls[used - 1].read)) {
        NothingNewMeansComplete(log, after, polls[used - 1].listed, polls[used - 1].read);
        closed := true;
        return;
      }
    }
  }

  /**
    Completeness can fail: when the final event lands between listing and reading the status, the
    stream closes without having sent it.
   */
  lemma FinalEventCanBeMissed() returns (log: seq<Event>, poll: Poll)
    ensures LegalLog(log) && Chain(log, [poll])
    ensures poll.listed < poll.read == |log|
    ensures IsTerminal(StatusAt(log, poll.read))
    ensures |Slice(log, 0, poll.listed)| < |Slice(log, 0, poll.read)|
  {
    var created := Event(1, QueuedEvent, Queued, NoPayload);
    var cancelled := Event(2, CancelledEvent, Cancelled, NoPayload);
    AppendKeepsRun(Replay([]), [], created, Row(Queued, false, None, [], None));
    AppendKeepsRun(Replay([] + [created]), [] + [created], cancelled, Row(Cancelled, false, None, [], None));
    log, poll := [] + [created] + [cancelled], Poll(1, 2);
  }

  /* ---- Where polls come from ---- */

  /** The log of a run after the first `t` labels of an interleaving. */
  ghost function LogAt(durable: bool, labels: seq<Label>, id: RunId, t: nat): seq<Event>
    requires t <= |labels|
  {
    var db := Reached(durable, labels[..t]).db;
    if id in db.rows then db.events[id] else []
  }

  lemma LogNeverShrinks(durable: bool, labels: seq<Label>, id: RunId, t: nat)
    requires t < |labels|
    ensures LogAt(durable, labels, id, t) <= LogAt(durable, labels, id, t + 1)
  {
    hide Step, Reached, NoLostWakeup, StartsAccounted, Consistent;
    var before := Reached(durable, labels[..t]);
    assert labels[..t + 1] == labels[..t] + [labels[t]];
    ReachedNext(durable, labels[..t], labels[t]);
    StepKeepsInv(durable, before, labels[t]);
    assert id in before.db.rows ==> before.db.events[id] <= Step(durable, before, labels[t]).db.events[id];
  }

  lemma {:induction false} LogOnlyGrows(durable: bool, labels: seq<Label>, id: RunId, t: nat, u: nat)
    requires t <= u <= |labels|
    ensures LogAt(durable, labels, id, t) <= LogAt(durable, labels, id, u)
    decreases u
  {
    hide LogAt;
    if t < u {
      LogOnlyGrows(durable, labels, id, t, u - 1);
      LogNeverShrinks(durable, labels, id, u - 1);
    }
  }

  /** When a client lists the events and when it reads the status, as positions in an interleaving. */
  datatype Moment = Moment(listing: nat, reading: nat)

  /** The reads of one client: in order, and of a run that exists when the first of them is made. */
  ghost predicate Reads(durable: bool, labels: seq<Label>, id: RunId, moments: seq<Moment>) {
    && (forall k :: 0 <= k < |moments| ==> moments[k].listing <= moments[k].reading <= |labels|)
    && (forall j, k :: 0 <= j < k < |moments| ==> moments[j].reading <= moments[k].listing)
    && (forall k :: 0 <= k < |moments| ==> id in Reached(durable, labels[..moments[k].listing]).db.rows)
  }

  /** What one turn's reads see. */
  ghost function PollOf(durable: bool, labels: seq<Label>, id: RunId, m: Moment): Poll
    requires m.listing <= m.reading <= |labels|
  {
    Poll(|LogAt(durable, labels, id, m.listing)|, |LogAt(durable, labels, id, m.reading)|)
  }

  ghost function PollsOf(durable: bool, labels: seq<Label>, id: RunId, moments: seq<Moment>): seq<Poll>
    requires Reads(durable, labels, id, moments)
  {
    seq(|moments|, k requires 0 <= k < |moments| => PollOf(durable, labels, id, moments[k]))
  }

  /** The poll lists the part of `log` written when it lists, and reads the status of the row when it reads. */
  ghost predicate Sees(durable: bool, labels: seq<Label>, id: RunId, m: Moment, log: seq<Event>, poll: Poll)
    requires m.listing <= m.reading <= |labels|
  {
    var rows := Reached(durable, labels[..m.reading]).db.rows;
    && 0 < poll.read <= |log| && poll.listed <= poll.read
    && log[..poll.listed] == LogAt(durable, labels, id, m.listing)
    && id in rows && StatusAt(log, poll.read) == rows[id].status
  }

  /** An existing run's log is legal, and its last status is the row's. */
  lemma LogShowsStatus(durable: bool, labels: seq<Label>, id: RunId, t: nat)
    requires t <= |labels| && id in Reached(durable, labels[..t]).db.rows
    ensures var log := LogAt(durable, labels, id, t);
            && log != [] && LegalLog(log)
            && log[|log| - 1].status == Reached(durable, labels[..t]).db.rows[id].status
  {
    hide Reached, NoLostWakeup, StartsAccounted, NoDuplicates;
    var db := Reached(durable, labels[..t]).db;
    assert RunConsistent(db.rows[id], db.events[id]);
    PendingApproval(db.events[id]);
  }

  lemma RowsStay(durable: bool, labels: seq<Label>, id: RunId, t: nat, u: nat)
    requires t <= u <= |labels| && id in Reached(durable, labels[..t]).db.rows
    ensures id in Reached(durable, labels[..u]).db.rows
  {
    hide Reached;
    LogShowsStatus(durable, labels, id, t);
    LogOnlyGrows(durable, labels, id, t, u);
  }

  lemma PollSees(durable: bool, labels: seq<Label>, id: RunId, m: Moment)
    requires m.listing <= m.reading <= |labels| && id in Reached(durable, labels[..m.listing]).db.rows
    ensures Sees(durable, labels, id, m, LogAt(durable, labels, id, |labels|), PollOf(durable, labels, id, m))
  {
    hide LogAt, Reached, LegalLog, Inv;
    LogOnlyGrows(durable, labels, id, m.listing, m.reading);
    LogOnlyGrows(durable, labels, id, m.reading, |labels|);
    RowsStay(durable, labels, id, m.listing, m.reading);
    LogShowsStatus(durable, labels, id, m.reading);
  }

  lemma LaterPollListsMore(durable: bool, labels: seq<Label>, id: RunId, m: Moment, later: Moment)
    requires m.listing <= m.reading <= later.listing <= later.reading <= |labels|
    ensures PollOf(durable, labels, id, m).read <= PollOf(durable, labels, id, later).listed
  {
    hide LogAt;
    LogOnlyGrows(durable, labels, id, m.reading, later.listing);
  }

  lemma PollIsOrdered(durable: bool, labels: seq<Label>, id: RunId, m: Moment, log: seq<Event>, poll: Poll)
    requires m.listing <= m.reading <= |labels| && Sees(durable, labels, id, m, log, poll)
    ensures 0 < poll.read <= |log| && poll.listed <= poll.read
  {
  }

  /**
    The reads of any client of any interleaving form a chain on the run's final log, list exactly the
    part of it that had been written, and read exactly the row's status.
   */
  lemma ReadsFormChain(durable: bool, labels: seq<Label>, id: RunId, moments: seq<Moment>)
    requires Reads(durable, labels, id, moments) && moments != []
    ensures var log, polls := LogAt(durable, labels, id, |labels|), PollsOf(durable, labels, id, moments);
            && LegalLog(log) && Chain(log, polls)
            && forall k :: 0 <= k < |moments| ==> Sees(durable, labels, id, moments[k], log, polls[k])
  {
    hide LogAt, Reached, LegalLog, Inv, Sees, PollOf;
    var log, polls := LogAt(durable, labels, id, |labels|), PollsOf(durable, labels, id, moments);
    RowsStay(durable, labels, id, moments[0].listing, |labels|);
    LogShowsStatus(durable, labels, id, |labels|);
    forall k | 0 <= k < |moments| ensures Sees(durable, labels, id, moments[k], log, polls[k]) {
      PollSees(durable, labels, id, moments[k]);
    }
    forall j, k | 0 <= j < k < |moments| ensures polls[j].read <= polls[k].listed {
      LaterPollListsMore(durable, labels, id, moments[j], moments[k]);
    }
    forall k | 0 <= k < |moments| ensures 0 < polls[k].read <= |log| && polls[k].listed <= polls[k].read {
      PollIsOrdered(durable, labels, id, moments[k], log, polls[k]);
    }
  }
}
