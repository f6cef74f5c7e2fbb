/** No starvation: a ready message is passed over only while its elders use up their attempts. */
module Fairness {
  import opened Messages
  import opened Statements
  import opened Pulling
  import opened Inbox
  import opened History
  import opened Runs
  import opened Safety

  /** The message being watched: its id, and the two columns that fix its place in the queue. */
  datatype Place = Place(id: Id, target: Agent, created: Time)

  predicate Stands(rows: Rows, m: Place) {
    m.id in rows && rows[m.id].env.target == m.target && rows[m.id].env.created == m.created
  }

  /** The live messages of the same inbox that are ordered before it. */
  function Ahead(rows: Rows, m: Place): set<Id> {
    set id | id in rows && rows[id].env.target == m.target && Live(rows[id])
             && (rows[id].env.created < m.created || (rows[id].env.created == m.created && id < m.id))
  }

  function Remaining(rows: Rows, id: Id, max: nat): nat {
    if id in rows && rows[id].attempts <= max then max - rows[id].attempts else 0
  }

  ghost function Total(rows: Rows, ids: set<Id>, max: nat): nat {
    if ids == {} then 0 else
      var id :| id in ids;
      Remaining(rows, id, max) + Total(rows, ids - {id}, max)
  }

  /** How many deliveries the messages ahead can still take. */
  ghost function Debt(rows: Rows, m: Place, max: nat): nat {
    Total(rows, Ahead(rows, m), max)
  }

  lemma {:induction false} TotalSplit(rows: Rows, ids: set<Id>, id: Id, max: nat)
    requires id in ids
    ensures Total(rows, ids, max) == Remaining(rows, id, max) + Total(rows, ids - {id}, max)
    decreases ids
  {
    var first :| first in ids && Total(rows, ids, max) == Remaining(rows, first, max) + Total(rows, ids - {first}, max);
    if first != id {
      TotalSplit(rows, ids - {first}, id, max);
      TotalSplit(rows, ids - {id}, first, max);
      assert ids - {first} - {id} == ids - {id} - {first};
    }
  }

  /** Fewer rows, none with more attempts left, and one attempt spent on each row that was hit. */
  lemma {:induction false} TotalShrinks(before: Rows, ids: set<Id>, after: Rows, left: set<Id>, hit: set<Id>, max: nat)
    requires left <= ids && hit <= ids
    requires forall id :: id in left ==>
               Remaining(after, id, max) + (if id in hit then 1 else 0) <= Remaining(before, id, max)
    requires forall id :: id in hit ==> id in left
    ensures Total(after, left, max) + |hit| <= Total(before, ids, max)
    decreases ids
  {
    if ids == {} {
      assert hit == {};
    } else {
      var id :| id in ids;
      TotalSplit(before, ids, id, max);
      if id in left {
        TotalSplit(after, left, id, max);
      }
      assert id !in left ==> left - {id} == left;
      assert |hit - {id}| == |hit| - if id in hit then 1 else 0;
      TotalShrinks(before, ids - {id}, after, left - {id}, hit - {id}, max);
    }
  }

  /** An event that lets nobody in ahead: no operator requeue, and new messages are strictly later. */
  predicate Orderly(e: Event, m: Place) {
    !e.Revive? && (e.Send? ==> e.env.created > m.created)
  }

  /** No message enters, comes back to life or gets attempts back; each row in `hit` spends one. */
  ghost predicate Narrows(before: Rows, after: Rows, hit: set<Id>, max: nat) {
    && (forall id :: id in after ==>
          id in before && after[id].env == before[id].env && (Live(after[id]) ==> Live(before[id]))
          && after[id].attempts >= before[id].attempts)
    && (forall id :: id in hit ==>
          id in after && Live(after[id]) && before[id].attempts < max && after[id].attempts > before[id].attempts)
  }

  lemma NarrowsDebt(before: Rows, after: Rows, hit: set<Id>, m: Place, max: nat)
    requires Narrows(before, after, hit, max) && hit <= Ahead(after, m)
    ensures Debt(after, m, max) + |hit| <= Debt(before, m, max)
  {
    TotalShrinks(before, Ahead(before, m), after, Ahead(after, m), hit, max);
  }

  /** Apart from pulls, no orderly step puts anyone ahead or gives anyone attempts back. */
  lemma QuietStep(l: Ledger, e: Event, c: Limits, m: Place)
    requires Admissible(l, e) && l.rows.Keys <= l.hist.Keys && Orderly(e, m) && !e.Poll?
    ensures Debt(Step(l, e, c).rows, m, c.max) <= Debt(l.rows, m, c.max)
  {
    if e.Send? {
      LaterSend(l.rows, e.id, e.env, m, c.max);
    } else {
      QuietNarrows(l, e, c);
      NarrowsDebt(l.rows, Step(l, e, c).rows, {}, m, c.max);
    }
  }

  lemma QuietNarrows(l: Ledger, e: Event, c: Limits)
    requires !e.Send? && !e.Poll? && !e.Revive?
    ensures Narrows(l.rows, Step(l, e, c).rows, {}, c.max)
  {
    var next := Step(l, e, c).rows;
    if e.Clean? {
      SweepNarrows(l.rows, e.at, c.max);
    } else {
      assert next == l.rows || (e.id in l.rows && next == l.rows[e.id := next[e.id]]);
    }
  }

  lemma LaterSend(rows: Rows, id: Id, env: Envelope, m: Place, max: nat)
    requires id !in rows && env.created > m.created
    ensures Debt(rows[id := Fresh(env)], m, max) <= Debt(rows, m, max)
  {
    var next := rows[id := Fresh(env)];
    assert Ahead(next, m) == Ahead(rows, m);
    TotalShrinks(rows, Ahead(rows, m), next, Ahead(next, m), {}, max);
  }

  function Elements(ids: seq<Id>): set<Id> {
    set id | id in ids
  }

  /** A pull spends one attempt of each row it returns. */
  lemma PullNarrows(rows: Rows, target: Agent, now: Time, opts: PullOptions, max: nat, lease: real, draw: Token)
    ensures Narrows(rows, Pulled(rows, target, now, opts, max, lease, draw),
                    Elements(Chosen(Sweep(rows, now, max), target, now, opts, max)), max)
  {
    var swept := Sweep(rows, now, max);
    var ids := Chosen(swept, target, now, opts, max);
    ChosenAreReady(swept, target, now, opts, max);
    ClaimEffect(swept, ids, PullUntil(now, opts, lease), draw);
    SweepNarrows(rows, now, max);
    NarrowsTwice(rows, swept, Pulled(rows, target, now, opts, max, lease, draw), Elements(ids), max);
  }

  lemma NarrowsTwice(a: Rows, b: Rows, c: Rows, hit: set<Id>, max: nat)
    requires Narrows(a, b, {}, max) && Narrows(b, c, hit, max)
    requires forall id :: id in b ==> b[id].attempts == a[id].attempts
    ensures Narrows(a, c, hit, max)
  {
  }

  lemma SweepNarrows(rows: Rows, now: Time, max: nat)
    ensures Narrows(rows, Sweep(rows, now, max), {}, max)
    ensures forall id :: id in Sweep(rows, now, max) ==> Sweep(rows, now, max)[id].attempts == rows[id].attempts
  {
    forall id | id in rows
      ensures var t := Tidy(rows[id], now, max);
              t.env == rows[id].env && (Live(t) ==> Live(rows[id])) && t.attempts == rows[id].attempts
    {
      TidyNarrows(rows[id], now, max);
    }
    hide Tidy, Live, Purgeable;
  }

  lemma TidyNarrows(r: Row, now: Time, max: nat)
    ensures var t := Tidy(r, now, max);
            t.env == r.env && (Live(t) ==> Live(r)) && t.attempts == r.attempts
  {
  }

  /** The message was ready for an unfiltered pull of its inbox and is still queued afterwards. */
  ghost predicate PassedOver(l: Ledger, e: Event, c: Limits, m: Place) {
    e.Poll? && e.target == m.target && e.opts.matchRoot == ""
    && Stands(Step(l, e, c).rows, m) && Step(l, e, c).rows[m.id].status == Queued
  }

  lemma PassedOverWasReady(rows: Rows, m: Place, now: Time, opts: PullOptions, c: Limits, draw: Token)
    requires var next := Pulled(rows, m.target, now, opts, c.max, c.lease, draw);
             opts.matchRoot == "" && Stands(next, m) && next[m.id].status == Queued
    ensures var swept := Sweep(rows, now, c.max);
            && m.id in ReadyIds(swept, m.target, now, c.max, None) && Stands(swept, m)
            && m.id !in Chosen(swept, m.target, now, opts, c.max)
  {
    hide Claim, Chosen, Sweep;
    var swept := Sweep(rows, now, c.max);
    ClaimEffect(swept, Chosen(swept, m.target, now, opts, c.max), PullUntil(now, opts, c.lease), draw);
    QueuedIsReady(rows, now, c.max, m.id);
  }

  /** A list that leaves out a member of a set is shorter than the set. */
  lemma ShortList(rows: Rows, ids: seq<Id>, ready: set<Id>, out: Id)
    requires Ordered(rows, ids) && out in ready && out !in ids
    requires forall id :: id in ids ==> id in ready
    ensures |ids| < |ready|
  {
    CountDistinct(rows, ids);
    SubsetSize(Elements(ids), ready - {out});
  }

  lemma {:induction false} CountDistinct(rows: Rows, ids: seq<Id>)
    requires Ordered(rows, ids)
    ensures |Elements(ids)| == |ids|
  {
    if ids == [] {
      assert Elements(ids) == {};
    } else {
      var last := |ids| - 1;
      CountDistinct(rows, ids[..last]);
      assert ids == ids[..last] + [ids[last]];
      assert Elements(ids) == Elements(ids[..last]) + {ids[last]};
      assert ids[last] !in ids[..last];
    }
  }

  lemma {:induction false} SubsetSize(a: set<Id>, b: set<Id>)
    requires a <= b
    ensures |a| <= |b|
    decreases a
  {
    if a != {} {
      var id :| id in a;
      SubsetSize(a - {id}, b - {id});
    }
  }

  /** A pull that passes a ready message over returns a full batch, all of it ordered before the message. */
  lemma PassedOverByAFullBatch(l: Ledger, e: Event, c: Limits, m: Place)
    requires PassedOver(l, e, c, m)
    ensures var swept := Sweep(l.rows, e.at, c.max);
            var ids := Chosen(swept, m.target, e.at, e.opts, c.max);
            && m.id in swept && |ids| == Wanted(e.opts.limit)
            && forall i :: 0 <= i < |ids| ==> Before(swept, ids[i], m.id)
  {
    var swept := Sweep(l.rows, e.at, c.max);
    PollIsPull(l, e, c);
    PassedOverWasReady(l.rows, m, e.at, e.opts, c, l.draw);
    PullTakesTheOldest(swept, m.target, e.at, e.opts, c.max);
    ShortList(swept, Chosen(swept, m.target, e.at, e.opts, c.max), ReadyIds(swept, m.target, e.at, c.max, None), m.id);
  }

  /** The rows of a full batch of elders, claimed, are still ahead. */
  lemma EldersStayAhead(rows: Rows, m: Place, now: Time, opts: PullOptions, c: Limits, draw: Token)
    requires var swept := Sweep(rows, now, c.max);
             var ids := Chosen(swept, m.target, now, opts, c.max);
             Stands(swept, m) && forall i :: 0 <= i < |ids| ==> Before(swept, ids[i], m.id)
    ensures var ids := Chosen(Sweep(rows, now, c.max), m.target, now, opts, c.max);
            Elements(ids) <= Ahead(Pulled(rows, m.target, now, opts, c.max, c.lease, draw), m)
  {
    var swept := Sweep(rows, now, c.max);
    var ids := Chosen(swept, m.target, now, opts, c.max);
    ChosenAreReady(swept, m.target, now, opts, c.max);
    ClaimEffect(swept, ids, PullUntil(now, opts, c.lease), draw);
  }

  /** A pull lowers what is ahead by its limit when it passes the message over, and never raises it. */
  lemma PollStep(l: Ledger, e: Event, c: Limits, m: Place)
    requires e.Poll?
    ensures Debt(Step(l, e, c).rows, m, c.max) <= Debt(l.rows, m, c.max)
    ensures PassedOver(l, e, c, m) ==>
              Debt(Step(l, e, c).rows, m, c.max) + Wanted(e.opts.limit) <= Debt(l.rows, m, c.max)
  {
    var swept := Sweep(l.rows, e.at, c.max);
    var next := Pulled(l.rows, e.target, e.at, e.opts, c.max, c.lease, l.draw);
    var ids := Chosen(swept, e.target, e.at, e.opts, c.max);
    PollIsPull(l, e, c);
    PullNarrows(l.rows, e.target, e.at, e.opts, c.max, c.lease, l.draw);
    if PassedOver(l, e, c, m) {
      PassedOverByAFullBatch(l, e, c, m);
      PassedOverWasReady(l.rows, m, e.at, e.opts, c, l.draw);
      EldersStayAhead(l.rows, m, e.at, e.opts, c, l.draw);
      PullTakesTheOldest(swept, m.target, e.at, e.opts, c.max);
      CountDistinct(swept, ids);
      NarrowsDebt(l.rows, next, Elements(ids), m, c.max);
    } else {
      NarrowsDebt(l.rows, next, {}, m, c.max);
    }
  }

  /** The limits of all pulls in a run that passed the message over, added up. */
  ghost function PassedOverTotal(l: Ledger, events: seq<Event>, c: Limits, m: Place): nat
    decreases |events|
  {
    if events == [] then 0 else
      (if PassedOver(l, events[0], c, m) then Wanted(events[0].opts.limit) else 0)
      + PassedOverTotal(Step(l, events[0], c), events[1..], c, m)
  }

  /**
   * No starvation: without operator requeues and with new messages strictly later, the pulls that
   * pass a message over can ask for no more messages altogether than the attempts its elders had
   * left.
   */
  lemma {:induction false} NoStarvation(l: Ledger, events: seq<Event>, c: Limits, m: Place)
    requires Inv(l, c) && RunsFrom(l, events, c)
    requires forall i :: 0 <= i < |events| ==> Orderly(events[i], m)
    ensures PassedOverTotal(l, events, c, m) + Debt(Run(l, events, c).rows, m, c.max) <= Debt(l.rows, m, c.max)
    decreases |events|
  {
    if events != [] {
      var e := events[0];
      StepKeeps(l, e, c);
      NoStarvation(Step(l, e, c), events[1..], c, m);
      if e.Poll? {
        PollStep(l, e, c, m);
      } else {
        QuietStep(l, e, c, m);
      }
    }
  }

  // -- delivery ----------------------------------------------------------

  /** An event that leaves a waiting message in the queue, unless it claims it. */
  predicate LeavesWaiting(e: Event, m: Place, expires: Time) {
    && Orderly(e, m)
    && (e.Withdraw? ==> e.id != m.id)
    && (e.Clean? || e.Poll? ==> e.at <= expires)
  }

  predicate Unfiltered(e: Event, m: Place) {
    e.Poll? && e.target == m.target && e.opts.matchRoot == ""
  }

  /** The limits of the unfiltered pulls of the message's inbox, added up. */
  function Asked(events: seq<Event>, m: Place): nat {
    if events == [] then 0 else AskedBy(events[0], m) + Asked(events[1..], m)
  }

  function AskedBy(e: Event, m: Place): nat {
    if Unfiltered(e, m) then Wanted(e.opts.limit) else 0
  }

  /** Waiting in the queue, with nothing but what the given history says. */
  predicate Waits(l: Ledger, m: Place, expires: Time, h: seq<Entry>) {
    && Stands(l.rows, m) && l.rows[m.id].status == Queued && l.rows[m.id].env.expires == expires
    && m.id in l.hist && l.hist[m.id] == h
  }

  /** Claimed: leased, with one delivery added to its history. */
  predicate JustDelivered(l: Ledger, m: Place, h: seq<Entry>) {
    && Stands(l.rows, m) && l.rows[m.id].status == Leased
    && m.id in l.hist && |l.hist[m.id]| == |h| + 1 && h <= l.hist[m.id] && l.hist[m.id][|h|].Delivered?
  }

  lemma SweepLeavesWaiting(l: Ledger, now: Time, c: Limits, m: Place, expires: Time, h: seq<Entry>)
    requires Waits(l, m, expires, h) && now <= expires && l.rows[m.id].attempts < c.max
    ensures Waits(Swept(l, now, c.max), m, expires, h)
    ensures Swept(l, now, c.max).rows[m.id] == l.rows[m.id]
  {
    assert SweepNews(l.rows[m.id], now, c.max) == [];
  }

  lemma {:induction false} ClaimsDeliverOrLeave(l: Ledger, ids: seq<Id>, until: Time, now: Time, m: Place,
                                                expires: Time, h: seq<Entry>)
    requires Waits(l, m, expires, h)
    requires forall i :: 0 <= i < |ids| ==> ids[i] in l.rows
    requires forall i, j :: 0 <= i < j < |ids| ==> ids[i] != ids[j]
    ensures var next := Claimed(l, ids, until, now);
            if m.id in ids then JustDelivered(next, m, h) else Waits(next, m, expires, h)
  {
    if ids != [] {
      var last := |ids| - 1;
      ClaimsDeliverOrLeave(l, ids[..last], until, now, m, expires, h);
      assert ids == ids[..last] + [ids[last]];
    }
  }

  /** One step: the message goes on waiting, or a pull delivers it. */
  lemma StepDeliversOrLeaves(l: Ledger, e: Event, c: Limits, m: Place, expires: Time, h: seq<Entry>)
    requires Inv(l, c) && Admissible(l, e) && Waits(l, m, expires, h) && LeavesWaiting(e, m, expires)
    ensures var next := Step(l, e, c);
            Waits(next, m, expires, h) || (e.Poll? && JustDelivered(next, m, h))
  {
    assert l.rows[m.id].attempts < c.max;
    if e.Clean? {
      SweepLeavesWaiting(l, e.at, c, m, expires, h);
    } else if e.Poll? {
      var s := Swept(l, e.at, c.max);
      var ids := Chosen(s.rows, e.target, e.at, e.opts, c.max);
      SweepLeavesWaiting(l, e.at, c, m, expires, h);
      ChosenAreReady(s.rows, e.target, e.at, e.opts, c.max);
      ClaimsDeliverOrLeave(s, ids, PullUntil(e.at, e.opts, c.lease), e.at, m, expires, h);
    } else {
      SingleLeavesWaiting(l, e, c, m, expires, h);
    }
  }

  lemma SingleLeavesWaiting(l: Ledger, e: Event, c: Limits, m: Place, expires: Time, h: seq<Entry>)
    requires l.rows.Keys <= l.hist.Keys && Admissible(l, e) && Waits(l, m, expires, h) && LeavesWaiting(e, m, expires)
    requires !e.Clean? && !e.Poll?
    ensures Waits(Step(l, e, c), m, expires, h)
  {
    hide Known, AckRow, Cancellable, Requeueable;
  }

  /**
   * Bounded delivery: a message that waits, and that nobody cancels and no sweep or pull comes too late
   * for, is delivered as soon as the unfiltered pulls of its inbox have asked for more messages than its
   * elders had attempts left. `k` events are enough.
   */
  lemma {:induction false} DeliveredInTime(l: Ledger, events: seq<Event>, c: Limits, m: Place, expires: Time,
                                           h: seq<Entry>)
    returns (k: nat)
    requires Inv(l, c) && RunsFrom(l, events, c) && Waits(l, m, expires, h)
    requires forall i :: 0 <= i < |events| ==> LeavesWaiting(events[i], m, expires)
    requires Asked(events, m) > Debt(l.rows, m, c.max)
    ensures 0 < k <= |events| && events[k - 1].Poll? && JustDelivered(Run(l, events[..k], c), m, h)
    decreases |events|
  {
    hide Inv, Step, Waits, JustDelivered, Debt, LeavesWaiting, Admissible, AskedBy;
    var e, next := events[0], Step(l, events[0], c);
    StepDeliversOrLeaves(l, e, c, m, expires, h);
    if Waits(next, m, expires, h) {
      DebtFalls(l, e, c, m, expires, h);
      StepKeeps(l, e, c);
      var rest := DeliveredInTime(next, events[1..], c, m, expires, h);
      k := 1 + rest;
      assert events[..k][0] == e && events[..k][1..] == events[1..][..k - 1];
    } else {
      k := 1;
      assert events[..1] == [e] && [e][1..] == [];
    }
  }

  /** A pull that leaves the message waiting has taken as many attempts of its elders as it asked for. */
  lemma DebtFalls(l: Ledger, e: Event, c: Limits, m: Place, expires: Time, h: seq<Entry>)
    requires Inv(l, c) && Admissible(l, e) && LeavesWaiting(e, m, expires) && Waits(Step(l, e, c), m, expires, h)
    ensures Debt(Step(l, e, c).rows, m, c.max) + AskedBy(e, m) <= Debt(l.rows, m, c.max)
  {
    if e.Poll? {
      PollStep(l, e, c, m);
    } else {
      QuietStep(l, e, c, m);
    }
  }
}
