/** What expiry means: for delivery, for a requeue, and for how long an expired message can be reported. */
module Expiry {
  import opened Messages
  import opened Statements
  import opened Pulling
  import opened History
  import opened Runs
  import opened Safety

  // -- single rows -------------------------------------------------------

  /** A requeued message is still queued after a sweep exactly if it has not expired. */
  lemma RequeuedStaysQueuedIff(r: Row, now: Time, max: nat)
    requires max >= 1
    ensures Tidy(RequeueRow(r), now, max).status == Queued <==> r.env.expires >= now
    ensures r.env.expires < now ==> Tidy(RequeueRow(r), now, max).status == Status.Expired
  {
  }

  /** The sweep that expires a message leaves a row to report on exactly if its retention has not run out. */
  lemma ExpiredRowIsKeptIff(rows: Rows, id: Id, now: Time, max: nat)
    requires id in rows && Live(rows[id]) && rows[id].env.expires < now
    ensures id in Sweep(rows, now, max) <==>
        Coalesce(rows[id].completedAt, rows[id].env.created) >= now - RETENTION_SECONDS
    ensures id in Sweep(rows, now, max) ==> Sweep(rows, now, max)[id].status == Status.Expired
  {
  }

  /** A request that lives as long as the retention period is never reported as expired. */
  lemma LongestRequestVanishes(rows: Rows, id: Id, now: Time, max: nat)
    requires id in rows && Live(rows[id]) && rows[id].completedAt.None?
    requires rows[id].env.expires == rows[id].env.created + RETENTION_SECONDS
    ensures id in Sweep(rows, now, max) <==> rows[id].env.expires >= now
  {
  }

  // -- whole runs --------------------------------------------------------

  /** The envelopes of all messages a run has ever stored, as they were sent. */
  ghost function Sent(l: Ledger, events: seq<Event>, c: Limits, sent: map<Id, Envelope>): map<Id, Envelope>
    decreases |events|
  {
    if events == [] then sent else Sent(Step(l, events[0], c), events[1..], c, WithSent(l, events[0], sent))
  }

  ghost function WithSent(l: Ledger, e: Event, sent: map<Id, Envelope>): map<Id, Envelope> {
    if e.Send? && !Known(l.rows, e.env.origin, e.env.key) then sent[e.id := e.env] else sent
  }

  /** Every message has the envelope it was sent with, and no history holds a delivery after that expires. */
  ghost predicate OnTime(rows: Rows, hist: map<Id, seq<Entry>>, sent: map<Id, Envelope>) {
    && sent.Keys == hist.Keys
    && (forall id :: id in rows ==> id in sent && rows[id].env == sent[id])
    && (forall id, k :: id in hist && 0 <= k < |hist[id]| && hist[id][k].Delivered? ==>
          hist[id][k].at <= sent[id].expires)
  }

  lemma {:induction false} ClaimsOnTime(l: Ledger, ids: seq<Id>, until: Time, now: Time, sent: map<Id, Envelope>)
    requires OnTime(l.rows, l.hist, sent)
    requires forall i :: 0 <= i < |ids| ==> ids[i] in l.rows && l.rows[ids[i]].env.expires >= now
    ensures OnTime(Claimed(l, ids, until, now).rows, Claimed(l, ids, until, now).hist, sent)
    ensures forall id :: id in l.rows ==> Claimed(l, ids, until, now).rows[id].env == l.rows[id].env
  {
    hide OnTime;
    if ids != [] {
      var last := ids[|ids| - 1];
      ClaimsOnTime(l, ids[..|ids| - 1], until, now, sent);
      ClaimOnTime(Claimed(l, ids[..|ids| - 1], until, now), last, until, now, sent);
    }
  }

  lemma ClaimOnTime(l: Ledger, id: Id, until: Time, now: Time, sent: map<Id, Envelope>)
    requires OnTime(l.rows, l.hist, sent) && id in l.rows && l.rows[id].env.expires >= now
    ensures var next := Log(l, id, ClaimRow(l.rows[id], until, l.draw), Delivered(l.draw, until, now));
            OnTime(next.rows, next.hist, sent)
  {
  }

  lemma SweepOnTime(l: Ledger, now: Time, max: nat, sent: map<Id, Envelope>)
    requires OnTime(l.rows, l.hist, sent)
    ensures OnTime(Swept(l, now, max).rows, Swept(l, now, max).hist, sent)
  {
    forall id | id in l.rows ensures Tidy(l.rows[id], now, max).env == l.rows[id].env {
    }
    forall id, k | id in l.rows && 0 <= k < |SweepNews(l.rows[id], now, max)|
      ensures !SweepNews(l.rows[id], now, max)[k].Delivered?
    {
    }
    hide Tidy, SweepNews, Purgeable;
  }

  lemma StepOnTime(l: Ledger, e: Event, c: Limits, sent: map<Id, Envelope>)
    requires OnTime(l.rows, l.hist, sent) && l.rows.Keys <= l.hist.Keys && Admissible(l, e)
    ensures OnTime(Step(l, e, c).rows, Step(l, e, c).hist, WithSent(l, e, sent))
  {
    hide OnTime, AckError, Known, CanRenew, WithSent;
    if e.Poll? {
      var s := Swept(l, e.at, c.max);
      var ids := Chosen(s.rows, e.target, e.at, e.opts, c.max);
      SweepOnTime(l, e.at, c.max, sent);
      ChosenAreReady(s.rows, e.target, e.at, e.opts, c.max);
      ClaimsOnTime(s, ids, PullUntil(e.at, e.opts, c.lease), e.at, sent);
      NothingSent(l, e, sent);
    } else if e.Clean? {
      SweepOnTime(l, e.at, c.max, sent);
      NothingSent(l, e, sent);
    } else {
      SingleOnTime(l, e, c, sent);
    }
  }

  lemma NothingSent(l: Ledger, e: Event, sent: map<Id, Envelope>)
    requires !e.Send?
    ensures WithSent(l, e, sent) == sent
  {
  }

  lemma LogOnTime(l: Ledger, id: Id, r: Row, e: Entry, sent: map<Id, Envelope>)
    requires OnTime(l.rows, l.hist, sent) && id in l.rows && id in l.hist && r.env == l.rows[id].env && !e.Delivered?
    ensures OnTime(Log(l, id, r, e).rows, Log(l, id, r, e).hist, sent)
  {
  }

  lemma SingleOnTime(l: Ledger, e: Event, c: Limits, sent: map<Id, Envelope>)
    requires OnTime(l.rows, l.hist, sent) && l.rows.Keys <= l.hist.Keys && Admissible(l, e)
    requires !e.Poll? && !e.Clean?
    ensures OnTime(Step(l, e, c).rows, Step(l, e, c).hist, WithSent(l, e, sent))
  {
    hide OnTime, Known;
    match e
    case Send(id, env) => SendOnTime(l, id, env, c, sent);
    case Settle(id, _, outcome, error, now, credential) =>
      if Step(l, e, c) != l {
        LogOnTime(l, id, AckRow(l.rows[id], outcome, error, now, c.max), Acked(credential, outcome, now), sent);
      }
    case Extend(id, _, token, now, seconds) =>
      if Step(l, e, c) != l {
        var until := RenewUntil(now, seconds, c.lease);
        LogOnTime(l, id, l.rows[id].(leaseUntil := Some(until)), Renewed(token, until, now), sent);
      }
    case Revive(id) => if Step(l, e, c) != l { LogOnTime(l, id, RequeueRow(l.rows[id]), Requeued, sent); }
    case Withdraw(id, now) => if Step(l, e, c) != l { LogOnTime(l, id, CancelRow(l.rows[id], now), Cancelled, sent); }
    case Flag(id, now) =>
      if Step(l, e, c) != l { MarkOnTime(l, id, l.rows[id].(notifiedAt := Some(now)), sent); }
  }

  lemma MarkOnTime(l: Ledger, id: Id, r: Row, sent: map<Id, Envelope>)
    requires OnTime(l.rows, l.hist, sent) && id in l.rows && r.env == l.rows[id].env
    ensures OnTime(l.rows[id := r], l.hist, sent)
  {
  }

  lemma SendOnTime(l: Ledger, id: Id, env: Envelope, c: Limits, sent: map<Id, Envelope>)
    requires OnTime(l.rows, l.hist, sent) && l.rows.Keys <= l.hist.Keys && id !in l.hist
    ensures var e := Send(id, env);
            OnTime(Step(l, e, c).rows, Step(l, e, c).hist, WithSent(l, e, sent))
  {
    hide Known;
  }

  lemma {:induction false} RunOnTime(l: Ledger, events: seq<Event>, c: Limits, sent: map<Id, Envelope>)
    requires Inv(l, c) && OnTime(l.rows, l.hist, sent) && RunsFrom(l, events, c)
    ensures OnTime(Run(l, events, c).rows, Run(l, events, c).hist, Sent(l, events, c, sent))
    decreases |events|
  {
    if events != [] {
      StepOnTime(l, events[0], c, sent);
      StepKeeps(l, events[0], c);
      hide Inv, OnTime, Step, WithSent;
      RunOnTime(Step(l, events[0], c), events[1..], c, WithSent(l, events[0], sent));
    }
  }
}
