/** A worker that renews its lease in time keeps its claim, and exactly when a live lease survives a sweep. */
module Renewal {
  import opened Messages
  import opened Statements
  import opened Pulling
  import opened History
  import opened Runs
  import opened Safety

  /**
   * A leased row outlives a sweep exactly when its deadline and expiry have not passed and it is
   * below the attempt limit: the last permitted delivery is failed by anybody's sweep.
   */
  lemma LeaseSurvivesSweepIff(r: Row, now: Time, max: nat)
    requires r.status == Leased && r.leaseUntil.Some?
    ensures Tidy(r, now, max).status == Leased <==>
              r.env.expires >= now && r.leaseUntil.value >= now && r.attempts < max
    ensures Tidy(r, now, max).status == Leased ==> Tidy(r, now, max) == r
  {
  }

  /** The worker's claim: leased under its token, until the given deadline. */
  predicate HeldBy(rows: Rows, id: Id, token: Token, until: Time) {
    id in rows && rows[id].status == Leased && rows[id].token == Some(token) && rows[id].leaseUntil == Some(until)
  }

  /** The worker's own renewal; it counts unless it comes after the deadline. */
  predicate Renews(e: Event, id: Id, agent: Agent, token: Token) {
    e.Extend? && e.id == id && e.agent == agent && e.token == token
  }

  function NextDeadline(e: Event, id: Id, agent: Agent, token: Token, until: Time, lease: real): Time {
    if Renews(e, id, agent, token) && e.at <= until then RenewUntil(e.at, e.seconds, lease) else until
  }

  function LastDeadline(events: seq<Event>, id: Id, agent: Agent, token: Token, until: Time, lease: real): Time {
    if events == [] then until else
      LastDeadline(events[1..], id, agent, token, NextDeadline(events[0], id, agent, token, until, lease), lease)
  }

  /** An acknowledgement of a leased message that is refused: of another agent, with a wrong token, or meaningless. */
  predicate Misdirected(e: Event, agent: Agent, token: Token)
    requires e.Settle?
  {
    e.agent != agent || (e.credential.Some? && e.credential.value != token) || e.outcome == Unknown
  }

  /**
   * Nobody who may do so acknowledges, requeues or cancels the message, and every sweep and pull, of
   * whatever inbox, comes before the message expires and no later than the deadline set last.
   */
  predicate Undisturbed(events: seq<Event>, id: Id, agent: Agent, token: Token, until: Time, expires: Time,
                        lease: real) {
    events == [] ||
    var e := events[0];
    && (e.Settle? && e.id == id ==> Misdirected(e, agent, token))
    && (e.Revive? || e.Withdraw? ==> e.id != id)
    && (e.Clean? || e.Poll? ==> e.at <= until && e.at <= expires)
    && Undisturbed(events[1..], id, agent, token, NextDeadline(e, id, agent, token, until, lease), expires, lease)
  }

  lemma StepKeepsClaim(l: Ledger, e: Event, c: Limits, id: Id, token: Token, until: Time)
    requires Inv(l, c) && Admissible(l, e)
    requires HeldBy(l.rows, id, token, until) && l.rows[id].attempts < c.max
    requires Undisturbed([e], id, l.rows[id].env.target, token, until, l.rows[id].env.expires, c.lease)
    ensures var next, agent := Step(l, e, c), l.rows[id].env.target;
            && HeldBy(next.rows, id, token, NextDeadline(e, id, agent, token, until, c.lease))
            && next.rows[id].env == l.rows[id].env && next.rows[id].attempts == l.rows[id].attempts
            && id in l.hist && id in next.hist && OnlyRenewed(l.hist[id], next.hist[id])
  {
    assert l.rows.Keys <= l.hist.Keys;
    if e.Clean? || e.Poll? {
      SweepSparesClaim(l, e, c, id);
    } else {
      OthersSpareClaim(l, e, c, id, token, until);
    }
  }

  /** An operation on one message, or a send, leaves the claim alone or is the worker's own renewal. */
  lemma OthersSpareClaim(l: Ledger, e: Event, c: Limits, id: Id, token: Token, until: Time)
    requires l.rows.Keys <= l.hist.Keys && Admissible(l, e) && !e.Clean? && !e.Poll?
    requires HeldBy(l.rows, id, token, until)
    requires e.Settle? && e.id == id ==> Misdirected(e, l.rows[id].env.target, token)
    requires e.Revive? || e.Withdraw? ==> e.id != id
    ensures var next, agent := Step(l, e, c), l.rows[id].env.target;
            && HeldBy(next.rows, id, token, NextDeadline(e, id, agent, token, until, c.lease))
            && next.rows[id].env == l.rows[id].env && next.rows[id].attempts == l.rows[id].attempts
            && id in next.hist && OnlyRenewed(l.hist[id], next.hist[id])
  {
    hide Known, AckRow, Requeueable, Cancellable, RenewUntil;
    if e.Settle? && e.id == id {
      MisdirectedIsRefused(l.rows, e, id, token, until);
    }
  }

  lemma MisdirectedIsRefused(rows: Rows, e: Event, id: Id, token: Token, until: Time)
    requires HeldBy(rows, id, token, until) && e.Settle? && Misdirected(e, rows[id].env.target, token)
    ensures AckError(rows, id, e.agent, e.outcome, e.at, e.credential).Some?
  {
  }

  /** A sweep or a pull before the deadline does not touch the row or its history. */
  lemma SweepSparesClaim(l: Ledger, e: Event, c: Limits, id: Id)
    requires l.rows.Keys <= l.hist.Keys && (e.Clean? || e.Poll?) && id in l.rows
    requires l.rows[id].status == Leased && l.rows[id].leaseUntil.Some? && l.rows[id].leaseUntil.value >= e.at
    requires l.rows[id].env.expires >= e.at && l.rows[id].attempts < c.max
    ensures var next := Step(l, e, c);
            id in next.rows && next.rows[id] == l.rows[id] && id in next.hist && next.hist[id] == l.hist[id]
  {
    LeaseSurvivesSweepIff(l.rows[id], e.at, c.max);
    var s := Swept(l, e.at, c.max);
    assert SweepNews(l.rows[id], e.at, c.max) == [];
    assert id in s.rows && s.rows[id] == l.rows[id] && s.hist[id] == l.hist[id];
    if e.Poll? {
      ChosenAreReady(s.rows, e.target, e.at, e.opts, c.max);
      var ids := Chosen(s.rows, e.target, e.at, e.opts, c.max);
      assert id !in ids;
      ClaimsSpare(s, ids, PullUntil(e.at, e.opts, c.lease), e.at, id);
    }
  }

  lemma {:induction false} ClaimsSpare(l: Ledger, ids: seq<Id>, until: Time, now: Time, id: Id)
    requires forall i :: 0 <= i < |ids| ==> ids[i] in l.rows
    requires id in l.rows && id in l.hist && id !in ids
    ensures var next := Claimed(l, ids, until, now);
            next.rows[id] == l.rows[id] && id in next.hist && next.hist[id] == l.hist[id]
  {
    if ids != [] {
      ClaimsSpare(l, ids[..|ids| - 1], until, now, id);
    }
  }

  /** The later history adds nothing but renewals. */
  predicate OnlyRenewed(h: seq<Entry>, later: seq<Entry>) {
    h <= later && forall k :: |h| <= k < |later| ==> later[k].Renewed?
  }

  lemma OnlyRenewedTrans(a: seq<Entry>, b: seq<Entry>, c: seq<Entry>)
    requires OnlyRenewed(a, b) && OnlyRenewed(b, c)
    ensures OnlyRenewed(a, c)
  {
    assert forall k :: 0 <= k < |b| ==> c[k] == b[k];
  }

  /**
   * A renewing worker keeps its claim: as long as the sweeps and pulls of everybody come no later than
   * the deadline set last, the message stays leased under the worker's token until that deadline, and
   * nothing but renewals is added to its history, whatever else anybody does.
   */
  lemma {:induction false} RenewingWorkerKeepsClaim(l: Ledger, events: seq<Event>, c: Limits, id: Id, token: Token,
                                                    until: Time)
    requires Inv(l, c) && RunsFrom(l, events, c)
    requires HeldBy(l.rows, id, token, until) && l.rows[id].attempts < c.max
    requires Undisturbed(events, id, l.rows[id].env.target, token, until, l.rows[id].env.expires, c.lease)
    ensures var final := Run(l, events, c);
            && HeldBy(final.rows, id, token, LastDeadline(events, id, l.rows[id].env.target, token, until, c.lease))
            && final.rows[id].attempts == l.rows[id].attempts
            && id in l.hist && id in final.hist && OnlyRenewed(l.hist[id], final.hist[id])
    decreases |events|
  {
    StoredIsKnown(l, id, c.max);
    hide Inv, Step, Admissible;
    if events != [] {
      var e, next := events[0], Step(l, events[0], c);
      var agent := l.rows[id].env.target;
      assert Undisturbed([e], id, agent, token, until, l.rows[id].env.expires, c.lease);
      StepKeepsClaim(l, e, c, id, token, until);
      StepKeeps(l, e, c);
      RenewingWorkerKeepsClaim(next, events[1..], c, id, token, NextDeadline(e, id, agent, token, until, c.lease));
      OnlyRenewedTrans(l.hist[id], next.hist[id], Run(next, events[1..], c).hist[id]);
    }
  }

  // -- the worker's timer ------------------------------------------------

  const RENEW_SECONDS: real := 600.0

  /**
   * Renewals of 600 seconds reach the broker at most `gap` after one another, and nothing else happens
   * later than `gap` after the renewal before it; `last` is when that was.
   */
  predicate Paced(events: seq<Event>, id: Id, agent: Agent, token: Token, last: Time, gap: real, expires: Time) {
    events == [] ||
    var e := events[0];
    && (e.Settle? && e.id == id ==> Misdirected(e, agent, token))
    && (e.Revive? || e.Withdraw? ==> e.id != id)
    && (e.Clean? || e.Poll? ==> e.at <= last + gap && e.at <= expires)
    && (Renews(e, id, agent, token) ==> e.at <= last + gap && e.seconds == RENEW_SECONDS)
    && Paced(events[1..], id, agent, token, if Renews(e, id, agent, token) then e.at else last, gap, expires)
  }

  /**
   * The timer fires every 240 seconds; a renewal may reach the broker up to 360 seconds late. With any
   * gap up to the 600 seconds asked for, a lease that outlasts the first gap is never disturbed.
   */
  lemma {:induction false} LateRenewalsSuffice(events: seq<Event>, id: Id, agent: Agent, token: Token, last: Time,
                                               gap: real,
                                               until: Time, expires: Time, lease: real)
    requires gap <= RENEW_SECONDS && last + gap <= until && Paced(events, id, agent, token, last, gap, expires)
    ensures Undisturbed(events, id, agent, token, until, expires, lease)
  {
    if events != [] {
      var e := events[0];
      var next := NextDeadline(e, id, agent, token, until, lease);
      if Renews(e, id, agent, token) {
        assert next == e.at + RENEW_SECONDS;
      }
      LateRenewalsSuffice(events[1..], id, agent, token, if Renews(e, id, agent, token) then e.at else last, gap,
                          next, expires, lease);
    }
  }
}
