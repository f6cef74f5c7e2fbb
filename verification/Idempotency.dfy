/** A send is remembered: envelopes never change, and no row is purged within 30 days of its creation. */
module Idempotency {
  import opened Messages
  import opened Statements
  import opened Pulling
  import opened Runs
  import opened Safety

  /** The clock reading an event carries, if the operation reads the clock. */
  function When(e: Event): Option<Time> {
    match e
    case Send(_, _) => None
    case Revive(_) => None
    case _ => Some(e.at)
  }

  /** What one step can do to the envelope and the completion time of a stored message. */
  lemma StepOnRow(l: Ledger, e: Event, c: Limits, id: Id)
    requires id in l.rows && Admissible(l, e) && l.rows.Keys <= l.hist.Keys
    ensures var next := Step(l, e, c).rows;
            if id in next then
              next[id].env == l.rows[id].env
              && (next[id].completedAt == l.rows[id].completedAt || next[id].completedAt == When(e))
            else
              (e.Clean? || e.Poll?) && Purgeable(Tidy(l.rows[id], e.at, c.max), e.at - RETENTION_SECONDS)
  {
    if e.Poll? {
      PollOnRow(l, e, c, id);
    } else if e.Clean? {
      TidyOnRow(l.rows[id], e.at, c.max);
    } else {
      hide Sweep, Chosen, Claimed;
    }
  }

  lemma TidyOnRow(r: Row, now: Time, max: nat)
    ensures Tidy(r, now, max).env == r.env
    ensures Tidy(r, now, max).completedAt == r.completedAt || Tidy(r, now, max).completedAt == Some(now)
  {
  }

  lemma PollOnRow(l: Ledger, e: Event, c: Limits, id: Id)
    requires id in l.rows && e.Poll?
    ensures var next := Step(l, e, c).rows;
            if id in next then
              next[id].env == l.rows[id].env
              && (next[id].completedAt == l.rows[id].completedAt || next[id].completedAt == Some(e.at))
            else Purgeable(Tidy(l.rows[id], e.at, c.max), e.at - RETENTION_SECONDS)
  {
    var swept := Sweep(l.rows, e.at, c.max);
    TidyOnRow(l.rows[id], e.at, c.max);
    PollIsPull(l, e, c);
    ChosenAreReady(swept, e.target, e.at, e.opts, c.max);
    hide Step, Tidy, Purgeable, Chosen, Claim;
    ClaimEffect(swept, Chosen(swept, e.target, e.at, e.opts, c.max), PullUntil(e.at, e.opts, c.lease), l.draw);
  }

  /** No message was completed before it was created. */
  predicate Dated(r: Row) {
    r.completedAt.Some? ==> r.completedAt.value >= r.env.created
  }

  predicate Within(e: Event, from: Time, to: Time) {
    When(e).Some? ==> from <= When(e).value <= to
  }

  lemma KeptOneStep(l: Ledger, e: Event, c: Limits, id: Id)
    requires id in l.rows && Admissible(l, e) && l.rows.Keys <= l.hist.Keys
    requires Dated(l.rows[id]) && Within(e, l.rows[id].env.created, l.rows[id].env.created + RETENTION_SECONDS)
    ensures var next := Step(l, e, c).rows;
            id in next && next[id].env == l.rows[id].env && Dated(next[id])
  {
    StepOnRow(l, e, c, id);
  }

  lemma {:induction false} KeptForThirtyDays(l: Ledger, events: seq<Event>, c: Limits, id: Id)
    requires Inv(l, c) && RunsFrom(l, events, c)
    requires id in l.rows && Dated(l.rows[id])
    requires forall i :: 0 <= i < |events| ==>
               Within(events[i], l.rows[id].env.created, l.rows[id].env.created + RETENTION_SECONDS)
    ensures id in Run(l, events, c).rows && Run(l, events, c).rows[id].env == l.rows[id].env
    decreases |events|
  {
    if events != [] {
      var e, next := events[0], Step(l, events[0], c);
      KeptOneStep(l, e, c, id);
      StepKeeps(l, e, c);
      KeptForThirtyDays(next, events[1..], c, id);
    }
  }

  /**
   * Idempotent sends: for 30 days after a message is created, whatever happens in between, its
   * (origin, key) leads to that message alone, and a repeated send changes nothing at all.
   */
  lemma IdempotentSend(l: Ledger, id: Id, env: Envelope, events: seq<Event>, c: Limits, again: Id, repeated: Envelope)
    requires Inv(l, c) && id !in l.hist && !Known(l.rows, env.origin, env.key)
    requires RunsFrom(Step(l, Send(id, env), c), events, c)
    requires forall i :: 0 <= i < |events| ==> Within(events[i], env.created, env.created + RETENTION_SECONDS)
    requires repeated.origin == env.origin && repeated.key == env.key
    ensures var later := Run(Step(l, Send(id, env), c), events, c);
            && (forall other :: Holds(later.rows, other, env.origin, env.key) <==> other == id)
            && Step(later, Send(again, repeated), c) == later
  {
    var sent := Step(l, Send(id, env), c);
    StepKeeps(l, Send(id, env), c);
    KeptForThirtyDays(sent, events, c, id);
    RunKeeps(sent, events, c);
    assert Holds(Run(sent, events, c).rows, id, env.origin, env.key);
  }
}
