/** A message from its send to its completion: it is delivered as it was sent, and its delivery can be acknowledged. */
module Journey {
  import opened Messages
  import opened Statements
  import opened Pulling
  import opened Inbox
  import opened History
  import opened Runs
  import opened Safety
  import opened Upkeep
  import opened Renewal
  import opened Broker

  // -- delivered as it was sent ------------------------------------------

  /** Whenever a message is stored, it has the given envelope. */
  predicate StoredAs(l: Ledger, id: Id, env: Envelope) {
    id in l.hist && (id in l.rows ==> l.rows[id].env == env)
  }

  lemma StepKeepsEnvelope(l: Ledger, e: Event, c: Limits, id: Id, env: Envelope)
    requires Inv(l, c) && Admissible(l, e) && StoredAs(l, id, env)
    ensures StoredAs(Step(l, e, c), id, env)
  {
    LedgerGrows(l, e, c);
    hide Step;
    if id in Step(l, e, c).rows {
      StepStores(l, e, c, id);
    }
  }

  lemma {:induction false} RunKeepsEnvelope(l: Ledger, events: seq<Event>, c: Limits, id: Id, env: Envelope)
    requires Inv(l, c) && RunsFrom(l, events, c) && StoredAs(l, id, env)
    ensures Inv(Run(l, events, c), c) && StoredAs(Run(l, events, c), id, env)
    decreases |events|
  {
    hide Inv, Step, StoredAs, Admissible;
    if events != [] {
      StepKeeps(l, events[0], c);
      StepKeepsEnvelope(l, events[0], c, id, env);
      RunKeepsEnvelope(Step(l, events[0], c), events[1..], c, id, env);
    }
  }

  /**
   * Whatever happens in between, for however long: a pull that hands the message out hands out the
   * envelope that was stored when it was sent.
   */
  lemma DeliveredAsStored(l: Ledger, id: Id, env: Envelope, events: seq<Event>, c: Limits, agent: Agent,
                          opts: PullOptions, at: Time, next: Ledger, messages: seq<Delivery>, i: nat)
    requires Inv(l, c) && id !in l.hist && !Known(l.rows, env.origin, env.key)
    requires RunsFrom(Step(l, Send(id, env), c), events, c)
    requires ClaimedBy(Run(Step(l, Send(id, env), c), events, c), next, agent, opts, at, c, messages)
    requires i < |messages| && messages[i].id == id
    ensures messages[i].row.env == env && env.target == agent
  {
    hide Inv, Step, ClaimedBy, TakesOldest, Sweep, Run;
    var sent := Step(l, Send(id, env), c);
    StepKeeps(l, Send(id, env), c);
    SendIs(l, id, env, c);
    RunKeepsEnvelope(sent, events, c, id, env);
    var before := Run(sent, events, c);
    ClaimIsOldest(before, next, agent, opts, at, c, messages);
    SweptIsStored(before, at, c, id);
    HandedOutIsSwept(Sweep(before.rows, at, c.max), next.rows, messages, agent, opts, at, c, before.draw, i);
  }

  lemma SweptIsStored(l: Ledger, at: Time, c: Limits, id: Id)
    ensures id in Sweep(l.rows, at, c.max) ==> id in l.rows && Sweep(l.rows, at, c.max)[id].env == l.rows[id].env
  {
  }

  lemma HandedOutIsSwept(swept: Rows, after: Rows, out: seq<Delivery>, agent: Agent, opts: PullOptions, at: Time,
                         c: Limits, draw: Token, i: nat)
    requires i < |out|
    requires TakesOldest(swept, out, agent, opts.matchRoot,
                         if opts.limit == 0 then 8 else if opts.limit < 1 then 1 else opts.limit)
    requires LeasesOut(swept, after, out,
                       at + (if opts.leaseSeconds.Some? then opts.leaseSeconds.value else c.lease), draw)
    ensures out[i].id in swept && out[i].row.env == swept[out[i].id].env && swept[out[i].id].env.target == agent
  {
  }

  /**
   * Nothing is lost on the way: body, context, and for a request its conversation, reach the target as the
   * sender gave them.
   */
  lemma DeliveredAsSent(config: Config, l: Ledger, sender: Agent, req: SendRequest, freshRoot: string, now: Time,
                        id: Id, events: seq<Event>, c: Limits, agent: Agent, opts: PullOptions, at: Time, next: Ledger,
                        messages: seq<Delivery>, i: nat)
    requires Inv(l, c) && id !in l.hist && SendStatus(config, l.rows, sender, req) == 200
    requires var env := SentEnvelope(config, l.rows, sender, req, freshRoot, now);
             && !Known(l.rows, env.origin, env.key)
             && RunsFrom(Step(l, Send(id, env), c), events, c)
             && ClaimedBy(Run(Step(l, Send(id, env), c), events, c), next, agent, opts, at, c, messages)
    requires i < |messages| && messages[i].id == id
    ensures req.target == agent && AsSent(messages[i].row.env, l.rows, sender, req, freshRoot, now)
  {
    hide Inv, Step, ClaimedBy, Run, SendStatus, SentEnvelope, RunsFrom;
    AcceptedSend(config, l.rows, sender, req, freshRoot, now);
    DeliveredAsStored(l, id, SentEnvelope(config, l.rows, sender, req, freshRoot, now), events, c, agent, opts, at,
                      next, messages, i);
  }

  // -- acknowledged when it is done --------------------------------------

  /**
   * The token that came with a delivery is accepted: as long as nobody who may do so acknowledges,
   * requeues or cancels the message, and sweeps and pulls come no later than its expiry and the deadline set
   * last, below the attempt limit, its worker can complete the message up to that deadline.
   */
  lemma DeliveredTokenIsAccepted(l: Ledger, agent: Agent, opts: PullOptions, at: Time, next: Ledger, c: Limits,
                                 messages: seq<Delivery>, i: nat, events: seq<Event>, done: Time)
    requires Inv(l, c) && ClaimedBy(l, next, agent, opts, at, c, messages) && i < |messages|
    requires var until := at + (if opts.leaseSeconds.Some? then opts.leaseSeconds.value else c.lease);
             var id, row, token := messages[i].id, messages[i].row, l.draw + i;
             && RunsFrom(next, events, c) && (events != [] ==> row.attempts < c.max)
             && Undisturbed(events, id, agent, token, until, row.env.expires, c.lease)
             && done <= LastDeadline(events, id, agent, token, until, c.lease)
    ensures messages[i].row.token == Some(l.draw + i)
    ensures var id, token := messages[i].id, messages[i].row.token;
            var held := Run(next, events, c);
            && AckError(held.rows, id, agent, Done, done, token).None?
            && id in held.rows
            && Step(held, Settle(id, agent, Done, "", done, token), c).rows ==
                 held.rows[id := held.rows[id].(status := Completed, leaseUntil := None, token := None,
                                                completedAt := Some(done), lastError := None)]
  {
    hide ClaimedBy, TakesOldest, Inv, Sweep, Undisturbed;
    var id, token := messages[i].id, l.draw + i;
    var until := at + (if opts.leaseSeconds.Some? then opts.leaseSeconds.value else c.lease);
    ClaimIsOldest(l, next, agent, opts, at, c, messages);
    DeliveryIsHeld(Sweep(l.rows, at, c.max), next.rows, messages, agent, opts, at, c, l.draw, i);
    hide LeasesOut;
    if events != [] {
      ClaimStepKeeps(l, next, agent, opts, at, c, messages);
      RenewingWorkerKeepsClaim(next, events, c, id, token, until);
      RunKeepsTarget(next, events, c, id);
    }
    HolderCompletes(Run(next, events, c), id, agent, token, LastDeadline(events, id, agent, token, until, c.lease),
                    done, c);
  }

  lemma ClaimStepKeeps(l: Ledger, next: Ledger, agent: Agent, opts: PullOptions, at: Time, c: Limits,
                       messages: seq<Delivery>)
    requires Inv(l, c) && ClaimedBy(l, next, agent, opts, at, c, messages)
    ensures Inv(next, c)
  {
    hide Inv, Step;
    StepKeeps(l, Poll(agent, at, opts), c);
  }

  lemma RunKeepsTarget(l: Ledger, events: seq<Event>, c: Limits, id: Id)
    requires Inv(l, c) && RunsFrom(l, events, c) && id in l.rows
    ensures id in Run(l, events, c).rows ==> Run(l, events, c).rows[id].env == l.rows[id].env
  {
    StoredIsKnown(l, id, c.max);
    hide Inv, RunsFrom;
    RunKeepsEnvelope(l, events, c, id, l.rows[id].env);
  }

  lemma DeliveryIsHeld(swept: Rows, after: Rows, out: seq<Delivery>, agent: Agent, opts: PullOptions, at: Time,
                       c: Limits, draw: Token, i: nat)
    requires i < |out|
    requires TakesOldest(swept, out, agent, opts.matchRoot,
                         if opts.limit == 0 then 8 else if opts.limit < 1 then 1 else opts.limit)
    requires LeasesOut(swept, after, out,
                       at + (if opts.leaseSeconds.Some? then opts.leaseSeconds.value else c.lease), draw)
    ensures var id := out[i].id;
            && id in after && out[i].row == after[id] && out[i].row.token == Some(draw + i)
            && HeldBy(after, id, draw + i, at + (if opts.leaseSeconds.Some? then opts.leaseSeconds.value else c.lease))
            && after[id].env.target == agent
  {
  }

  lemma HolderCompletes(l: Ledger, id: Id, agent: Agent, token: Token, until: Time, done: Time, c: Limits)
    requires HeldBy(l.rows, id, token, until) && l.rows[id].env.target == agent && done <= until
    ensures AckError(l.rows, id, agent, Done, done, Some(token)).None?
    ensures Step(l, Settle(id, agent, Done, "", done, Some(token)), c).rows ==
              l.rows[id := l.rows[id].(status := Completed, leaseUntil := None, token := None,
                                       completedAt := Some(done), lastError := None)]
  {
  }
}
