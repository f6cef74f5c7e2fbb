/** The message store: one table, a presence map, queue counters, and the source of lease tokens. */
module Store {
  import opened Messages
  import opened Statements
  import opened Pulling
  import opened Inbox
  import opened Runs
  import opened Safety

  datatype Counters = Counters(created: nat, duplicate: nat, pulls: nat, acksCompleted: nat, acksRetry: nat)

  /** Every operation is a step of the ledger the store carries along as ghost state. */
  class MessageStore {
    const maxAttempts: nat
    const leaseSeconds: real
    var rows: Rows
    var lastPullAt: map<Agent, Time>
    var counters: Counters
    var draw: Token
    ghost var ledger: Ledger
    /** How many messages earlier processes had created. */
    ghost const inherited: nat

    ghost function Lim(): Limits {
      Limits(maxAttempts, leaseSeconds)
    }

    ghost predicate Valid()
      reads this
    {
      ledger.rows == rows && ledger.draw == draw && Inv(ledger, Lim()) && ledger.created == inherited + counters.created
    }

    /** Opens a database that earlier processes left in the state of `past`, and brings it up to date. */
    constructor (table: Rows, ghost past: Ledger, source: Token, maxAttempts: int, leaseSeconds: real, now: Time)
      requires past.rows == table && past.draw == source
      requires Inv(past, Limits(if maxAttempts < 1 then 1 else maxAttempts, Max(15.0, leaseSeconds)))
      ensures Valid() && ledger == Step(past, Clean(now), Lim()) && inherited == past.created
      ensures this.maxAttempts == (if maxAttempts < 1 then 1 else maxAttempts)
      ensures this.leaseSeconds == Max(15.0, leaseSeconds)
      ensures rows == Sweep(table, now, this.maxAttempts)
      ensures lastPullAt == map[] && counters == Counters(0, 0, 0, 0, 0)
    {
      this.maxAttempts := if maxAttempts < 1 then 1 else maxAttempts;
      this.leaseSeconds := Max(15.0, leaseSeconds);
      rows, lastPullAt, counters, draw := table, map[], Counters(0, 0, 0, 0, 0), source;
      ledger, inherited := past, past.created;
      new;
      Cleanup(now);
    }

    method Cleanup(now: Time)
      requires Valid()
      modifies this`rows, this`ledger
      ensures Valid() && ledger == Step(old(ledger), Clean(now), Lim())
      ensures rows == Sweep(old(rows), now, maxAttempts) && SweptTable(old(rows), rows, now, maxAttempts)
    {
      SweepDecides(rows, now, maxAttempts);
      StepKeeps(ledger, Clean(now), Lim());
      Housekeep(now);
      ledger := Step(ledger, Clean(now), Lim());
    }

    /** One statement per rule: expiry, lease recovery, exhausted attempts, retention. */
    method Housekeep(now: Time)
      modifies this`rows
      ensures rows == Sweep(old(rows), now, maxAttempts)
    {
      SweepIsRowwise(rows, now, maxAttempts);
      rows := Expire(rows, now);
      rows := Reclaim(rows, now);
      rows := Exhaust(rows, now, maxAttempts);
      rows := Purge(rows, now - RETENTION_SECONDS);
    }

    method Create(id: Id, env: Envelope) returns (stored: Id, created: bool)
      requires Valid() && id !in ledger.hist
      modifies this`rows, this`counters, this`ledger
      ensures Valid() && ledger == Step(old(ledger), Send(id, env), Lim())
      ensures created <==> forall other :: other in old(rows) ==>
                !(old(rows)[other].env.origin == env.origin && old(rows)[other].env.key == env.key)
      ensures created ==> stored == id && rows == old(rows)[id := Row(env, Queued, 0, None, None, None, None, None)]
      ensures created ==> counters == old(counters).(created := old(counters).created + 1)
      ensures !created ==>
                && rows == old(rows) && stored in rows
                && rows[stored].env.origin == env.origin && rows[stored].env.key == env.key
      ensures !created ==> counters == old(counters).(duplicate := old(counters).duplicate + 1)
    {
      hide Inv;
      SendIsOneRow(ledger, id, env, Lim());
      StepKeeps(ledger, Send(id, env), Lim());
      hide Step, Known;
      ledger := Step(ledger, Send(id, env), Lim());
      if existing :| existing in rows && Holds(rows, existing, env.origin, env.key) {
        counters := counters.(duplicate := counters.duplicate + 1);
        return existing, false;
      }
      rows := rows[id := Fresh(env)];
      counters := counters.(created := counters.created + 1);
      return id, true;
    }

    method Pull(target: Agent, now: Time, opts: PullOptions) returns (out: seq<Delivery>)
      requires Valid()
      modifies this
      ensures Valid() && ledger == Step(old(ledger), Poll(target, now, opts), Lim())
      ensures rows == Pulled(old(rows), target, now, opts, maxAttempts, leaseSeconds, old(draw))
      ensures out == Records(rows, Chosen(Sweep(old(rows), now, maxAttempts), target, now, opts, maxAttempts))
      ensures TakesOldest(Sweep(old(rows), now, maxAttempts), out, target, opts.matchRoot,
                          if opts.limit == 0 then 8 else if opts.limit < 1 then 1 else opts.limit)
      ensures LeasesOut(Sweep(old(rows), now, maxAttempts), rows, out,
                        now + (if opts.leaseSeconds.Some? then opts.leaseSeconds.value else leaseSeconds), old(draw))
      ensures lastPullAt == old(lastPullAt)[target := now]
      ensures counters == old(counters).(pulls := old(counters).pulls + 1)
    {
      hide TakesOldest, LeasesOut, Inv;
      PullMissesNothing(rows, target, now, opts, maxAttempts, leaseSeconds, draw);
      PollKeeps(ledger, target, now, opts, Lim());
      PollIsPull(ledger, Poll(target, now, opts), Lim());
      ledger := Step(ledger, Poll(target, now, opts), Lim());
      lastPullAt := lastPullAt[target := now];
      counters := counters.(pulls := counters.pulls + 1);
      out := SweepAndClaim(target, now, opts);
    }

    /** Housekeeping and up to `limit` claims, as one transaction. */
    method SweepAndClaim(target: Agent, now: Time, opts: PullOptions) returns (out: seq<Delivery>)
      modifies this`rows, this`draw
      ensures rows == Pulled(old(rows), target, now, opts, maxAttempts, leaseSeconds, old(draw))
      ensures out == Records(rows, Chosen(Sweep(old(rows), now, maxAttempts), target, now, opts, maxAttempts))
      ensures draw == Drawn(old(draw), |out|, opts.limit)
    {
      var until := PullUntil(now, opts, leaseSeconds);
      Housekeep(now);
      ghost var order := PlanClaims(rows, target, now, opts, maxAttempts);
      out := ClaimReady(target, now, WantedRoot(opts.matchRoot), until, Wanted(opts.limit), order);
    }

    /** Runs the claim statement until it finds nothing or `wanted` rows are claimed. */
    method ClaimReady(target: Agent, now: Time, root: Option<string>, until: Time, wanted: nat, ghost order: seq<Id>)
      returns (out: seq<Delivery>)
      requires ListsReady(rows, order, target, now, maxAttempts, root)
      modifies this`rows, this`draw
      ensures |out| == if |order| <= wanted then |order| else wanted
      ensures rows == Claim(old(rows), order[..|out|], until, old(draw))
      ensures out == Records(rows, order[..|out|])
      ensures draw == old(draw) + |out| + if |out| < wanted then 1 else 0
    {
      ghost var table, start := rows, draw;
      out := [];
      var i := 0;
      while i < wanted
        invariant |out| == i <= wanted && i <= |order| && draw == start + i
        invariant rows == Claim(table, order[..i], until, start)
        invariant out == Records(rows, order[..i])
      {
        ReadyAfterClaims(table, order, target, now, maxAttempts, root, i, until, start);
        var next := ClaimNext(target, now, root, until);
        if next.None? {
          break;
        }
        NextClaim(table, order, target, now, maxAttempts, root, i, until, start, next.value);
        ClaimOneMore(table, order, i, until, start);
        KeepRecords(table, order, i, until, start);
        out := out + [Delivery(next.value, rows[next.value])];
        i := i + 1;
      }
    }

    /** The claim statement: lease the first ready row. A token is drawn whether or not there is one. */
    method ClaimNext(target: Agent, now: Time, root: Option<string>, until: Time) returns (next: Option<Id>)
      modifies this`rows, this`draw
      ensures draw == old(draw) + 1
      ensures next.None? ==> rows == old(rows) && ReadyIds(rows, target, now, maxAttempts, root) == {}
      ensures next.Some? ==> IsFirst(old(rows), ReadyIds(old(rows), target, now, maxAttempts, root), next.value)
                             && rows == old(rows)[next.value := ClaimRow(old(rows)[next.value], until, old(draw))]
    {
      var ready := ReadyIds(rows, target, now, maxAttempts, root);
      draw := draw + 1;
      if ready == {} {
        return None;
      }
      FirstExists(rows, ready);
      var first :| first in ready && IsFirst(rows, ready, first);
      rows := rows[first := ClaimRow(rows[first], until, draw - 1)];
      return Some(first);
    }

    method Ack(id: Id, agent: Agent, outcome: Outcome, error: string, now: Time, token: Option<Token>)
      returns (refused: Option<Error>)
      requires Valid()
      modifies this`rows, this`counters, this`ledger
      ensures Valid() && ledger == Step(old(ledger), Settle(id, agent, outcome, error, now, token), Lim())
      ensures refused == AckError(old(rows), id, agent, outcome, now, token)
      ensures refused.None? <==> Acknowledges(old(rows), id, agent, outcome, now, token)
      ensures refused.Some? ==> rows == old(rows)
      ensures refused.None? ==>
                Settles(old(rows), rows, id, outcome, error, now, maxAttempts)
      ensures counters == if refused.Some? then old(counters)
                          else if outcome == Done then old(counters).(acksCompleted := old(counters).acksCompleted + 1)
                          else old(counters).(acksRetry := old(counters).acksRetry + 1)
    {
      hide Inv;
      AckVerdict(rows, id, agent, outcome, now, token);
      StepKeeps(ledger, Settle(id, agent, outcome, error, now, token), Lim());
      ledger := Step(ledger, Settle(id, agent, outcome, error, now, token), Lim());
      if id !in rows || rows[id].env.target != agent {
        return Some(Forbidden);
      }
      var m := rows[id];
      if token.Some? {
        if m.status != Leased || m.token != token || m.leaseUntil.None? || m.leaseUntil.value < now {
          return Some(LeaseMismatch);
        }
      } else if m.status != Leased {
        return Some(BadRequest);
      }
      if outcome == Done {
        rows := rows[id := CompleteRow(m, now)];
        counters := counters.(acksCompleted := counters.acksCompleted + 1);
        return None;
      }
      if outcome != Retry {
        return Some(BadRequest);
      }
      counters := counters.(acksRetry := counters.acksRetry + 1);
      if m.attempts >= maxAttempts {
        rows := rows[id := RetryFailRow(m, now, First300(if error == "" then "retry exhausted" else error))];
      } else {
        rows := rows[id := RetryQueueRow(m, if error == "" then None else Some(First300(error)))];
      }
      return None;
    }

    method RenewLease(id: Id, agent: Agent, token: Option<Token>, now: Time, seconds: real)
      returns (until: Option<Time>)
      requires Valid()
      modifies this`rows, this`ledger
      ensures Valid()
      ensures ledger == if token.None? then old(ledger)
          else Step(old(ledger), Extend(id, agent, token.value, now, seconds), Lim())
      ensures until.Some? <==>
                token.Some? && id in old(rows) && old(rows)[id].env.target == agent && InTime(old(rows)[id], now, token)
      ensures until.None? ==> rows == old(rows)
      ensures until.Some? ==>
                && Extends(now, if seconds == 0.0 then leaseSeconds else seconds, until.value)
                && rows == old(rows)[id := old(rows)[id].(leaseUntil := until)]
    {
      if token.None? || !CanRenew(rows, id, agent, now, token.value) {
        return None;
      }
      StepKeeps(ledger, Extend(id, agent, token.value, now, seconds), Lim());
      ledger := Step(ledger, Extend(id, agent, token.value, now, seconds), Lim());
      until := Some(RenewUntil(now, seconds, leaseSeconds));
      rows := rows[id := rows[id].(leaseUntil := until)];
    }

    method Requeue(id: Id) returns (changed: bool)
      requires Valid()
      modifies this`rows, this`ledger
      ensures Valid() && ledger == Step(old(ledger), Revive(id), Lim())
      ensures changed <==> id in old(rows) && old(rows)[id].status != Queued
      ensures rows == if changed then old(rows)[id := rows[id]] else old(rows)
      ensures changed ==> rows[id] == old(rows)[id].(status := Queued, attempts := 0, leaseUntil := None, token := None,
                                                     notifiedAt := None, lastError := rows[id].lastError)
      ensures changed ==> rows[id].lastError == if old(rows)[id].lastError.Some? then old(rows)[id].lastError
                                                else Some("requeued by operator")
    {
      StepKeeps(ledger, Revive(id), Lim());
      ledger := Step(ledger, Revive(id), Lim());
      changed := id in rows && Requeueable(rows[id]);
      if changed {
        rows := rows[id := RequeueRow(rows[id])];
      }
    }

    method Cancel(id: Id, now: Time) returns (changed: bool)
      requires Valid()
      modifies this`rows, this`ledger
      ensures Valid() && ledger == Step(old(ledger), Withdraw(id, now), Lim())
      ensures changed <==> id in old(rows) && old(rows)[id].status != Completed
      ensures rows == if changed then old(rows)[id := rows[id]] else old(rows)
      ensures changed ==> rows[id] == old(rows)[id].(status := Completed, leaseUntil := None, token := None,
                                                     completedAt := Some(now), lastError := rows[id].lastError)
      ensures changed ==> rows[id].lastError == if old(rows)[id].lastError.Some? then old(rows)[id].lastError
                                                else Some("cancelled by operator")
    {
      StepKeeps(ledger, Withdraw(id, now), Lim());
      ledger := Step(ledger, Withdraw(id, now), Lim());
      changed := id in rows && Cancellable(rows[id]);
      if changed {
        rows := rows[id := CancelRow(rows[id], now)];
      }
    }

    method MarkNotified(id: Id, now: Time) returns (changed: bool)
      requires Valid()
      modifies this`rows, this`ledger
      ensures Valid() && ledger == Step(old(ledger), Flag(id, now), Lim())
      ensures changed <==> id in old(rows) && old(rows)[id].notifiedAt.None?
      ensures rows == if changed then old(rows)[id := old(rows)[id].(notifiedAt := Some(now))] else old(rows)
    {
      StepKeeps(ledger, Flag(id, now), Lim());
      ledger := Step(ledger, Flag(id, now), Lim());
      changed := id in rows && rows[id].notifiedAt.None?;
      if changed {
        rows := rows[id := rows[id].(notifiedAt := Some(now))];
      }
    }
  }

  /** A send whose key is known is no step; any other stores one fresh row. */
  lemma SendIsOneRow(l: Ledger, id: Id, env: Envelope, c: Limits)
    ensures Known(l.rows, env.origin, env.key) ==> Step(l, Send(id, env), c) == l
    ensures !Known(l.rows, env.origin, env.key) ==>
              var next := Step(l, Send(id, env), c);
              next.rows == l.rows[id := Fresh(env)] && next.draw == l.draw && next.created == l.created + 1
    ensures Known(l.rows, env.origin, env.key) <==> exists other :: Holds(l.rows, other, env.origin, env.key)
  {
  }
}
