/** The ledger invariant holds in every run, and what follows from it. */
module Safety {
  import opened Messages
  import opened Statements
  import opened Pulling
  import opened History
  import opened Runs

  // -- single-row writes -------------------------------------------------

  /** One entry the life cycle allows, written with the row it leaves, keeps the invariant. */
  lemma LogKeeps(l: Ledger, id: Id, r: Row, e: Entry, c: Limits)
    requires Inv(l, c) && id in l.rows && r.env == l.rows[id].env
    requires Enabled(Replay(l.hist[id], c.max), e, c.max)
    requires Fits(Some(r), After(Replay(l.hist[id], c.max), e, c.max))
    requires r.status == Queued ==> r.attempts < c.max
    requires e.Delivered? ==> e.token == l.draw
    ensures Inv(Log(l, id, r, e).(draw := l.draw + if e.Delivered? then 1 else 0), c)
  {
    hide Stories, FreshTokens, UniqueKeys, Legal, Replay, Enabled, After, Fits;
    StoredIsKnown(l, id, c.max);
    LogKeepsStories(l, id, r, e, c.max);
    LogKeepsTokens(l, id, r, e);
    SameEnvelopesUnique(l.rows, l.rows[id := r]);
    assert Log(l, id, r, e).hist.Keys == l.hist.Keys;
  }

  lemma AllAreKnown(l: Ledger, c: Limits)
    requires Inv(l, c)
    ensures l.rows.Keys <= l.hist.Keys
  {
  }

  lemma StoredIsKnown(l: Ledger, id: Id, max: nat)
    requires Stories(l.rows, l.hist, max) && id in l.rows
    ensures id in l.hist && Legal(l.hist[id], max)
  {
    assert Faithful(Lookup(l.rows, id), l.hist[id], max);
  }

  lemma LogKeepsStories(l: Ledger, id: Id, r: Row, e: Entry, max: nat)
    requires Stories(l.rows, l.hist, max) && id in l.rows
    requires Enabled(Replay(l.hist[id], max), e, max)
    requires Fits(Some(r), After(Replay(l.hist[id], max), e, max))
    ensures Stories(Log(l, id, r, e).rows, Log(l, id, r, e).hist, max)
  {
    var next := Log(l, id, r, e);
    Append(l.hist[id], e, max);
    forall other | other in next.hist ensures Faithful(Lookup(next.rows, other), next.hist[other], max) {
      assert Faithful(Lookup(l.rows, other), l.hist[other], max);
    }
  }

  lemma SameEnvelopesUnique(rows: Rows, next: Rows)
    requires UniqueKeys(rows) && next.Keys <= rows.Keys
    requires forall id :: id in next ==> next[id].env == rows[id].env
    ensures UniqueKeys(next)
  {
    assert forall id, origin, key :: Holds(next, id, origin, key) ==> Holds(rows, id, origin, key);
  }

  lemma LogKeepsTokens(l: Ledger, id: Id, r: Row, e: Entry)
    requires FreshTokens(l.hist, l.draw) && id in l.hist
    requires e.Delivered? ==> e.token == l.draw
    ensures FreshTokens(Log(l, id, r, e).hist, l.draw + if e.Delivered? then 1 else 0)
  {
    var next := Log(l, id, r, e);
    forall token: Token, a: Id, i: nat | IssuedAt(next.hist, token, a, i)
      ensures IssuedAt(l.hist, token, a, i) || (a == id && i == |l.hist[id]| && e.Delivered? && token == l.draw)
    {
    }
  }

  lemma SendKeeps(l: Ledger, id: Id, env: Envelope, c: Limits)
    requires Inv(l, c) && id !in l.hist && !Known(l.rows, env.origin, env.key)
    ensures Inv(Log(l, id, Fresh(env), Created).(created := l.created + 1), c)
  {
    var next := Log(l, id, Fresh(env), Created).(created := l.created + 1);
    assert next.hist.Keys == l.hist.Keys + {id};
    assert |next.hist.Keys| == |l.hist.Keys| + 1;
    SendKeepsStories(l, id, env, c.max);
    SendKeepsTokens(l, id, env);
    SendKeepsKeys(l.rows, id, env);
  }

  lemma SendKeepsStories(l: Ledger, id: Id, env: Envelope, max: nat)
    requires Stories(l.rows, l.hist, max) && id !in l.hist
    ensures Stories(Log(l, id, Fresh(env), Created).rows, Log(l, id, Fresh(env), Created).hist, max)
  {
    var next := Log(l, id, Fresh(env), Created);
    Append([], Created, max);
    assert [] + [Created] == [Created];
    forall other | other in next.hist ensures Faithful(Lookup(next.rows, other), next.hist[other], max) {
      if other == id {
        assert next.hist[id] == [Created];
      } else {
        assert Faithful(Lookup(l.rows, other), l.hist[other], max);
      }
    }
  }

  lemma SendKeepsTokens(l: Ledger, id: Id, env: Envelope)
    requires FreshTokens(l.hist, l.draw) && id !in l.hist
    ensures FreshTokens(Log(l, id, Fresh(env), Created).hist, l.draw)
  {
    var next := Log(l, id, Fresh(env), Created);
    assert next.hist[id] == [Created];
    assert forall token: Token, a: Id, i: nat :: IssuedAt(next.hist, token, a, i) ==> IssuedAt(l.hist, token, a, i);
  }

  lemma SendKeepsKeys(rows: Rows, id: Id, env: Envelope)
    requires UniqueKeys(rows) && !Known(rows, env.origin, env.key)
    ensures UniqueKeys(rows[id := Fresh(env)])
  {
    var next := rows[id := Fresh(env)];
    assert forall other, origin, key :: Holds(next, other, origin, key) && other != id ==>
      Holds(rows, other, origin, key);
    assert forall other :: !Holds(rows, other, env.origin, env.key);
  }

  // -- sweeps ------------------------------------------------------------

  lemma AppendIf(h: seq<Entry>, news: seq<Entry>, max: nat)
    requires Legal(h, max) && |news| <= 1
    requires news != [] ==> Enabled(Replay(h, max), news[0], max)
    ensures Legal(h + news, max)
    ensures Replay(h + news, max) == if news == [] then Replay(h, max) else After(Replay(h, max), news[0], max)
  {
    if news == [] {
      assert h + news == h;
    } else {
      assert news == [news[0]];
      Append(h, news[0], max);
    }
  }

  lemma ExpireIsFaithful(r: Row, h: seq<Entry>, now: Time, max: nat)
    requires Faithful(Some(r), h, max)
    ensures Faithful(Some(ExpireRow(r, now)), h + ExpireNews(r, now), max)
  {
    AppendIf(h, ExpireNews(r, now), max);
  }

  lemma ReclaimIsFaithful(r: Row, h: seq<Entry>, now: Time, max: nat)
    requires Faithful(Some(r), h, max)
    ensures Faithful(Some(ReclaimRow(r, now)), h + ReclaimNews(r, now), max)
  {
    AppendIf(h, ReclaimNews(r, now), max);
  }

  lemma ExhaustIsFaithful(r: Row, h: seq<Entry>, now: Time, max: nat)
    requires Faithful(Some(r), h, max)
    ensures Faithful(Some(ExhaustRow(r, now, max)), h + ExhaustNews(r, max), max)
  {
    AppendIf(h, ExhaustNews(r, max), max);
  }

  lemma PurgeIsFaithful(r: Row, h: seq<Entry>, cutoff: Time, max: nat)
    requires Faithful(Some(r), h, max)
    ensures Faithful(if Purgeable(r, cutoff) then None else Some(r), h + PurgeNews(r, cutoff), max)
  {
    AppendIf(h, PurgeNews(r, cutoff), max);
  }

  /** Every rule of a sweep that fires on a row is a step its life cycle allows. */
  lemma SweepIsFaithful(r: Row, h: seq<Entry>, now: Time, max: nat)
    requires Faithful(Some(r), h, max)
    ensures var purged := Purgeable(Tidy(r, now, max), now - RETENTION_SECONDS);
            Faithful(if purged then None else Some(Tidy(r, now, max)), h + SweepNews(r, now, max), max)
  {
    var cutoff := now - RETENTION_SECONDS;
    var r1 := ExpireRow(r, now);
    var r2 := ReclaimRow(r1, now);
    var h1 := h + ExpireNews(r, now);
    var h2 := h1 + ReclaimNews(r1, now);
    var h3 := h2 + ExhaustNews(r2, max);
    ExpireIsFaithful(r, h, now, max);
    ReclaimIsFaithful(r1, h1, now, max);
    ExhaustIsFaithful(r2, h2, now, max);
    PurgeIsFaithful(Tidy(r, now, max), h3, cutoff, max);
    assert h + SweepNews(r, now, max) == h3 + PurgeNews(Tidy(r, now, max), cutoff);
  }

  lemma SweepKeepsStories(l: Ledger, now: Time, max: nat)
    requires Stories(l.rows, l.hist, max)
    ensures Stories(Swept(l, now, max).rows, Swept(l, now, max).hist, max)
  {
    var next := Swept(l, now, max);
    forall id | id in next.hist ensures Faithful(Lookup(next.rows, id), next.hist[id], max) {
      assert Faithful(Lookup(l.rows, id), l.hist[id], max);
      if id in l.rows {
        SweepIsFaithful(l.rows[id], l.hist[id], now, max);
      }
    }
  }

  lemma SweepKeepsTokens(l: Ledger, now: Time, max: nat)
    requires FreshTokens(l.hist, l.draw)
    ensures FreshTokens(Swept(l, now, max).hist, l.draw)
  {
    var next := Swept(l, now, max);
    forall token: Token, a: Id, i: nat | IssuedAt(next.hist, token, a, i) ensures IssuedAt(l.hist, token, a, i) {
      if a in l.rows {
        var news := SweepNews(l.rows[a], now, max);
        assert forall k :: 0 <= k < |news| ==> !news[k].Delivered?;
        assert next.hist[a] == l.hist[a] + news;
      }
    }
  }

  lemma SweepKeepsKeys(rows: Rows, now: Time, max: nat)
    requires UniqueKeys(rows)
    ensures UniqueKeys(Sweep(rows, now, max)) && Budgeted(Sweep(rows, now, max), max)
  {
    SameEnvelopesUnique(rows, Sweep(rows, now, max));
  }

  lemma SweepKeeps(l: Ledger, now: Time, c: Limits)
    requires Inv(l, c)
    ensures Inv(Swept(l, now, c.max), c)
  {
    SweepKeepsStories(l, now, c.max);
    SweepKeepsTokens(l, now, c.max);
    SweepKeepsKeys(l.rows, now, c.max);
    assert Swept(l, now, c.max).hist.Keys == l.hist.Keys;
  }

  // -- claims ------------------------------------------------------------

  lemma ClaimKeeps(l: Ledger, id: Id, until: Time, now: Time, c: Limits)
    requires Inv(l, c) && id in l.rows && l.rows[id].status == Queued
    ensures Inv(Log(l, id, ClaimRow(l.rows[id], until, l.draw), Delivered(l.draw, until, now)).(draw := l.draw + 1), c)
  {
    assert Faithful(Lookup(l.rows, id), l.hist[id], c.max);
    LogKeeps(l, id, ClaimRow(l.rows[id], until, l.draw), Delivered(l.draw, until, now), c);
  }

  lemma {:induction false} ClaimsKeep(l: Ledger, ids: seq<Id>, until: Time, now: Time, c: Limits)
    requires Inv(l, c)
    requires forall i :: 0 <= i < |ids| ==> ids[i] in l.rows && l.rows[ids[i]].status == Queued
    requires forall i, j :: 0 <= i < j < |ids| ==> ids[i] != ids[j]
    ensures Inv(Claimed(l, ids, until, now), c)
  {
    hide Inv;
    if ids != [] {
      var last := |ids| - 1;
      var front, id := ids[..last], ids[last];
      ClaimsKeep(l, front, until, now, c);
      var before := Claimed(l, front, until, now);
      assert id in before.rows && before.rows[id].status == Queued by {
        ClaimEffect(l.rows, front, until, l.draw);
        assert id !in front;
      }
      ClaimKeeps(before, id, until, now, c);
    }
  }

  lemma PollKeeps(l: Ledger, target: Agent, now: Time, opts: PullOptions, c: Limits)
    requires Inv(l, c)
    ensures Inv(Step(l, Poll(target, now, opts), c), c)
  {
    hide Inv, Chosen, Sweep, Claim;
    var s := Swept(l, now, c.max);
    SweepKeeps(l, now, c);
    ChosenAreReady(s.rows, target, now, opts, c.max);
    var ids, until := Chosen(s.rows, target, now, opts, c.max), PullUntil(now, opts, c.lease);
    ClaimsKeep(s, ids, until, now, c);
    DrawnKeeps(Claimed(s, ids, until, now), Drawn(l.draw, |ids|, opts.limit), c);
  }

  /** Tokens drawn and not issued do no harm. */
  lemma DrawnKeeps(l: Ledger, draw: Token, c: Limits)
    requires Inv(l, c) && l.draw <= draw
    ensures Inv(l.(draw := draw), c)
  {
    hide Stories, UniqueKeys, Budgeted;
  }

  // -- every step, every run ---------------------------------------------

  lemma SettleKeeps(l: Ledger, e: Event, c: Limits)
    requires Inv(l, c) && e.Settle? && AckError(l.rows, e.id, e.agent, e.outcome, e.at, e.credential).None?
    ensures Inv(Step(l, e, c), c)
  {
    assert Faithful(Lookup(l.rows, e.id), l.hist[e.id], c.max);
    hide Inv, Legal, Replay, Coalesce, First300;
    LogKeeps(l, e.id, AckRow(l.rows[e.id], e.outcome, e.error, e.at, c.max), Acked(e.credential, e.outcome, e.at), c);
  }

  lemma ExtendKeeps(l: Ledger, e: Event, c: Limits)
    requires Inv(l, c) && e.Extend? && CanRenew(l.rows, e.id, e.agent, e.at, e.token)
    ensures Inv(Step(l, e, c), c)
  {
    var until := RenewUntil(e.at, e.seconds, c.lease);
    assert Faithful(Lookup(l.rows, e.id), l.hist[e.id], c.max);
    LogKeeps(l, e.id, l.rows[e.id].(leaseUntil := Some(until)), Renewed(e.token, until, e.at), c);
  }

  lemma OperatorKeeps(l: Ledger, e: Event, c: Limits)
    requires Inv(l, c) && (e.Revive? || e.Withdraw?) && e.id in l.rows
    requires if e.Revive? then Requeueable(l.rows[e.id]) else Cancellable(l.rows[e.id])
    ensures Inv(Step(l, e, c), c)
  {
    assert Faithful(Lookup(l.rows, e.id), l.hist[e.id], c.max);
    if e.Revive? {
      LogKeeps(l, e.id, RequeueRow(l.rows[e.id]), Requeued, c);
    } else {
      LogKeeps(l, e.id, CancelRow(l.rows[e.id], e.at), Cancelled, c);
    }
  }

  lemma StepKeeps(l: Ledger, e: Event, c: Limits)
    requires Inv(l, c) && Admissible(l, e)
    ensures Inv(Step(l, e, c), c)
  {
    hide Inv, AckError, CanRenew, Requeueable, Cancellable, Known;
    match e
    case Send(id, env) =>
      if !Known(l.rows, env.origin, env.key) { SendKeeps(l, id, env, c); }
    case Clean(now) => SweepKeeps(l, now, c);
    case Poll(target, now, opts) => PollKeeps(l, target, now, opts, c);
    case Settle(id, agent, outcome, _, now, credential) =>
      if AckError(l.rows, id, agent, outcome, now, credential).None? { SettleKeeps(l, e, c); }
    case Extend(id, agent, token, now, _) =>
      if CanRenew(l.rows, id, agent, now, token) { ExtendKeeps(l, e, c); }
    case Revive(id) =>
      if id in l.rows && Requeueable(l.rows[id]) { OperatorKeeps(l, e, c); }
    case Withdraw(id, _) =>
      if id in l.rows && Cancellable(l.rows[id]) { OperatorKeeps(l, e, c); }
    case Flag(id, now) => FlagKeeps(l, id, now, c);
  }

  lemma FlagKeeps(l: Ledger, id: Id, now: Time, c: Limits)
    requires Inv(l, c)
    ensures Inv(Step(l, Flag(id, now), c), c)
  {
    hide Stories, FreshTokens, UniqueKeys;
    var next := Step(l, Flag(id, now), c);
    FlagKeepsStories(l, id, now, c);
    SameEnvelopesUnique(l.rows, next.rows);
  }

  lemma FlagKeepsStories(l: Ledger, id: Id, now: Time, c: Limits)
    requires Stories(l.rows, l.hist, c.max)
    ensures Stories(Step(l, Flag(id, now), c).rows, Step(l, Flag(id, now), c).hist, c.max)
  {
    hide Legal, Replay;
    var next := Step(l, Flag(id, now), c);
    forall other | other in l.hist ensures Faithful(Lookup(next.rows, other), next.hist[other], c.max) {
      assert Faithful(Lookup(l.rows, other), l.hist[other], c.max);
    }
  }

  lemma {:induction false} RunKeeps(l: Ledger, events: seq<Event>, c: Limits)
    requires Inv(l, c) && RunsFrom(l, events, c)
    ensures Inv(Run(l, events, c), c)
    decreases |events|
  {
    if events != [] {
      StepKeeps(l, events[0], c);
      RunKeeps(Step(l, events[0], c), events[1..], c);
    }
  }
}
