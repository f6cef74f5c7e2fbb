/**
 * What operations on already stored messages can do to a ledger, and the invariants of
 * conversations and failure notices that they keep.
 */
module Upkeep {
  import opened Messages
  import opened Statements
  import opened Pulling
  import opened History
  import opened Runs

  function Requeues(h: seq<Entry>): nat {
    Count(h, IsRequeue)
  }

  predicate RequeuedEver(h: seq<Entry>) {
    Requeues(h) > 0
  }

  // -- two relations -----------------------------------------------------

  /**
   * No message is added and no envelope changes; a failure notice is only ever forgotten by an
   * operator's requeue, and replies are never marked.
   */
  ghost predicate Tended(l: Ledger, next: Ledger) {
    && next.hist.Keys == l.hist.Keys && next.created == l.created
    && (forall id :: id in next.rows ==>
          id in l.rows && id in l.hist && id in next.hist && next.rows[id].env == l.rows[id].env
          && (RequeuedEver(l.hist[id]) ==> RequeuedEver(next.hist[id]))
          && (next.rows[id].notifiedAt.None? ==> l.rows[id].notifiedAt.None? || RequeuedEver(next.hist[id]))
          && (l.rows[id].env.kind == Reply && l.rows[id].notifiedAt.None? ==> next.rows[id].notifiedAt.None?))
  }

  /** Time at which a terminal row's retention starts. */
  function Settled(r: Row): Time {
    Coalesce(r.completedAt, r.env.created)
  }

  /**
   * Pulls and sweeps at times between `from` and `to`: nothing is requeued, marks are untouched, terminal
   * rows do not change, and a row disappears only once its retention has run out.
   */
  ghost predicate Housekept(l: Ledger, next: Ledger, from: Time, to: Time) {
    && next.hist.Keys == l.hist.Keys && next.created == l.created
    && (forall id :: id in next.rows ==>
          id in l.rows && id in l.hist && id in next.hist && next.rows[id].env == l.rows[id].env
          && next.rows[id].notifiedAt == l.rows[id].notifiedAt
          && Requeues(next.hist[id]) == Requeues(l.hist[id])
          && (Terminal(l.rows[id]) ==> next.rows[id] == l.rows[id])
          && (next.rows[id].completedAt == l.rows[id].completedAt
              || (l.rows[id].completedAt.None? && next.rows[id].completedAt.value >= from)))
    && (forall id :: id in l.rows && id !in next.rows ==> Settled(l.rows[id]) < to - RETENTION_SECONDS)
  }

  lemma HousekeptTrans(a: Ledger, b: Ledger, c: Ledger, from: Time, to: Time)
    requires Housekept(a, b, from, to) && Housekept(b, c, from, to) && to - RETENTION_SECONDS <= from
    ensures Housekept(a, c, from, to)
  {
  }

  lemma HousekeptIsTended(l: Ledger, next: Ledger, from: Time, to: Time)
    requires Housekept(l, next, from, to)
    ensures Tended(l, next)
  {
  }

  // -- which steps are which ---------------------------------------------

  lemma {:induction false} AppendRequeues(h: seq<Entry>, news: seq<Entry>)
    ensures Requeues(h + news) == Requeues(h) + Requeues(news)
    decreases |news|
  {
    if news == [] {
      assert h + news == h;
    } else {
      var front := news[..|news| - 1];
      assert (h + news)[..|h + news| - 1] == h + front;
      AppendRequeues(h, front);
    }
  }

  lemma {:induction false} NoRequeues(h: seq<Entry>)
    requires forall k :: 0 <= k < |h| ==> !h[k].Requeued?
    ensures Requeues(h) == 0
    decreases |h|
  {
    if h != [] {
      NoRequeues(h[..|h| - 1]);
    }
  }

  /** One entry more is one requeue more exactly if it is one. */
  lemma AppendOne(h: seq<Entry>, e: Entry)
    ensures Requeues(h + [e]) == Requeues(h) + if e.Requeued? then 1 else 0
  {
    assert (h + [e])[..|h|] == h;
  }

  lemma TidyHousekeeps(r: Row, now: Time, max: nat)
    ensures var t := Tidy(r, now, max);
            && t.env == r.env && t.notifiedAt == r.notifiedAt && (Terminal(r) ==> t == r)
            && (t.completedAt == r.completedAt || (r.completedAt.None? && t.completedAt == Some(now)))
            && (t.completedAt != r.completedAt ==> !Purgeable(t, now - RETENTION_SECONDS))
    ensures Requeues(SweepNews(r, now, max)) == 0
  {
    NoRequeues(SweepNews(r, now, max));
  }

  lemma SweepHousekeeps(l: Ledger, now: Time, from: Time, to: Time, c: Limits)
    requires l.rows.Keys <= l.hist.Keys && from <= now <= to
    ensures Housekept(l, Swept(l, now, c.max), from, to)
  {
    var next := Swept(l, now, c.max);
    forall id | id in l.rows
      ensures id in next.rows ==> Requeues(next.hist[id]) == Requeues(l.hist[id])
      ensures id !in next.rows ==> Settled(l.rows[id]) < to - RETENTION_SECONDS
    {
      TidyHousekeeps(l.rows[id], now, c.max);
      AppendRequeues(l.hist[id], SweepNews(l.rows[id], now, c.max));
    }
    forall id | id in next.rows
      ensures next.rows[id].completedAt == l.rows[id].completedAt
              || (l.rows[id].completedAt.None? && next.rows[id].completedAt.value >= from)
    {
      TidyHousekeeps(l.rows[id], now, c.max);
    }
  }

  lemma {:induction false} ClaimsHousekeep(l: Ledger, ids: seq<Id>, until: Time, now: Time, from: Time, to: Time)
    requires l.rows.Keys <= l.hist.Keys
    requires forall i :: 0 <= i < |ids| ==> ids[i] in l.rows && Live(l.rows[ids[i]])
    requires to - RETENTION_SECONDS <= from
    ensures Housekept(l, Claimed(l, ids, until, now), from, to)
    ensures forall id :: id in l.rows ==> Live(l.rows[id]) ==> Live(Claimed(l, ids, until, now).rows[id])
  {
    if ids != [] {
      var last := |ids| - 1;
      ClaimsHousekeep(l, ids[..last], until, now, from, to);
      var before := Claimed(l, ids[..last], until, now);
      AppendOne(before.hist[ids[last]], Delivered(before.draw, until, now));
      ClaimHousekeeps(before, ids[last], until, now, from, to);
      HousekeptTrans(l, before, Claimed(l, ids, until, now), from, to);
    }
  }

  lemma ClaimHousekeeps(l: Ledger, id: Id, until: Time, now: Time, from: Time, to: Time)
    requires l.rows.Keys <= l.hist.Keys && id in l.rows && Live(l.rows[id])
    ensures Housekept(l,
        Log(l, id, ClaimRow(l.rows[id], until, l.draw), Delivered(l.draw, until, now)).(draw := l.draw + 1), from, to)
  {
    AppendOne(l.hist[id], Delivered(l.draw, until, now));
  }

  /** Every pull and every sweep is housekeeping. */
  lemma PollHousekeeps(l: Ledger, e: Event, from: Time, to: Time, c: Limits)
    requires (e.Poll? || e.Clean?) && l.rows.Keys <= l.hist.Keys
    requires from <= e.at <= to && to - RETENTION_SECONDS <= from
    ensures Housekept(l, Step(l, e, c), from, to)
  {
    SweepHousekeeps(l, e.at, from, to, c);
    if e.Poll? {
      var s := Swept(l, e.at, c.max);
      var ids := Chosen(s.rows, e.target, e.at, e.opts, c.max);
      ChosenAreReady(s.rows, e.target, e.at, e.opts, c.max);
      ClaimsHousekeep(s, ids, PullUntil(e.at, e.opts, c.lease), e.at, from, to);
      HousekeptTrans(l, s, Claimed(s, ids, PullUntil(e.at, e.opts, c.lease), e.at), from, to);
    }
  }

  /** One entry in the history of one message. */
  lemma LogTends(l: Ledger, id: Id, r: Row, e: Entry)
    requires l.rows.Keys <= l.hist.Keys && id in l.rows && r.env == l.rows[id].env
    requires r.notifiedAt == l.rows[id].notifiedAt || (e.Requeued? && r.notifiedAt.None?)
    ensures Tended(l, Log(l, id, r, e))
  {
    hide Requeues;
    AppendOne(l.hist[id], e);
  }

  /** The steps on one stored message: acknowledge, renew, requeue, cancel, and mark a request. */
  lemma SingleTends(l: Ledger, e: Event, c: Limits)
    requires l.rows.Keys <= l.hist.Keys && !e.Send? && !e.Poll? && !e.Clean?
    requires e.Flag? && e.id in l.rows ==> l.rows[e.id].env.kind == Request
    ensures Tended(l, Step(l, e, c))
  {
    if Step(l, e, c) != l {
      var r := Step(l, e, c).rows[e.id];
      match e
      case Settle(id, _, outcome, _, now, credential) => LogTends(l, id, r, Acked(credential, outcome, now));
      case Extend(id, _, token, now, seconds) => LogTends(l, id, r,
        Renewed(token, RenewUntil(now, seconds, c.lease), now));
      case Revive(id) => LogTends(l, id, r, Requeued);
      case Withdraw(id, _) => LogTends(l, id, r, Cancelled);
      case Flag(_, _) =>
    }
  }

  /** They add nothing, and requeue no message but the one that is requeued. */
  lemma SingleRequeues(l: Ledger, e: Event, c: Limits, id: Id)
    requires l.rows.Keys <= l.hist.Keys && !e.Send? && !e.Poll? && !e.Clean?
    requires id in Step(l, e, c).rows
    ensures id in l.rows && id in Step(l, e, c).hist && Step(l, e, c).rows[id].env == l.rows[id].env
    ensures Requeues(Step(l, e, c).hist[id]) == Requeues(l.hist[id]) || (e.Revive? && e.id == id)
  {
    hide Requeues;
    if Step(l, e, c) != l && id == e.id {
      match e
      case Settle(_, _, outcome, _, now, credential) => AppendOne(l.hist[id], Acked(credential, outcome, now));
      case Extend(_, _, token, now, seconds) =>
        AppendOne(l.hist[id], Renewed(token, RenewUntil(now, seconds, c.lease), now));
      case Withdraw(_, _) => AppendOne(l.hist[id], Cancelled);
      case Revive(_) =>
      case Flag(_, _) =>
    }
  }

  // -- any step ----------------------------------------------------------

  /** Messages stay in the ledger for good. */
  lemma LedgerGrows(l: Ledger, e: Event, c: Limits)
    requires Inv(l, c) && Admissible(l, e)
    ensures l.hist.Keys <= Step(l, e, c).hist.Keys
  {
    if e.Poll? {
      ChosenAreReady(Sweep(l.rows, e.at, c.max), e.target, e.at, e.opts, c.max);
      ClaimsGrow(Swept(l, e.at, c.max), Chosen(Sweep(l.rows, e.at, c.max), e.target, e.at, e.opts, c.max),
                 PullUntil(e.at, e.opts, c.lease), e.at);
    }
  }

  lemma {:induction false} ClaimsGrow(l: Ledger, ids: seq<Id>, until: Time, now: Time)
    requires forall i :: 0 <= i < |ids| ==> ids[i] in l.rows
    ensures l.hist.Keys <= Claimed(l, ids, until, now).hist.Keys
  {
    if ids != [] {
      ClaimsGrow(l, ids[..|ids| - 1], until, now);
    }
  }

  /** What a step stores was stored before, with the same envelope, or is the message it sends. */
  lemma StepStores(l: Ledger, e: Event, c: Limits, n: Id)
    requires l.rows.Keys <= l.hist.Keys && n in Step(l, e, c).rows
    ensures (n in l.rows && Step(l, e, c).rows[n].env == l.rows[n].env) || (
              e.Send? && n == e.id && Step(l, e, c).rows == l.rows[n := Fresh(e.env)])
  {
    if e.Poll? || e.Clean? {
      hide Step, RequeuedEver;
      PollHousekeeps(l, e, e.at, e.at, c);
    } else {
      hide Sweep, Chosen, Claimed;
    }
  }

  // -- invariants of what is stored --------------------------------------

  /** Every stored reply answers its parent, which is older, if that is still stored. */
  ghost predicate Threaded(rows: Rows, birth: map<Id, nat>) {
    forall id :: id in rows && rows[id].env.kind == Reply ==>
      && rows[id].env.parent.Some? && id in birth && rows[id].env.parent.value in birth
      && birth[rows[id].env.parent.value] < birth[id]
      && (rows[id].env.parent.value in rows ==> Answers(rows[id].env, rows[rows[id].env.parent.value].env))
  }

  /** What the broker lets in: a reply answers a stored parent. */
  predicate Routed(rows: Rows, env: Envelope) {
    env.kind == Reply ==> env.parent.Some? && env.parent.value in rows && Answers(env, rows[env.parent.value].env)
  }

  /** A message tells the sender of the request `id` that it was not delivered. */
  predicate NoticeAbout(env: Envelope, id: Id, request: Envelope) {
    env.kind == Reply && env.parent == Some(id) && Answers(env, request) && env.key == Key.Undelivered(id)
  }

  /** Replies are never marked as notified, so they never cause notices. */
  ghost predicate RepliesUnmarked(rows: Rows) {
    forall id :: id in rows && rows[id].env.kind == Reply ==> rows[id].notifiedAt.None?
  }

  /** Nobody's message stands where the notice about `id` would: nothing stored has its origin and key. */
  ghost predicate Clear(rows: Rows, id: Id, request: Envelope) {
    !Known(rows, request.target, Key.Undelivered(id))
  }

  /**
   * Unless a client has planted a message with the origin and key of a notice, messages with such a key
   * are replies about messages the store has seen, and the place of the notice is clear for every
   * unmarked request that was never requeued.
   */
  ghost predicate Noticed(rows: Rows, hist: map<Id, seq<Entry>>, planted: set<(Agent, Id)>) {
    && (forall n, origin, id: Id :: Holds(rows, n, origin, Key.Undelivered(id)) && (origin, id) !in planted ==>
          rows[n].env.kind == Reply && id in hist)
    && (forall id :: id in rows && id in hist && rows[id].env.kind == Request && rows[id].notifiedAt.None?
                     && !RequeuedEver(hist[id]) && (rows[id].env.target, id) !in planted ==>
          Clear(rows, id, rows[id].env))
  }

  /** The origin and key of a notice, if a client's message uses them. */
  function Plants(env: Envelope): set<(Agent, Id)> {
    if env.key.Undelivered? then {(env.origin, env.key.id)} else {}
  }

  /** `birth` numbers messages in the order of creation; `planted` is what clients have planted so far. */
  ghost predicate Sound(l: Ledger, birth: map<Id, nat>, planted: set<(Agent, Id)>) {
    && birth.Keys == l.hist.Keys && (forall id :: id in birth ==> birth[id] < l.created)
    && Threaded(l.rows, birth)
    && RepliesUnmarked(l.rows)
    && Noticed(l.rows, l.hist, planted)
  }

  lemma TendedSound(l: Ledger, next: Ledger, birth: map<Id, nat>, planted: set<(Agent, Id)>)
    requires Sound(l, birth, planted) && Tended(l, next)
    ensures Sound(next, birth, planted)
  {
    TendedNoticed(l, next, planted);
    hide Noticed;
  }

  lemma TendedNoticed(l: Ledger, next: Ledger, planted: set<(Agent, Id)>)
    requires Noticed(l.rows, l.hist, planted) && Tended(l, next)
    ensures Noticed(next.rows, next.hist, planted)
  {
    assert forall n, origin, key :: Holds(next.rows, n, origin, key) ==> Holds(l.rows, n, origin, key);
  }

  lemma SendIs(l: Ledger, id: Id, env: Envelope, c: Limits)
    requires id !in l.hist && !Known(l.rows, env.origin, env.key)
    ensures var next := Step(l, Send(id, env), c);
            next.rows == l.rows[id := Fresh(env)] && next.hist == l.hist[id := [Created]] &&
              next.created == l.created + 1
  {
    assert [] + [Created] == [Created];
  }

  lemma SendThreads(rows: Rows, birth: map<Id, nat>, id: Id, env: Envelope, age: nat)
    requires Threaded(rows, birth) && id !in rows && id !in birth &&
        (forall other :: other in birth ==> birth[other] < age)
    requires rows.Keys <= birth.Keys
    requires Routed(rows, env)
    ensures Threaded(rows[id := Fresh(env)], birth[id := age])
  {
  }

  lemma ClientSendNoticed(rows: Rows, hist: map<Id, seq<Entry>>, id: Id, env: Envelope, planted: set<(Agent, Id)>)
    requires Noticed(rows, hist, planted) && id !in hist && rows.Keys <= hist.Keys
    ensures Noticed(rows[id := Fresh(env)], hist[id := [Created]], planted + Plants(env))
  {
    var next := rows[id := Fresh(env)];
    assert forall n, origin, key :: Holds(next, n, origin, key) ==>
        Holds(rows, n, origin, key) || (n == id && origin == env.origin && key == env.key);
  }

  lemma NoticeSendNoticed(rows: Rows, hist: map<Id, seq<Entry>>, n: Id, env: Envelope, id: Id,
                          planted: set<(Agent, Id)>)
    requires Noticed(rows, hist, planted) && n !in hist && rows.Keys <= hist.Keys
    requires id in rows && rows[id].env.kind == Request && rows[id].notifiedAt.Some?
    requires env.kind == Reply && env.key == Key.Undelivered(id)
    ensures Noticed(rows[n := Fresh(env)], hist[n := [Created]], planted)
  {
    var next := rows[n := Fresh(env)];
    assert forall m, origin, key :: Holds(next, m, origin, key) ==>
        Holds(rows, m, origin, key) || (m == n && origin == env.origin && key == env.key);
  }

  /** A message sent by a client: a request, or a reply that answers a stored parent. */
  lemma SendSound(l: Ledger, id: Id, env: Envelope, c: Limits, birth: map<Id, nat>, planted: set<(Agent, Id)>)
    requires l.rows.Keys <= l.hist.Keys && Sound(l, birth, planted) && id !in l.hist
    requires Routed(l.rows, env)
    requires !Known(l.rows, env.origin, env.key)
    ensures Sound(Step(l, Send(id, env), c), birth[id := l.created], planted + Plants(env))
  {
    SendIs(l, id, env, c);
    SendThreads(l.rows, birth, id, env, l.created);
    ClientSendNoticed(l.rows, l.hist, id, env, planted);
    hide Noticed, Plants;
  }

  /** A notice about a marked request that is still stored. */
  lemma NoticeSound(l: Ledger, n: Id, env: Envelope, c: Limits, birth: map<Id, nat>, planted: set<(Agent, Id)>, id: Id)
    requires l.rows.Keys <= l.hist.Keys && Sound(l, birth, planted) && n !in l.hist
    requires id in l.rows && l.rows[id].env.kind == Request && l.rows[id].notifiedAt.Some?
    requires NoticeAbout(env, id, l.rows[id].env) && !Known(l.rows, env.origin, env.key)
    ensures Sound(Step(l, Send(n, env), c), birth[n := l.created], planted)
  {
    SendIs(l, n, env, c);
    SendThreads(l.rows, birth, n, env, l.created);
    NoticeSendNoticed(l.rows, l.hist, n, env, id, planted);
    hide Noticed;
  }

  /**
   * The place of the notice is clear for every unreported request that was never requeued, unless its
   * own target has planted a message there.
   */
  lemma NeverRequeuedIsClear(l: Ledger, birth: map<Id, nat>, planted: set<(Agent, Id)>, id: Id)
    requires Sound(l, birth, planted) && id in l.rows && id in l.hist && Statements.Undelivered(l.rows[id])
    requires !RequeuedEver(l.hist[id]) && (l.rows[id].env.target, id) !in planted
    ensures Clear(l.rows, id, l.rows[id].env)
  {
  }

  // -- one round of failure notices --------------------------------------

  /**
   * What reporting the failure of `id` does to the rest: housekeeping, plus messages never stored
   * before. The reported row itself is only marked.
   */
  ghost predicate Reported(l: Ledger, next: Ledger, id: Id, from: Time, to: Time) {
    && l.hist.Keys <= next.hist.Keys
    && (forall x :: x in next.rows && x in l.rows ==>
          x in l.hist && x in next.hist && next.rows[x].env == l.rows[x].env
          && (RequeuedEver(l.hist[x]) <==> RequeuedEver(next.hist[x]))
          && (x != id ==> next.rows[x].notifiedAt == l.rows[x].notifiedAt)
          && (x != id && Terminal(l.rows[x]) ==> next.rows[x] == l.rows[x])
          && (x == id && Terminal(l.rows[x]) ==> next.rows[x] == l.rows[x].(notifiedAt := next.rows[x].notifiedAt))
          && (next.rows[x].completedAt == l.rows[x].completedAt
              || (l.rows[x].completedAt.None? && next.rows[x].completedAt.value >= from)))
    && (forall x :: x in next.rows && x !in l.rows ==>
          x !in l.hist && next.rows[x].env.key == Key.Undelivered(id) && next.rows[x].notifiedAt.None?)
    && (forall x :: x in l.rows && x !in next.rows ==> Settled(l.rows[x]) < to - RETENTION_SECONDS)
  }

  lemma ReportedThenHousekept(a: Ledger, b: Ledger, c: Ledger, id: Id, from: Time, to: Time)
    requires Reported(a, b, id, from, to) && Housekept(b, c, from, to) && to - RETENTION_SECONDS <= from
    ensures Reported(a, c, id, from, to)
  {
    hide Settled;
    forall x | x in a.rows && x !in c.rows ensures Settled(a.rows[x]) < to - RETENTION_SECONDS {
      if x in b.rows {
        SettledLater(a.rows[x], b.rows[x], from, to);
      }
    }
  }

  /** A completion time that was set in between is too young to be purged for. */
  lemma SettledLater(before: Row, after: Row, from: Time, to: Time)
    requires before.env == after.env && to - RETENTION_SECONDS <= from
    requires after.completedAt == before.completedAt || (before.completedAt.None? && after.completedAt.value >= from)
    requires Settled(after) < to - RETENTION_SECONDS
    ensures Settled(before) < to - RETENTION_SECONDS
  {
  }

  /** Marking a request and sending a message that was never stored before is a report. */
  lemma MarkAndSendReports(l: Ledger, id: Id, n: Id, env: Envelope, now: Time, to: Time, c: Limits)
    requires l.rows.Keys <= l.hist.Keys && id in l.rows && l.rows[id].notifiedAt.None? && n !in l.hist
    requires env.key == Key.Undelivered(id)
    ensures Reported(l, Step(Step(l, Flag(id, now), c), Send(n, env), c), id, now, to)
  {
    hide Step, Known, Reported;
    var marked := Step(l, Flag(id, now), c);
    FlagIs(l, id, now, c);
    MarkReports(l, marked, id, now, to);
    if Known(marked.rows, env.origin, env.key) {
      SendAgain(marked, n, env, c);
    } else {
      SendIs(marked, n, env, c);
      SendReports(l, marked, Step(marked, Send(n, env), c), id, n, env, now, to);
    }
  }

  lemma MarkReports(l: Ledger, marked: Ledger, id: Id, now: Time, to: Time)
    requires l.rows.Keys <= l.hist.Keys && id in l.rows && l.rows[id].notifiedAt.None?
    requires marked == l.(rows := l.rows[id := l.rows[id].(notifiedAt := Some(now))])
    ensures Reported(l, marked, id, now, to)
  {
    hide Requeues, RequeuedEver, Settled;
  }

  /** A message that was never stored before is part of the report if it is the notice. */
  lemma SendReports(l: Ledger, marked: Ledger, sent: Ledger, id: Id, n: Id, env: Envelope, now: Time, to: Time)
    requires Reported(l, marked, id, now, to) && l.rows.Keys <= l.hist.Keys && n !in l.hist && n !in marked.rows
    requires sent.rows == marked.rows[n := Fresh(env)] && sent.hist == marked.hist[n := [Created]]
    requires env.key == Key.Undelivered(id)
    ensures Reported(l, sent, id, now, to)
  {
    hide Requeues, RequeuedEver, Settled;
  }

  /** A stored notice about a request that is too young to be purged before `now` plus retention. */
  predicate SentAs(rows: Rows, n: Id, id: Id, request: Envelope, now: Time) {
    n in rows && NoticeAbout(rows[n].env, id, request) && Settled(rows[n]) >= now && rows[n].env.created >= now
  }

  ghost predicate NoticeSent(rows: Rows, id: Id, request: Envelope, now: Time) {
    exists n :: SentAs(rows, n, id, request, now)
  }

  lemma NoticeSurvivesReport(l: Ledger, next: Ledger, id: Id, request: Envelope, other: Id, now: Time)
    requires NoticeSent(l.rows, id, request, now) && Reported(l, next, other, now, now + RETENTION_SECONDS)
    requires other in l.rows ==> l.rows[other].env.kind == Request
    ensures NoticeSent(next.rows, id, request, now)
  {
    var n :| SentAs(l.rows, n, id, request, now);
    hide Answers;
    assert n in next.rows;
    assert SentAs(next.rows, n, id, request, now);
  }

  lemma NoticeSurvivesHousekeeping(l: Ledger, next: Ledger, id: Id, request: Envelope, now: Time)
    requires NoticeSent(l.rows, id, request, now) && Housekept(l, next, now, now + RETENTION_SECONDS)
    ensures NoticeSent(next.rows, id, request, now)
  {
    var n :| SentAs(l.rows, n, id, request, now);
    hide Answers;
    assert n in next.rows;
    assert SentAs(next.rows, n, id, request, now);
  }

  /** One stored message is the notice about the request, and no other has its origin and key. */
  ghost predicate OneNotice(rows: Rows, id: Id, request: Envelope) {
    exists n :: n in rows && NoticeAbout(rows[n].env, id, request)
                && forall m :: Holds(rows, m, request.target, Key.Undelivered(id)) ==> m == n
  }

  lemma SentIsOne(rows: Rows, id: Id, request: Envelope, now: Time)
    requires UniqueKeys(rows) && NoticeSent(rows, id, request, now)
    ensures OneNotice(rows, id, request)
  {
    var n :| SentAs(rows, n, id, request, now);
    assert Holds(rows, n, request.target, Key.Undelivered(id));
  }

  /** The notice about a failed request is stored exactly if its place is clear. */
  lemma NoticeStoredIff(l: Ledger, id: Id, n: Id, env: Envelope, now: Time, c: Limits)
    requires l.rows.Keys <= l.hist.Keys && n !in l.hist && id in l.rows && Statements.Undelivered(l.rows[id])
    requires NoticeAbout(env, id, l.rows[id].env) && env.created == now
    ensures var sent := Step(Step(l, Flag(id, now), c), Send(n, env), c);
            && (n in sent.rows <==> Clear(l.rows, id, l.rows[id].env))
            && (Clear(l.rows, id, l.rows[id].env) ==> NoticeSent(sent.rows, id, l.rows[id].env, now))
            && (!Clear(l.rows, id, l.rows[id].env) ==> sent.hist.Keys == l.hist.Keys)
  {
    var marked := Step(l, Flag(id, now), c);
    FlagIs(l, id, now, c);
    assert forall m :: Holds(marked.rows, m, env.origin, env.key) <==> Holds(l.rows, m, env.origin, env.key);
    if Clear(l.rows, id, l.rows[id].env) {
      SendIs(marked, n, env, c);
      assert SentAs(marked.rows[n := Fresh(env)], n, id, l.rows[id].env, now);
    } else {
      var m :| Holds(l.rows, m, env.origin, env.key);
      assert Holds(marked.rows, m, env.origin, env.key);
      SendAgain(marked, n, env, c);
    }
  }

  /** A message from b with the key of a notice about a's request to b. */
  const ASKED := Envelope("r", None, "a", "b", Request, "?", "", Read, false, "", "", Text("k"), 0.0, 60.0)
  const PLANTED :=
    Envelope("s", None, "b", "a", Request, "!", "", Read, false, "", "", Key.Undelivered(0), 0.0, 86400.0)
  const NOTICE :=
    Envelope("r", Some(0), "b", "a", Reply, "undelivered", "", Read, false, "", "", Key.Undelivered(0), 100.0, 604900.0)

  /** The request has expired in a store that holds a planted message. */
  ghost function ExpiredBesidePlanted(c: Limits): Ledger {
    Step(Step(Step(Empty, Send(0, ASKED), c), Send(1, PLANTED), c), Clean(100.0), c)
  }

  lemma ExpiredBesidePlantedIs(c: Limits)
    requires c.max >= 1
    ensures var l := ExpiredBesidePlanted(c);
            l.rows == map[0 := Fresh(ASKED).(status := Status.Expired), 1 := Fresh(PLANTED)] && l.hist.Keys == {0, 1}
  {
    hide Tidy, Purgeable, Known, SweepNews, Fresh;
    var both := Step(Step(Empty, Send(0, ASKED), c), Send(1, PLANTED), c);
    BothSent(c);
    AskedExpires(c.max);
    assert Step(both, Clean(100.0), c) == Swept(both, 100.0, c.max);
  }

  lemma BothSent(c: Limits)
    ensures var both := Step(Step(Empty, Send(0, ASKED), c), Send(1, PLANTED), c);
            both.rows == map[0 := Fresh(ASKED), 1 := Fresh(PLANTED)] && both.hist.Keys == {0, 1}
  {
    hide Step, Fresh;
    var asked := Step(Empty, Send(0, ASKED), c);
    SendIs(Empty, 0, ASKED, c);
    assert asked.rows == map[0 := Fresh(ASKED)];
    FreshKeepsEnvelope(ASKED);
    SendIs(asked, 1, PLANTED, c);
  }

  lemma FreshKeepsEnvelope(env: Envelope)
    ensures Fresh(env).env == env
  {
  }

  lemma AskedExpires(max: nat)
    requires max >= 1
    ensures Tidy(Fresh(ASKED), 100.0, max) == Fresh(ASKED).(status := Status.Expired)
    ensures Tidy(Fresh(PLANTED), 100.0, max) == Fresh(PLANTED)
    ensures !Purgeable(Fresh(ASKED).(status := Status.Expired), 100.0 - RETENTION_SECONDS)
    ensures !Purgeable(Fresh(PLANTED), 100.0 - RETENTION_SECONDS)
  {
  }

  /** With a planted message, an expired request is marked as reported and its sender is never told. */
  lemma PlantedKeyKeepsNoticeOut(c: Limits)
    requires c.max >= 1
    ensures var marked := Step(ExpiredBesidePlanted(c), Flag(0, 100.0), c);
            && 2 !in marked.hist && Step(marked, Send(2, NOTICE), c) == marked
            && 0 in marked.rows && marked.rows[0].status == Status.Expired && marked.rows[0].notifiedAt.Some?
            && NoticeAbout(NOTICE, 0, ASKED) && forall n :: n in marked.rows ==>
              !NoticeAbout(marked.rows[n].env, 0, ASKED)
  {
    hide Step, ExpiredBesidePlanted;
    var l := ExpiredBesidePlanted(c);
    ExpiredBesidePlantedIs(c);
    FlagIs(l, 0, 100.0, c);
    var marked := Step(l, Flag(0, 100.0), c);
    assert Holds(marked.rows, 1, "b", Key.Undelivered(0));
    SendAgain(marked, 2, NOTICE, c);
  }

  /** Rows the round has not come to yet, and rows it has dealt with, keep their standing through one more report. */
  ghost predicate Unreported(l: Ledger, start: Ledger, id: Id) {
    id in l.rows ==>
      && id in start.rows && id in l.hist && l.rows[id] == start.rows[id]
      && (Clear(start.rows, id, start.rows[id].env) ==> Clear(l.rows, id, start.rows[id].env))
  }

  ghost predicate Handled(l: Ledger, start: Ledger, id: Id, now: Time) {
    id in l.rows ==>
      && id in start.rows && id in l.hist && l.rows[id].notifiedAt.Some? && Terminal(l.rows[id])
      && l.rows[id].env == start.rows[id].env
      && (Clear(start.rows, id, start.rows[id].env) ==> NoticeSent(l.rows, id, start.rows[id].env, now))
  }

  lemma ReportKeepsClear(l: Ledger, next: Ledger, id: Id, other: Id, request: Envelope, now: Time)
    requires Reported(l, next, id, now, now + RETENTION_SECONDS) && other != id && Clear(l.rows, other, request)
    ensures Clear(next.rows, other, request)
  {
    forall n ensures !Holds(next.rows, n, request.target, Key.Undelivered(other)) {
      assert !Holds(l.rows, n, request.target, Key.Undelivered(other));
    }
  }

  lemma ReportKeepsUnreported(start: Ledger, l: Ledger, next: Ledger, id: Id, other: Id, now: Time)
    requires Reported(l, next, id, now, now + RETENTION_SECONDS) && other != id
    requires Unreported(l, start, other) && other in start.rows && Terminal(start.rows[other])
    requires other in l.hist
    ensures Unreported(next, start, other)
  {
    if Clear(l.rows, other, start.rows[other].env) {
      ReportKeepsClear(l, next, id, other, start.rows[other].env, now);
    }
    hide Clear;
  }

  lemma ReportKeepsHandled(start: Ledger, l: Ledger, next: Ledger, id: Id, other: Id, now: Time)
    requires Reported(l, next, id, now, now + RETENTION_SECONDS) && other != id
    requires id in l.rows ==> l.rows[id].env.kind == Request
    requires Handled(l, start, other, now) && other in l.hist
    ensures Handled(next, start, other, now)
  {
    hide Clear, NoticeSent;
    if other in next.rows && Clear(start.rows, other, start.rows[other].env) {
      NoticeSurvivesReport(l, next, other, start.rows[other].env, id, now);
    }
  }

  lemma MarkSound(l: Ledger, id: Id, now: Time, c: Limits, birth: map<Id, nat>, planted: set<(Agent, Id)>)
    requires l.rows.Keys <= l.hist.Keys && Sound(l, birth, planted)
    requires id in l.rows ==> l.rows[id].env.kind == Request
    ensures Sound(Step(l, Flag(id, now), c), birth, planted)
  {
    SingleTends(l, Flag(id, now), c);
    TendedSound(l, Step(l, Flag(id, now), c), birth, planted);
  }

  /** Marking a failed request and sending its notice: what is stored stays sound, and the report is made. */
  lemma NoticeRound(l: Ledger, id: Id, n: Id, env: Envelope, now: Time, c: Limits, birth: map<Id, nat>,
                    planted: set<(Agent, Id)>)
    requires l.rows.Keys <= l.hist.Keys && Sound(l, birth, planted) && n !in l.hist
    requires id in l.rows && Statements.Undelivered(l.rows[id])
    requires NoticeAbout(env, id, l.rows[id].env) && env.created == now
    ensures var marked := Step(l, Flag(id, now), c);
            var sent := Step(marked, Send(n, env), c);
            && Sound(sent, if Known(marked.rows, env.origin, env.key) then birth
              else birth[n := marked.created], planted)
            && Reported(l, sent, id, now, now + RETENTION_SECONDS)
            && id in sent.rows && sent.rows[id].notifiedAt.Some?
            && Handled(sent, l, id, now)
            && (!Clear(l.rows, id, l.rows[id].env) ==> sent.hist.Keys == l.hist.Keys)
  {
    RequestIsTerminal(l.rows[id]);
    NoticeStoredIff(l, id, n, env, now, c);
    hide Step, Sound, Noticed, Reported, Statements.Undelivered, NoticeSent, Known, Clear, Answers;
    var marked := Step(l, Flag(id, now), c);
    FlagIs(l, id, now, c);
    MarkSound(l, id, now, c, birth, planted);
    MarkAndSendReports(l, id, n, env, now, now + RETENTION_SECONDS, c);
    if Known(marked.rows, env.origin, env.key) {
      SendAgain(marked, n, env, c);
    } else {
      NoticeSound(marked, n, env, c, birth, planted, id);
      SendIs(marked, n, env, c);
    }
  }

  lemma FlagIs(l: Ledger, id: Id, now: Time, c: Limits)
    requires id in l.rows && l.rows[id].notifiedAt.None?
    ensures Step(l, Flag(id, now), c) == l.(rows := l.rows[id := l.rows[id].(notifiedAt := Some(now))])
  {
  }

  lemma SendAgain(l: Ledger, id: Id, env: Envelope, c: Limits)
    requires Known(l.rows, env.origin, env.key)
    ensures Step(l, Send(id, env), c) == l
  {
  }

  /** A reply is never reported as undelivered, a notice least of all: notices cause no notices. */
  lemma NoticesCauseNoNotices(l: Ledger, birth: map<Id, nat>, planted: set<(Agent, Id)>, n: Id)
    requires Sound(l, birth, planted) && n in l.rows && l.rows[n].env.kind == Reply
    ensures !Statements.Undelivered(l.rows[n]) && l.rows[n].notifiedAt.None?
  {
  }

  lemma NothingToHandle(l: Ledger, start: Ledger, id: Id, now: Time)
    requires id !in l.rows
    ensures Handled(l, start, id, now)
  {
  }

  lemma HousekeptKeepsHandled(start: Ledger, l: Ledger, next: Ledger, id: Id, now: Time)
    requires Handled(l, start, id, now) && Housekept(l, next, now, now + RETENTION_SECONDS)
    ensures Handled(next, start, id, now)
  {
    hide Clear, NoticeSent;
    if id in next.rows && Clear(start.rows, id, start.rows[id].env) {
      NoticeSurvivesHousekeeping(l, next, id, start.rows[id].env, now);
    }
  }

  /** How far a round of notices over `pending + dealt` has come. */
  ghost predicate RoundProgress(l: Ledger, start: Ledger, pending: set<Id>, dealt: set<Id>, now: Time) {
    && start.rows.Keys <= start.hist.Keys <= l.hist.Keys
    && (forall x :: x in l.rows && x in start.rows ==> l.rows[x].env == start.rows[x].env)
    && (forall id :: id in pending || id in dealt ==>
      id in start.rows && id in start.hist && Statements.Undelivered(start.rows[id]))
    && (forall id :: id in pending ==> Unreported(l, start, id))
    && (forall id :: id in dealt ==> Handled(l, start, id, now))
    && MarksOnly(l.rows, start.rows, dealt)
    && (forall x :: x in l.rows && x in start.hist ==> x in start.rows)
  }

  /** No row but the given ones has been marked. */
  predicate MarksOnly(rows: Rows, start: Rows, dealt: set<Id>) {
    forall x :: x in rows && x !in dealt ==>
      rows[x].notifiedAt == if x in start then start[x].notifiedAt else None
  }

  lemma ReportMarksOne(l: Ledger, next: Ledger, start: Ledger, dealt: set<Id>, id: Id, now: Time)
    requires MarksOnly(l.rows, start.rows, dealt) && start.rows.Keys <= start.hist.Keys <= l.hist.Keys
    requires id !in l.rows ==> next == l
    requires id in l.rows ==> Reported(l, next, id, now, now + RETENTION_SECONDS)
    ensures MarksOnly(next.rows, start.rows, dealt + {id})
  {
  }

  lemma EnvelopesStay(l: Ledger, next: Ledger, start: Ledger, id: Id, now: Time)
    requires start.rows.Keys <= start.hist.Keys <= l.hist.Keys
    requires forall x :: x in l.rows && x in start.rows ==> l.rows[x].env == start.rows[x].env
    requires id !in l.rows ==> next == l
    requires id in l.rows ==> Reported(l, next, id, now, now + RETENTION_SECONDS)
    ensures start.hist.Keys <= next.hist.Keys
    ensures forall x :: x in next.rows && x in start.rows ==> next.rows[x].env == start.rows[x].env
    ensures (forall x :: x in l.rows && x in start.hist ==> x in start.rows) ==>
              forall x :: x in next.rows && x in start.hist ==> x in start.rows
  {
  }

  lemma RoundStep(l: Ledger, next: Ledger, start: Ledger, pending: set<Id>, dealt: set<Id>, id: Id, now: Time)
    requires RoundProgress(l, start, pending, dealt, now) && id in pending && id !in dealt
    requires id !in l.rows ==> next == l
    requires id in l.rows ==> Reported(l, next, id, now, now + RETENTION_SECONDS)
    requires Handled(next, l, id, now)
    ensures RoundProgress(next, start, pending - {id}, dealt + {id}, now)
  {
    EnvelopesStay(l, next, start, id, now);
    ReportMarksOne(l, next, start, dealt, id, now);
    hide MarksOnly, Reported, Statements.Undelivered, Clear, NoticeSent;
    assert Unreported(l, start, id);
    forall other | other in pending && other != id ensures Unreported(next, start, other) {
      if id in l.rows {
        RequestIsTerminal(start.rows[other]);
        ReportKeepsUnreported(start, l, next, id, other, now);
      }
    }
    forall other | other in dealt ensures Handled(next, start, other, now) {
      if id in l.rows {
        RequestIsTerminal(start.rows[id]);
        ReportKeepsHandled(start, l, next, id, other, now);
      }
    }
  }

  lemma RequestIsTerminal(r: Row)
    requires Statements.Undelivered(r)
    ensures Terminal(r) && r.env.kind == Request && r.notifiedAt.None?
  {
  }
}
