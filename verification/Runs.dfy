/**
 * Whole runs of the store. A ledger is the table together with the history of every
 * message ever stored; each store operation is one step of it.
 */
module Runs {
  import opened Messages
  import opened Statements
  import opened Pulling
  import opened History

  datatype Limits = Limits(max: nat, lease: real)

  datatype Ledger = Ledger(rows: Rows, hist: map<Id, seq<Entry>>, draw: Token, created: nat)

  const Empty := Ledger(map[], map[], 0, 0)

  datatype Event =
    | Send(id: Id, env: Envelope)
    | Clean(at: Time)
    | Poll(target: Agent, at: Time, opts: PullOptions)
    | Settle(id: Id, agent: Agent, outcome: Outcome, error: string, at: Time, credential: Option<Token>)
    | Extend(id: Id, agent: Agent, token: Token, at: Time, seconds: real)
    | Revive(id: Id)
    | Withdraw(id: Id, at: Time)
    | Flag(id: Id, at: Time)

  // -- one step ----------------------------------------------------------

  ghost predicate Known(rows: Rows, origin: Agent, key: Key) {
    exists id :: Holds(rows, id, origin, key)
  }

  function ExpireNews(r: Row, now: Time): seq<Entry> {
    if Live(r) && r.env.expires < now then [Entry.Expired(now)] else []
  }

  function ReclaimNews(r: Row, now: Time): seq<Entry> {
    if r.status == Leased && r.leaseUntil.Some? && r.leaseUntil.value < now then [Reclaimed(now)] else []
  }

  function ExhaustNews(r: Row, max: nat): seq<Entry> {
    if Live(r) && r.attempts >= max then [Exhausted] else []
  }

  function PurgeNews(r: Row, cutoff: Time): seq<Entry> {
    if Purgeable(r, cutoff) then [Purged] else []
  }

  /** Which rules of a sweep fire on a row, in order. */
  function SweepNews(r: Row, now: Time, max: nat): seq<Entry> {
    ExpireNews(r, now) + ReclaimNews(ExpireRow(r, now), now)
    + ExhaustNews(ReclaimRow(ExpireRow(r, now), now), max) + PurgeNews(Tidy(r, now, max), now - RETENTION_SECONDS)
  }

  function Swept(l: Ledger, now: Time, max: nat): Ledger {
    l.(rows := Sweep(l.rows, now, max),
       hist := map id | id in l.hist ::
         if id in l.rows then l.hist[id] + SweepNews(l.rows[id], now, max) else l.hist[id])
  }

  /** Append one entry to one history, and store the row it leaves. */
  function Log(l: Ledger, id: Id, r: Row, e: Entry): Ledger {
    l.(rows := l.rows[id := r], hist := l.hist[id := (if id in l.hist then l.hist[id] else []) + [e]])
  }

  /** Claim the listed rows one after the other. */
  function Claimed(l: Ledger, ids: seq<Id>, until: Time, now: Time): Ledger
    requires forall i :: 0 <= i < |ids| ==> ids[i] in l.rows
    ensures Claimed(l, ids, until, now).rows == Claim(l.rows, ids, until, l.draw)
    ensures Claimed(l, ids, until, now).draw == l.draw + |ids|
    ensures Claimed(l, ids, until, now).created == l.created
  {
    if ids == [] then l else
      var last := |ids| - 1;
      var before := Claimed(l, ids[..last], until, now);
      Log(before, ids[last], ClaimRow(before.rows[ids[last]], until, before.draw), Delivered(before.draw, until, now))
        .(draw := before.draw + 1)
  }

  ghost function Step(l: Ledger, e: Event, c: Limits): Ledger {
    match e
    case Send(id, env) =>
      if Known(l.rows, env.origin, env.key) then l
      else Log(l, id, Fresh(env), Created).(created := l.created + 1)
    case Clean(now) => Swept(l, now, c.max)
    case Poll(target, now, opts) =>
      var s := Swept(l, now, c.max);
      var ids := Chosen(s.rows, target, now, opts, c.max);
      Claimed(s, ids, PullUntil(now, opts, c.lease), now).(draw := Drawn(l.draw, |ids|, opts.limit))
    case Settle(id, agent, outcome, error, now, credential) =>
      if AckError(l.rows, id, agent, outcome, now, credential).Some? then l
      else Log(l, id, AckRow(l.rows[id], outcome, error, now, c.max), Acked(credential, outcome, now))
    case Extend(id, agent, token, now, seconds) =>
      if !CanRenew(l.rows, id, agent, now, token) then l
      else var until := RenewUntil(now, seconds, c.lease);
           Log(l, id, l.rows[id].(leaseUntil := Some(until)), Renewed(token, until, now))
    case Revive(id) =>
      if id in l.rows && Requeueable(l.rows[id]) then Log(l, id, RequeueRow(l.rows[id]), Requeued) else l
    case Withdraw(id, now) =>
      if id in l.rows && Cancellable(l.rows[id]) then Log(l, id, CancelRow(l.rows[id], now), Cancelled) else l
    case Flag(id, now) =>
      if id in l.rows && l.rows[id].notifiedAt.None?
      then l.(rows := l.rows[id := l.rows[id].(notifiedAt := Some(now))]) else l
  }

  /** The poll step is the pull of the store, table and token source alike. */
  lemma PollIsPull(l: Ledger, e: Event, c: Limits)
    requires e.Poll?
    ensures Step(l, e, c).rows == Pulled(l.rows, e.target, e.at, e.opts, c.max, c.lease, l.draw)
    ensures var ids := Chosen(Sweep(l.rows, e.at, c.max), e.target, e.at, e.opts, c.max);
            Step(l, e, c).draw == Drawn(l.draw, |ids|, e.opts.limit)
  {
  }

  /** Message ids are drawn at random and never used twice. */
  predicate Admissible(l: Ledger, e: Event) {
    e.Send? ==> e.id !in l.hist
  }

  ghost function Run(l: Ledger, events: seq<Event>, c: Limits): Ledger
    decreases |events|
  {
    if events == [] then l else Run(Step(l, events[0], c), events[1..], c)
  }

  ghost predicate RunsFrom(l: Ledger, events: seq<Event>, c: Limits)
    decreases |events|
  {
    events != [] ==> Admissible(l, events[0]) && RunsFrom(Step(l, events[0], c), events[1..], c)
  }

  // -- the invariant -----------------------------------------------------

  /** The row says what its history says. */
  predicate Fits(r: Option<Row>, p: Phase) {
    match p
    case Unborn => r.None?
    case Gone => r.None?
    case Waiting(n) => r.Some? && r.value.status == Queued && r.value.attempts == n
                       && r.value.token.None? && r.value.leaseUntil.None?
    case Held(n, token, until) => r.Some? && r.value.status == Leased && r.value.attempts == n
                                  && r.value.token == Some(token) && r.value.leaseUntil == Some(until)
    case Over(n, status) => r.Some? && Terminal(r.value) && r.value.status == status && r.value.attempts == n
                            && r.value.token.None? && r.value.leaseUntil.None?
  }

  function Lookup(rows: Rows, id: Id): Option<Row> {
    if id in rows then Some(rows[id]) else None
  }

  ghost predicate Faithful(r: Option<Row>, h: seq<Entry>, max: nat) {
    h != [] && Legal(h, max) && Fits(r, Replay(h, max))
  }

  /** The k-th entry of a message's history is the delivery that issued the token. */
  predicate IssuedAt(hist: map<Id, seq<Entry>>, token: Token, id: Id, k: nat) {
    id in hist && k < |hist[id]| && hist[id][k].Delivered? && hist[id][k].token == token
  }

  ghost predicate FreshTokens(hist: map<Id, seq<Entry>>, draw: Token) {
    && (forall token: Token, id: Id, k: nat :: IssuedAt(hist, token, id, k) ==> token < draw)
    && (forall token: Token, a: Id, i: nat, b: Id, j: nat ::
          IssuedAt(hist, token, a, i) && IssuedAt(hist, token, b, j) ==> a == b && i == j)
  }

  /** Every history is a legal life, and the table holds exactly the rows those lives have led to. */
  ghost predicate Stories(rows: Rows, hist: map<Id, seq<Entry>>, max: nat) {
    rows.Keys <= hist.Keys
    && forall id :: id in hist ==> Faithful(Lookup(rows, id), hist[id], max)
  }

  ghost predicate Budgeted(rows: Rows, max: nat) {
    forall id :: id in rows && rows[id].status == Queued ==> rows[id].attempts < max
  }

  ghost predicate Inv(l: Ledger, c: Limits) {
    && c.max >= 1
    && Stories(l.rows, l.hist, c.max)
    && Budgeted(l.rows, c.max)
    && FreshTokens(l.hist, l.draw)
    && UniqueKeys(l.rows)
    && l.created == |l.hist|
  }
}
