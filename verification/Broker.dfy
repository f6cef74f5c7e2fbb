/**
 * The broker on top of the store: the long-poll registry, wake-ups, failure notices and the message
 * routes. Every method is one synchronous stretch of the server; `now` is its first clock reading.
 */
module Broker {
  import opened Messages
  import opened Statements
  import opened Pulling
  import opened Runs
  import opened Inbox
  import History
  import opened Upkeep
  import opened Registry
  import opened Store

  const PRESENCE_STALE_SECONDS: Time := 90.0
  const NOTICE_MIN_RETENTION_SECONDS: Time := 604800.0
  const DAY: Time := 86400.0
  const TTL_MIN_SECONDS: Time := 60.0
  const TTL_MAX_SECONDS: Time := 2592000.0
  const TTL_DEFAULT_SECONDS: Time := 604800.0

  /** No synchronous stretch of the server lasts as long as the retention period. */
  const LONGEST_STEP: Time := RETENTION_SECONDS

  /** Absent target lists allow every target. */
  datatype AgentEntry = AgentEntry(
    allowed: Option<set<Agent>>, allowedRead: Option<set<Agent>>, allowedContinue: Option<set<Agent>>,
    allowedWrite: Option<set<Agent>>, wakes: bool)

  datatype Config = Config(
    notifyFailedToSender: bool, messageTtlDays: nat, adminAgents: set<Agent>, agents: map<Agent, AgentEntry>)

  predicate CanSend(config: Config, from: Agent, to: Agent, mode: Mode) {
    if from !in config.agents then mode != Write else
      var entry := config.agents[from];
      match mode
      case Write => entry.allowedWrite.Some? && to in entry.allowedWrite.value
      case Continue => Permits(if entry.allowedContinue.Some? then entry.allowedContinue else entry.allowed, to)
      case Read => Permits(if entry.allowedRead.Some? then entry.allowedRead else entry.allowed, to)
  }

  predicate Permits(targets: Option<set<Agent>>, to: Agent) {
    targets.None? || to in targets.value
  }

  // -- wire requests -----------------------------------------------------

  /** A send, with text already trimmed and cut; None stands for an absent or unusable field. */
  datatype SendRequest = SendRequest(
    origin: Agent, target: Agent, kind: Option<Kind>, body: string, sessionRef: string, key: Option<Key>,
    parent: Option<Id>, mode: Option<Mode>, sharedWrite: Option<bool>, ttl: real, root: Option<string>,
    context: string, topic: string)

  datatype SendAnswer = Refused(status: nat)
    | Accepted(id: Id, created: bool, root: string, targetOnline: bool, lastSeenAt: Option<Time>, willWake: bool)

  datatype PullAnswer = Answered(messages: seq<Delivery>) | Parked(waiter: nat)

  function Ttl(requested: real): Time {
    Max(TTL_MIN_SECONDS,
      Min((if requested == 0.0 then TTL_DEFAULT_SECONDS else requested).Floor as real, TTL_MAX_SECONDS))
  }

  /** The first check a send fails, in order; 200 when it is accepted. */
  function SendStatus(config: Config, rows: Rows, agent: Agent, req: SendRequest): nat {
    if req.sharedWrite.None? then 400
    else if req.origin != agent then 403
    else if req.kind.None? then 400
    else if req.body == "" || |req.body| > 48000 || req.key.None? then 400
    else if req.kind.value == Request then
      if req.mode.None? then 400 else if !CanSend(config, agent, req.target, req.mode.value) then 403 else 200
    else if req.parent.None? then 400
    else if req.parent.value !in rows then 404
    else if rows[req.parent.value].env.target != agent || rows[req.parent.value].env.origin != req.target then 403
    else 200
  }

  /** The envelope an accepted send stores: a reply takes conversation, session, mode and topic from its parent. */
  function SentEnvelope(config: Config, rows: Rows, agent: Agent, req: SendRequest, freshRoot: string,
                        now: Time): Envelope
    requires SendStatus(config, rows, agent, req) == 200
  {
    if req.kind.value == Request then
      Envelope(if req.root.Some? then req.root.value else freshRoot, req.parent, agent, req.target, Request, req.body,
               req.sessionRef, req.mode.value, req.sharedWrite.value, req.context, req.topic, req.key.value, now,
               now + Ttl(req.ttl))
    else
      var parent := rows[req.parent.value].env;
      Envelope(parent.root, req.parent, agent, req.target, Reply, req.body,
               parent.sessionRef, parent.mode, false, req.context, parent.topic, req.key.value, now, now + Ttl(req.ttl))
  }

  /** The notice that tells the sender of `row` that its request was never processed. */
  function NoticeEnvelope(config: Config, id: Id, row: Row, now: Time): Envelope {
    var reason := if row.status == Status.Expired then "expired in the queue"
      else First300(Coalesce(row.lastError, "unknown"));
    var text := "undelivered to " + row.env.target + ": " + reason + "\n"
      + (if |row.env.body| <= 400 then row.env.body else row.env.body[..400]);
    Envelope(row.env.root, Some(id), row.env.target, row.env.origin, Reply, text, row.env.sessionRef, row.env.mode,
             false, "", row.env.topic, Key.Undelivered(id), now,
             now + Max(NOTICE_MIN_RETENTION_SECONDS, config.messageTtlDays as real * DAY))
  }

  /** Limits and leases as the pull route clamps them. */
  function ClaimOptions(limit: Option<int>, leaseSeconds: Option<real>, matchRoot: string): PullOptions {
    PullOptions(
      if limit.None? then 8 else if limit.value < 1 then 1 else if limit.value > 8 then 8 else limit.value,
      if leaseSeconds.None? then None else Some(Max(15.0, Min(leaseSeconds.value.Floor as real, 3600.0))),
      matchRoot)
  }

  /** The ledger step and the messages of a pull at time `at`. */
  ghost predicate ClaimedBy(l: Ledger, next: Ledger, agent: Agent, opts: PullOptions, at: Time, c: Limits,
                            messages: seq<Delivery>) {
    && next == Step(l, Poll(agent, at, opts), c)
    && var ids := Chosen(Sweep(l.rows, at, c.max), agent, at, opts, c.max);
       (forall i :: 0 <= i < |ids| ==> ids[i] in next.rows) && messages == Records(next.rows, ids)
  }

  function LastAnswer(e: Waiter): seq<Delivery>
    requires e.answers != []
  {
    e.answers[|e.answers| - 1]
  }

  /** The latest answer of a held pull is what it claimed in this step of the ledger. */
  ghost predicate AnsweredBy(l: Ledger, next: Ledger, e: Waiter, now: Time, c: Limits) {
    e.answers != [] &&
    exists at :: now <= at <= now + LONGEST_STEP && ClaimedBy(l, next, e.agent, e.opts, at, c, LastAnswer(e))
  }

  /** Held pulls are answered one after the other, each with what it can claim of what the one before has left. */
  ghost predicate Served(l: Ledger, next: Ledger, list: seq<nat>, entries: Entries, now: Time, c: Limits)
    decreases |list|
  {
    if list == [] then next == l else
      var last := list[|list| - 1];
      last in entries &&
      exists before ::
        Served(l, before, list[..|list| - 1], entries, now, c) && AnsweredBy(before, next, entries[last], now, c)
  }

  lemma {:induction false} ServedFrame(l: Ledger, next: Ledger, list: seq<nat>, entries: Entries, after: Entries,
                                       now: Time, c: Limits)
    requires Served(l, next, list, entries, now, c)
    requires forall w :: w in list && w in entries ==> w in after && after[w] == entries[w]
    ensures Served(l, next, list, after, now, c)
    decreases |list|
  {
    if list != [] {
      var last, front := list[|list| - 1], list[..|list| - 1];
      var before :| Served(l, before, front, entries, now, c) && AnsweredBy(before, next, entries[last], now, c);
      ServedFrame(l, before, front, entries, after, now, c);
    }
  }

  lemma ServeOneMore(l: Ledger, before: Ledger, next: Ledger, list: seq<nat>, i: nat, entries: Entries, after: Entries,
                     now: Time, c: Limits)
    requires i < |list| && Distinct(list) && Served(l, before, list[..i], entries, now, c)
    requires list[i] in after && after == entries[list[i] := after[list[i]]] &&
        AnsweredBy(before, next, after[list[i]], now, c)
    ensures Served(l, next, list[..i + 1], after, now, c)
  {
    hide AnsweredBy;
    assert list[..i + 1][..i] == list[..i] && list[..i + 1][i] == list[i];
    assert forall k :: 0 <= k < i ==> list[k] != list[i];
    ServedFrame(l, before, list[..i], entries, after, now, c);
  }

  lemma ServeNobody(l: Ledger, list: seq<nat>, entries: Entries, now: Time, c: Limits)
    ensures Served(l, l, list[..0], entries, now, c)
  {
  }

  /** The pull at the head of the list claims from the table as it is before anybody is served. */
  lemma HeadIsServedFirst(l: Ledger, next: Ledger, list: seq<nat>, entries: Entries, now: Time, c: Limits)
    returns (at: Time, after: Ledger)
    requires list != [] && Served(l, next, list, entries, now, c)
    ensures list[0] in entries && entries[list[0]].answers != [] && now <= at <= now + LONGEST_STEP
    ensures ClaimedBy(l, after, entries[list[0]].agent, entries[list[0]].opts, at, c, LastAnswer(entries[list[0]]))
    decreases |list|
  {
    var last := list[|list| - 1];
    var before :| Served(l, before, list[..|list| - 1], entries, now, c) &&
      AnsweredBy(before, next, entries[last], now, c);
    if |list| > 1 {
      at, after := HeadIsServedFirst(l, before, list[..|list| - 1], entries, now, c);
    } else {
      var e := entries[last];
      at :| now <= at <= now + LONGEST_STEP && ClaimedBy(l, next, e.agent, e.opts, at, c, LastAnswer(e));
      after := next;
    }
  }

  /**
   * Of the pulls held for an agent, the one parked first is answered with the oldest messages that wait
   * for it, before any other pull has taken one.
   */
  lemma LongestHeldPullGetsIt(l: Ledger, next: Ledger, waiters: Waiters, before: Entries, after: Entries,
                              parkedAt: ParkedAt, agent: Agent, w: nat, now: Time, c: Limits) returns (at: Time)
    requires Registered(waiters, before) && InTurn(waiters, parkedAt) && IsOldest(before, parkedAt, agent, w)
    requires Progressed(before, after) && Woken(l, next, waiters, agent, after, now, c)
    ensures w in after && after[w].answers != [] && now <= at <= now + LONGEST_STEP
    ensures var opts := before[w].opts;
            TakesOldest(Sweep(l.rows, at, c.max), LastAnswer(after[w]), agent, opts.matchRoot,
                        if opts.limit == 0 then 8 else if opts.limit < 1 then 1 else opts.limit)
  {
    hide Registered, InTurn, InTurn, ClaimedBy, TakesOldest, LeasesOut, Served;
    OldestStandsFirst(waiters, before, parkedAt, agent, w);
    var claimed;
    at, claimed := HeadIsServedFirst(l, next, waiters[agent], after, now, c);
    ClaimIsOldest(l, claimed, agent, before[w].opts, at, c, LastAnswer(after[w]));
  }

  lemma {:induction false} UpperBound(used: set<Id>) returns (bound: nat)
    ensures bound !in used && forall id :: id in used ==> id < bound
    decreases used
  {
    if used == {} {
      bound := 0;
    } else {
      var id :| id in used;
      var rest := UpperBound(used - {id});
      bound := if id >= rest then id + 1 else rest;
      forall other | other in used ensures other < bound {
        assert other == id || other in used - {id};
      }
    }
  }

  /** The store is consistent, its ids have been drawn, and what it stores is sound. */
  ghost predicate Backed(store: MessageStore, used: set<Id>, birth: map<Id, nat>, planted: set<(Agent, Id)>)
    reads store
  {
    store.Valid() && store.ledger.hist.Keys <= used && Sound(store.ledger, birth, planted)
  }

  lemma BackedKeys(store: MessageStore, used: set<Id>, birth: map<Id, nat>, planted: set<(Agent, Id)>)
    requires Backed(store, used, birth, planted)
    ensures store.ledger.rows == store.rows && store.rows.Keys <= store.ledger.hist.Keys <= used
  {
  }

  lemma BackedIsSound(store: MessageStore, used: set<Id>, birth: map<Id, nat>, planted: set<(Agent, Id)>)
    requires Backed(store, used, birth, planted)
    ensures Sound(store.ledger, birth, planted)
  {
  }

  /**
   * Every request of `before` that had failed or expired and was not reported is, if it is still stored,
   * marked as reported, and no other row is marked. Its sender is told, by exactly one notice, if nothing
   * stood in the notice's place; if something did and still does, no notice is added.
   */
  ghost predicate Told(before: Rows, after: Rows) {
    && (forall id :: id in before && id in after && before[id].env.kind == Request && before[id].notifiedAt.None?
                     && (before[id].status == Failed || before[id].status == Status.Expired) ==>
          && after[id].notifiedAt.Some?
          && (Clear(before, id, before[id].env) ==> OneNotice(after, id, before[id].env))
          && (forall m :: Stands(before, m, id) && m in after ==> forall n :: Stands(after, n, id) ==> n == m))
    && (forall id :: id in after ==>
          || after[id].notifiedAt == (if id in before then before[id].notifiedAt else None)
          || (id in before && before[id].env.kind == Request && before[id].notifiedAt.None?
              && (before[id].status == Failed || before[id].status == Status.Expired)))
  }

  /** The message has the origin and key of the notice about a stored request. */
  predicate Stands(rows: Rows, n: Id, id: Id) {
    id in rows && Holds(rows, n, rows[id].env.target, Key.Undelivered(id))
  }

  /** A wake-up answers the pulls held for the agent, and touches nothing stored if there are none. */
  ghost predicate Woken(l: Ledger, next: Ledger, waiters: Waiters, agent: Agent, entries: Entries, now: Time,
                        c: Limits) {
    if agent in waiters then Served(l, next, waiters[agent], entries, now, c) else next == l
  }

  function Seen(lastPullAt: map<Agent, Time>, agent: Agent): Option<Time> {
    if agent in lastPullAt then Some(lastPullAt[agent]) else None
  }

  predicate SeenSince(lastPullAt: map<Agent, Time>, agent: Agent, from: Time) {
    agent in lastPullAt && lastPullAt[agent] >= from
  }

  /** Whether the agent counts as listening: it has pulled within the last 90 seconds. */
  predicate Online(lastPullAt: map<Agent, Time>, agent: Agent, now: Time) {
    SeenSince(lastPullAt, agent, now - PRESENCE_STALE_SECONDS)
  }

  ghost predicate HoldsMessage(rows: Rows, env: Envelope) {
    exists n :: n in rows && rows[n].env == env
  }

  class RelayBroker {
    const config: Config
    const store: MessageStore
    var waiters: Waiters
    var entries: Entries
    var waking: set<Agent>
    /** Message ids the random source has produced. */
    var used: set<Id>
    ghost var birth: map<Id, nat>
    ghost var planted: set<(Agent, Id)>
    /** When each pull was parked that was ever held. */
    ghost var parkedAt: ParkedAt

    /** The invariant between steps; within a step, pulls of one agent may still have to be woken. */
    ghost predicate Steady(exempt: Option<Agent>)
      reads this, store
    {
      && Backed(store, used, birth, planted)
      && Registered(waiters, entries)
      && InTurn(waiters, parkedAt)
      && CaughtUp(entries, parkedAt, store.ledger, exempt)
    }

    ghost predicate Valid()
      reads this, store
    {
      Steady(None)
    }

    /** Starts a server process on a store that earlier processes left sound. */
    constructor (config: Config, store: MessageStore, used: set<Id>, ghost birth: map<Id, nat>,
                 ghost planted: set<(Agent, Id)>)
      requires store.Valid() && store.ledger.hist.Keys <= used && Sound(store.ledger, birth, planted)
      ensures Valid() && this.config == config && this.store == store
      ensures waiters == map[] && entries == map[] && waking == {}
    {
      this.config, this.store, this.used, this.birth, this.planted := config, store, used, birth, planted;
      waiters, entries, waking, parkedAt := map[], map[], {}, map[];
    }

    /** A later clock reading of the same synchronous stretch. */
    method Later(now: Time) returns (t: Time)
      ensures now <= t <= now + LONGEST_STEP
    {
      t := *;
      if !(now <= t <= now + LONGEST_STEP) {
        t := now;
      }
    }

    /** 16 random bytes that have never come up before. */
    method DrawId() returns (id: Id)
      modifies this`used
      ensures id !in old(used) && used == old(used) + {id}
    {
      ghost var unseen := UpperBound(used);
      id :| id !in used;
      used := used + {id};
    }

    // -- registry --------------------------------------------------------

    method DropWaiter(w: nat)
      requires w in entries
      modifies this`waiters, this`entries
      ensures entries == old(entries)[w := old(entries)[w].(timer := false)]
      ensures waiters == Without(old(waiters), old(entries)[w].agent, w)
    {
      entries := entries[w := entries[w].(timer := false)];
      var agent := entries[w].agent;
      if agent !in waiters {
        return;
      }
      var left := Remove(waiters[agent], w);
      if left == [] {
        waiters := waiters - {agent};
      } else {
        waiters := waiters[agent := left];
      }
    }

    /** Takes a pull that was just marked done off the registry and resolves it. */
    method FinishWaiter(w: nat, messages: seq<Delivery>, ghost parked: Entries)
      requires w in parked && !parked[w].done && entries == parked[w := parked[w].(done := true)]
      requires Registered(waiters, parked)
      modifies this`waiters, this`entries
      ensures Registered(waiters, entries)
      ensures entries == parked[w := Resolve(parked[w], messages)]
      ensures waiters == Without(old(waiters), parked[w].agent, w)
    {
      SettleKeepsRegistered(waiters, parked, w, messages);
      DropWaiter(w);
      entries := entries[w := entries[w].(answers := entries[w].answers + [messages])];
      assert entries == parked[w := Resolve(parked[w], messages)];
    }

    /** A pull of the store at some moment of this stretch. */
    method PullNow(agent: Agent, opts: PullOptions, now: Time) returns (messages: seq<Delivery>, ghost at: Time)
      requires Backed(store, used, birth, planted)
      modifies store
      ensures Backed(store, used, birth, planted)
      ensures now <= at <= now + LONGEST_STEP
      ensures ClaimedBy(old(store.ledger), store.ledger, agent, opts, at, store.Lim(), messages)
      ensures Housekept(old(store.ledger), store.ledger, now, now + RETENTION_SECONDS)
      ensures store.lastPullAt == old(store.lastPullAt)[agent := at]
    {
      var t := Later(now);
      at := t;
      PollHousekeeps(store.ledger, Poll(agent, t, opts), now, now + RETENTION_SECONDS, store.Lim());
      messages := store.Pull(agent, t, opts);
      HousekeptIsTended(old(store.ledger), store.ledger, now, now + RETENTION_SECONDS);
      TendedSound(old(store.ledger), store.ledger, birth, planted);
    }

    /** Resolves a held pull with what it can claim at this moment; does nothing if it is resolved. */
    method SettleWaiter(w: nat, now: Time) returns (ghost at: Time, ghost answer: seq<Delivery>)
      requires Backed(store, used, birth, planted) && Registered(waiters, entries) && w in entries
      modifies this`waiters, this`entries, store
      ensures Backed(store, used, birth, planted) && Registered(waiters, entries)
      ensures old(entries)[w].done ==>
          entries == old(entries) && waiters == old(waiters) && store.ledger == old(store.ledger)
      ensures !old(entries)[w].done ==>
                var e := old(entries)[w];
                && waiters == Without(old(waiters), e.agent, w) && entries == old(entries)[w := Resolve(e, answer)]
                && now <= at <= now + LONGEST_STEP
                && ClaimedBy(old(store.ledger), store.ledger, e.agent, e.opts, at, store.Lim(), answer)
                && store.lastPullAt == old(store.lastPullAt)[e.agent := at]
      ensures Housekept(old(store.ledger), store.ledger, now, now + RETENTION_SECONDS)
    {
      at, answer := now, [];
      if entries[w].done {
        SameHousekept(store.ledger, now, now + RETENTION_SECONDS);
        return;
      }
      var e := entries[w];
      entries := entries[w := e.(done := true)];
      var messages;
      messages, at := PullNow(e.agent, e.opts, now);
      answer := messages;
      FinishWaiter(w, messages, old(entries));
    }

    method SettleWaiterEmpty(w: nat)
      requires Registered(waiters, entries) && w in entries
      modifies this`waiters, this`entries
      ensures Registered(waiters, entries)
      ensures entries == if old(entries)[w].done then old(entries) else old(entries)[w := Resolve(old(entries)[w], [])]
      ensures waiters == if old(entries)[w].done then old(waiters) else Without(old(waiters), old(entries)[w].agent, w)
    {
      if entries[w].done {
        return;
      }
      entries := entries[w := entries[w].(done := true)];
      FinishWaiter(w, [], old(entries));
    }

    /** Parks a pull, unless sixteen are parked for the agent already. */
    method WaitFor(agent: Agent, opts: PullOptions) returns (parked: Option<nat>)
      requires Valid()
      modifies this`waiters, this`entries, this`parkedAt
      ensures Valid()
      ensures parkedAt == if parked.None? then old(parkedAt)
                          else old(parkedAt)[parked.value := Moment(|old(parkedAt)|, store.ledger)]
      ensures parked.Some? ==>
                forall w :: w in old(parkedAt) ==> parkedAt[w].number < parkedAt[parked.value].number
      ensures parked.None? <==> agent in old(waiters) && |old(waiters)[agent]| >= 16
      ensures parked.None? ==> waiters == old(waiters) && entries == old(entries)
      ensures parked.Some? ==>
                && parked.value !in old(entries)
                && entries == old(entries)[parked.value := Waiter(agent, opts, false, true, [])]
                && waiters == With(old(waiters), agent, parked.value)
    {
      hide Backed, Registered, InTurn, CaughtUp;
      if agent in waiters && |waiters[agent]| >= MAX_WAITERS_PER_AGENT {
        return None;
      }
      ghost var unseen := UpperBound(entries.Keys);
      var w: nat :| w !in entries.Keys;
      ParkKeepsRegistered(waiters, entries, w, agent, opts);
      ParkKeepsCaughtUp(entries, parkedAt, store.ledger, w, agent, opts);
      ParkKeepsTurns(waiters, entries, parkedAt, agent, w, store.ledger);
      entries := entries[w := Waiter(agent, opts, false, true, [])];
      waiters := With(waiters, agent, w);
      parkedAt := parkedAt[w := Moment(|parkedAt|, store.ledger)];
      return Some(w);
    }

    // -- wake-ups --------------------------------------------------------

    /** Resolves every pull held for the agent, oldest first. */
    method SettleAll(agent: Agent, now: Time)
      requires Backed(store, used, birth, planted) && Registered(waiters, entries) && agent in waiters
      requires InTurn(waiters, parkedAt)
      modifies this`waiters, this`entries, store
      ensures Backed(store, used, birth, planted) && Registered(waiters, entries) && InTurn(waiters, parkedAt)
      ensures waiters == old(waiters) - {agent}
      ensures entries.Keys == old(entries).Keys && Progressed(old(entries), entries)
      ensures Served(old(store.ledger), store.ledger, old(waiters)[agent], entries, now, store.Lim())
      ensures Housekept(old(store.ledger), store.ledger, now, now + RETENTION_SECONDS)
      ensures SeenSince(store.lastPullAt, agent, now)
    {
      hide Backed, Registered, InTurn, Progressed, Housekept, Served, AnsweredBy;
      BackedKeys(store, used, birth, planted);
      SameHousekept(store.ledger, now, now + RETENTION_SECONDS);
      ProgressedRefl(entries);
      RegisteredList(waiters, entries, agent);
      var list := waiters[agent];
      ServeNobody(store.ledger, list, entries, now, store.Lim());
      var i := 0;
      while i < |list|
        invariant i <= |list|
        invariant Served(old(store.ledger), store.ledger, list[..i], entries, now, store.Lim())
        invariant Backed(store, used, birth, planted) && Registered(waiters, entries)
        invariant waiters == WithList(old(waiters), agent, list[i..])
        invariant entries.Keys == old(entries).Keys && Progressed(old(entries), entries)
        invariant Housekept(old(store.ledger), store.ledger, now, now + RETENTION_SECONDS)
        invariant i > 0 ==> SeenSince(store.lastPullAt, agent, now)
      {
        ghost var before, ledger := entries, store.ledger;
        AdvanceList(old(waiters), agent, list, i);
        SettleHead(agent, list[i], now);
        HousekeptTrans(old(store.ledger), ledger, store.ledger, now, now + RETENTION_SECONDS);
        ProgressedTrans(old(entries), before, entries);
        ServeOneMore(old(store.ledger), ledger, store.ledger, list, i, before, entries, now, store.Lim());
        i := i + 1;
      }
      assert list[..i] == list;
      DroppedKeepsTurns(old(waiters), agent, parkedAt);
    }

    /** Resolves the pull that was parked first for the agent. */
    method SettleHead(agent: Agent, w: nat, now: Time)
      requires Backed(store, used, birth, planted) && Registered(waiters, entries)
      requires agent in waiters && waiters[agent] != [] && waiters[agent][0] == w
      modifies this`waiters, this`entries, store
      ensures Backed(store, used, birth, planted) && Registered(waiters, entries)
      ensures waiters == WithList(old(waiters), agent, old(waiters)[agent][1..])
      ensures w in entries && entries == old(entries)[w := entries[w]]
      ensures entries.Keys == old(entries).Keys && Progressed(old(entries), entries)
      ensures AnsweredBy(old(store.ledger), store.ledger, entries[w], now, store.Lim())
      ensures Housekept(old(store.ledger), store.ledger, now, now + RETENTION_SECONDS)
      ensures SeenSince(store.lastPullAt, agent, now)
    {
      hide Backed, Registered, InTurn, Progressed, Housekept, ClaimedBy;
      RegisteredHead(waiters, entries, agent);
      WithoutHead(waiters, agent);
      ghost var at, answer := SettleWaiter(w, now);
      ResolveProgresses(old(entries), w, answer);
      assert LastAnswer(entries[w]) == answer;
      assert ClaimedBy(old(store.ledger), store.ledger, entries[w].agent, entries[w].opts, at, store.Lim(),
        LastAnswer(entries[w]));
    }

    /**
     * Hands a new message to the pulls held for its agent, or starts the agent's worker when nobody
     * has pulled lately. Afterwards no pull is parked for the agent.
     */
    method WakeAgent(agent: Agent, now: Time, launches: bool) returns (started: bool, ghost at: Time)
      requires Steady(Some(agent))
      modifies this`waiters, this`entries, this`waking, store
      ensures Valid() && waiters == old(waiters) - {agent}
      ensures entries.Keys == old(entries).Keys && Progressed(old(entries), entries)
      ensures Housekept(old(store.ledger), store.ledger, now, now + RETENTION_SECONDS)
      ensures Woken(old(store.ledger), store.ledger, old(waiters), agent, entries, now, store.Lim())
      ensures now <= at <= now + LONGEST_STEP
      ensures started <==>
                && launches && agent !in old(waiters) && agent !in old(waking)
                && agent in config.agents && config.agents[agent].wakes
                && (agent in old(store.lastPullAt) ==> at - old(store.lastPullAt)[agent] > 90.0)
      ensures waking == old(waking) + if started then {agent} else {}
      ensures if agent in old(waiters) then SeenSince(store.lastPullAt, agent, now)
              else store.lastPullAt == old(store.lastPullAt)
    {
      hide Backed, Registered, InTurn, CaughtUp, Housekept, Progressed, Served;
      at := now;
      if agent in waiters {
        SettleAll(agent, now);
        HousekeptKeepsCaughtUp(old(entries), parkedAt, old(store.ledger), store.ledger, now, now + RETENTION_SECONDS,
                               Some(agent));
        WokenIsCaughtUp(waiters, old(entries), entries, parkedAt, store.ledger, agent);
        return false, at;
      }
      BackedKeys(store, used, birth, planted);
      SameHousekept(store.ledger, now, now + RETENTION_SECONDS);
      ProgressedRefl(entries);
      WokenIsCaughtUp(waiters, entries, entries, parkedAt, store.ledger, agent);
      assert waiters - {agent} == waiters;
      var t := Later(now);
      at := t;
      if Online(store.lastPullAt, agent, t) {
        return false, at;
      }
      started := SpawnWorker(agent, launches);
    }

    /** At most one worker per agent is being woken; `launches` says whether its command can be started. */
    method SpawnWorker(agent: Agent, launches: bool) returns (started: bool)
      modifies this`waking
      ensures started <==> launches && agent !in old(waking) && agent in config.agents && config.agents[agent].wakes
      ensures waking == old(waking) + if started then {agent} else {}
    {
      if agent !in config.agents || !config.agents[agent].wakes || agent in waking {
        return false;
      }
      waking := waking + {agent};
      if !launches {
        waking := waking - {agent};
        return false;
      }
      return true;
    }

    // -- failure notices -------------------------------------------------

    /**
     * Tells the sender of one failed or expired request. A request that a pull within this round has
     * purged is skipped.
     */
    method NotifyFailedSender(id: Id, row: Row, now: Time)
      requires Valid() && Statements.Undelivered(row) && id in store.ledger.hist
      requires id in store.rows ==> store.rows[id] == row
      modifies this`waiters, this`entries, this`waking, this`used, this`birth, store
      ensures Valid() && entries.Keys == old(entries).Keys && Progressed(old(entries), entries)
      ensures id !in old(store.rows) ==> store.ledger == old(store.ledger)
      ensures id in old(store.rows) ==> Reported(old(store.ledger), store.ledger, id, now, now + RETENTION_SECONDS)
      ensures Handled(store.ledger, old(store.ledger), id, now)
      ensures id in old(store.rows) && !Clear(old(store.rows), id, row.env) ==>
                store.ledger.hist.Keys == old(store.ledger).hist.Keys
      ensures id in old(store.rows) && Clear(old(store.rows), id, row.env) ==>
                HoldsMessage(store.rows, NoticeEnvelope(config, id, row, now))
    {
      hide Sound, Inv, Registered, InTurn, CaughtUp, Housekept, Progressed, Reported, Noticed, Handled;
      ghost var l, c := store.ledger, store.Lim();
      BackedKeys(store, used, birth, planted);
      ProgressedRefl(entries);
      MarkSound(l, id, now, c, birth, planted);
      QuietKeepsCaughtUp(entries, parkedAt, l, Flag(id, now), c);
      var marked := store.MarkNotified(id, now);
      if !marked {
        NothingToHandle(store.ledger, l, id, now);
        return;
      }
      var env := NoticeEnvelope(config, id, row, now);
      var n := DrawId();
      NoticeRound(l, id, n, env, now, c, birth, planted);
      BackedKeys(store, used, birth, planted);
      ArrivalIsExempt(entries, parkedAt, store.ledger, Send(n, env), c, env.target);
      var _, created := store.Create(n, env);
      if created {
        birth := birth[n := l.created];
      }
      NoticeStoredIff(l, id, n, env, now, c);
      ghost var sent := store.ledger;
      var launches := *;
      var _, _ := WakeAgent(row.env.origin, now, launches);
      ReportedThenHousekept(l, sent, store.ledger, id, now, now + RETENTION_SECONDS);
      HousekeptKeepsHandled(l, sent, store.ledger, id, now);
      SameMessages(sent, store.ledger, now);
      BackedKeys(store, used, birth, planted);
      if created {
        YoungRowStays(sent, store.ledger, n, now);
        assert store.rows[n].env == env;
      }
    }

    /**
     * Tells the sender of every request that has failed or expired, once. Messages that are handed
     * out, swept up or purged by the wake-ups in between do not disturb the round.
     */
    method NotifyFailedSenders(now: Time)
      requires Valid()
      modifies this`waiters, this`entries, this`waking, this`used, this`birth, store
      ensures Valid() && entries.Keys == old(entries).Keys && Progressed(old(entries), entries)
      ensures !config.notifyFailedToSender ==> store.ledger == old(store.ledger)
      ensures config.notifyFailedToSender ==> Told(old(store.rows), store.rows)
      ensures forall id :: id in store.rows && id in old(store.ledger).hist ==> id in old(store.rows)
      ensures config.notifyFailedToSender ==>
                forall id :: id in old(store.rows) && id in store.rows && old(store.rows)[id].env.kind == Request
                             && old(store.rows)[id].notifiedAt.None?
                             && (old(store.rows)[id].status == Failed || old(store.rows)[id].status == Status.Expired)
                             && id in old(store.ledger).hist && !RequeuedEver(old(store.ledger).hist[id])
                             && (old(store.rows)[id].env.target, id) !in old(planted) ==>
                  OneNotice(store.rows, id, old(store.rows)[id].env)
    {
      hide Backed, Sound, Inv, Registered, InTurn, CaughtUp, Housekept, Progressed, Reported, Noticed, Handled,
           RoundProgress;
      ProgressedRefl(entries);
      if !config.notifyFailedToSender {
        return;
      }
      var snapshot := store.rows;
      var failed := set id | id in snapshot && Statements.Undelivered(snapshot[id]);
      var pending := failed;
      ghost var start := store.ledger;
      BackedKeys(store, used, birth, planted);
      BackedIsSound(store, used, birth, planted);
      RoundStarts(start, failed, now);
      assert failed - pending == {};
      while pending != {}
        invariant Valid() && pending <= failed
        invariant entries.Keys == old(entries).Keys && Progressed(old(entries), entries)
        invariant RoundProgress(store.ledger, start, pending, failed - pending, now)
        decreases pending
      {
        ghost var l, before := store.ledger, entries;
        var id :| id in pending;
        BackedKeys(store, used, birth, planted);
        RoundPending(l, start, pending, failed - pending, now, id);
        NotifyFailedSender(id, snapshot[id], now);
        RoundStep(l, store.ledger, start, pending, failed - pending, id, now);
        ProgressedTrans(old(entries), before, entries);
        assert failed - (pending - {id}) == failed - pending + {id};
        pending := pending - {id};
      }
      assert failed - pending == failed;
      BackedKeys(store, used, birth, planted);
      RoundEnds(store, used, birth, planted, start, failed, now);
      NeverRequeuedAreTold(start, old(birth), old(planted), store.rows);
    }

    // -- routes ----------------------------------------------------------

    /** Stores a message, unless one with its origin and key is stored, and wakes its target. */
    method Dispatch(id: Id, env: Envelope, now: Time, launches: bool)
      returns (stored: Id, created: bool, willWake: bool, ghost at: Time)
      requires Valid() && id !in store.ledger.hist && id in used && env.created == now
      requires !Known(store.ledger.rows, env.origin, env.key) ==>
                 Sound(Step(store.ledger, Send(id, env), store.Lim()), birth[id := store.ledger.created],
                       planted + Plants(env))
      modifies this`waiters, this`entries, this`waking, this`birth, this`planted, store
      ensures Valid() && entries.Keys == old(entries).Keys && Progressed(old(entries), entries)
      ensures created ==>
                && stored == id && env.target !in waiters && id in store.rows && store.rows[id].env == env
                && Woken(Step(old(store.ledger), Send(id, env), store.Lim()), store.ledger, old(waiters), env.target,
                         entries, now, store.Lim())
      ensures !created ==>
                && store.ledger == old(store.ledger) && stored in store.rows
                && store.rows[stored].env.origin == env.origin && store.rows[stored].env.key == env.key
      ensures if created && env.target in old(waiters) then SeenSince(store.lastPullAt, env.target, now)
              else store.lastPullAt == old(store.lastPullAt)
      ensures now <= at <= now + LONGEST_STEP
      ensures willWake <==>
                && created && launches && env.target !in old(waiters) && env.target !in old(waking)
                && env.target in config.agents && config.agents[env.target].wakes
                && (env.target in old(store.lastPullAt) ==> at - old(store.lastPullAt)[env.target] > 90.0)
      ensures waking == old(waking) + if willWake then {env.target} else {}
      ensures planted == old(planted) + if created then Plants(env) else {}
    {
      hide Sound, Inv, Registered, InTurn, CaughtUp, Housekept, Progressed, Step, Woken, Known, Plants;
      ProgressedRefl(entries);
      at := now;
      BackedKeys(store, used, birth, planted);
      ghost var l := store.ledger;
      ArrivalIsExempt(entries, parkedAt, l, Send(id, env), store.Lim(), env.target);
      CreateIs(l, id, env, store.Lim());
      stored, created := store.Create(id, env);
      willWake := false;
      if created {
        birth, planted := birth[id := l.created], planted + Plants(env);
        ghost var sent := store.ledger;
        willWake, at := WakeAgent(env.target, now, launches);
        BackedKeys(store, used, birth, planted);
        YoungRowStays(sent, store.ledger, id, now);
      }
    }

    /** POST /v1/messages. */
    method PostMessage(agent: Agent, req: SendRequest, freshRoot: string, now: Time, launches: bool)
      returns (answer: SendAnswer, ghost at: Time)
      requires Valid()
      modifies this`waiters, this`entries, this`waking, this`used, this`birth, this`planted, store
      ensures Valid() && entries.Keys == old(entries).Keys && Progressed(old(entries), entries)
      ensures answer.Accepted? <==> SendStatus(config, old(store.rows), agent, req) == 200
      ensures answer.Accepted? <==> Acceptable(config, old(store.rows), agent, req)
      ensures answer.Refused? ==>
          answer.status == SendStatus(config, old(store.rows), agent, req) && store.ledger == old(store.ledger)
      ensures answer.Accepted? && !answer.created ==>
                && store.ledger == old(store.ledger) && answer.id in store.rows
                && store.rows[answer.id].env.origin == agent && Some(store.rows[answer.id].env.key) == req.key
      ensures answer.Accepted? && answer.created ==>
                && answer.id !in old(store.ledger).hist && req.target !in waiters
                && Woken(Step(old(store.ledger),
                  Send(answer.id, SentEnvelope(config, old(store.rows), agent, req, freshRoot, now)), store.Lim()),
                         store.ledger, old(waiters), req.target, entries, now, store.Lim())
      ensures answer.Accepted? && answer.created ==>
                answer.id in store.rows &&
                AsSent(store.rows[answer.id].env, old(store.rows), agent, req, freshRoot, now)
      ensures answer.Accepted? ==> answer.root == SentEnvelope(config, old(store.rows), agent, req, freshRoot, now).root
      ensures answer.Accepted? ==>
                && (answer.targetOnline <==>
                      req.target in store.lastPullAt && now - store.lastPullAt[req.target] <= 90.0)
                && (req.target in store.lastPullAt ==> answer.lastSeenAt == Some(store.lastPullAt[req.target]))
                && (req.target !in store.lastPullAt ==> answer.lastSeenAt.None?)
                && (if answer.created && req.target in old(waiters) then answer.targetOnline && !answer.willWake
                    else store.lastPullAt == old(store.lastPullAt))
      ensures now <= at <= now + LONGEST_STEP
      ensures answer.Accepted? ==>
                (answer.willWake <==>
                   && answer.created && launches && req.target !in old(waiters) && req.target !in old(waking)
                   && req.target in config.agents && config.agents[req.target].wakes
                   && (req.target in old(store.lastPullAt) ==> at - old(store.lastPullAt)[req.target] > 90.0))
      ensures waking == old(waking) + if answer.Accepted? && answer.willWake then {req.target} else {}
      ensures planted == old(planted) + (if answer.Accepted? && answer.created && req.key.value.Undelivered?
                                         then {(agent, req.key.value.id)} else {})
    {
      hide Sound, Inv, Registered, InTurn, CaughtUp, Housekept, Progressed, SentEnvelope, SendStatus, Acceptable,
           AsSent, Step, Woken, Known, Routed;
      ProgressedRefl(entries);
      SendStatusIff(config, store.rows, agent, req);
      var status := SendStatus(config, store.rows, agent, req);
      at := now;
      if status != 200 {
        return Refused(status), at;
      }
      var env := SentEnvelope(config, store.rows, agent, req, freshRoot, now);
      BackedKeys(store, used, birth, planted);
      var id := DrawId();
      RouteSendSound(config, store.ledger, agent, req, freshRoot, now, id, store.Lim(), birth, planted);
      AcceptedSend(config, store.rows, agent, req, freshRoot, now);
      var stored, created, willWake;
      stored, created, willWake, at := Dispatch(id, env, now, launches);
      return Accepted(stored, created, env.root, Online(store.lastPullAt, env.target, now),
                      Seen(store.lastPullAt, env.target), willWake), at;
    }

    /**
     * POST /v1/pull up to its await. A pull is parked only when nothing its filter could claim is
     * stored at that moment.
     */
    method PullMessages(agent: Agent, limit: Option<int>, leaseSeconds: Option<real>, matchRoot: string,
                        waitSeconds: real, now: Time)
      returns (answer: PullAnswer, ghost noticed: Ledger, ghost at: Time)
      requires Valid()
      modifies this`waiters, this`entries, this`waking, this`used, this`birth, this`parkedAt, store
      ensures Valid() && Progressed(old(entries), entries)
      ensures now <= at <= now + LONGEST_STEP
      ensures if config.notifyFailedToSender then Told(old(store.rows), noticed.rows) else noticed == old(store.ledger)
      ensures ClaimedBy(noticed, store.ledger, agent, ClaimOptions(limit, leaseSeconds, matchRoot), at, store.Lim(),
                        if answer.Answered? then answer.messages else [])
      ensures TakesOldest(Sweep(noticed.rows, at, store.maxAttempts),
                          if answer.Answered? then answer.messages else [], agent, matchRoot,
                          if limit.None? || limit.value > 8 then 8 else if limit.value < 1 then 1 else limit.value)
      ensures LeasesOut(Sweep(noticed.rows, at, store.maxAttempts), store.rows,
                        if answer.Answered? then answer.messages else [],
                        at + (if leaseSeconds.None? then store.leaseSeconds
                              else if leaseSeconds.value.Floor < 15 then 15.0
                              else if leaseSeconds.value.Floor > 3600 then 3600.0
                              else leaseSeconds.value.Floor as real), noticed.draw)
      ensures answer.Answered? ==> entries.Keys == old(entries).Keys
      ensures answer.Answered? && answer.messages == [] && waitSeconds > 0.0 ==>
                agent in waiters && |waiters[agent]| >= 16
      ensures answer.Parked? ==>
                && waitSeconds > 0.0 && answer.waiter !in old(entries) && answer.waiter in entries
                && entries[answer.waiter] ==
                  Waiter(agent, ClaimOptions(limit, leaseSeconds, matchRoot), false, true, [])
                && agent in waiters && answer.waiter in waiters[agent]
                && (forall id :: id in store.rows && store.rows[id].status == Queued
                                 && store.rows[id].env.target == agent ==>
                      matchRoot != "" && store.rows[id].env.root != matchRoot)
    {
      hide Backed, Sound, Inv, Registered, InTurn, CaughtUp, Housekept, Progressed, ClaimedBy, TakesOldest,
           LeasesOut;
      var opts := ClaimOptions(limit, leaseSeconds, matchRoot);
      NotifyFailedSenders(now);
      ghost var held := entries;
      noticed := store.ledger;
      BackedKeys(store, used, birth, planted);
      var messages;
      messages, at := PullNow(agent, opts, now);
      HousekeptKeepsCaughtUp(entries, parkedAt, noticed, store.ledger, now, now + RETENTION_SECONDS, None);
      ClaimIsOldest(noticed, store.ledger, agent, opts, at, store.Lim(), messages);
      ClaimedLease(limit, leaseSeconds, matchRoot, store.leaseSeconds);
      BackedKeys(store, used, birth, planted);
      if messages != [] || waitSeconds <= 0.0 {
        return Answered(messages), noticed, at;
      }
      EmptyMeansNothingReady(noticed, store.ledger, agent, opts, at, store.Lim());
      BackedKeys(store, used, birth, planted);
      var parked := WaitFor(agent, opts);
      if parked.None? {
        return Answered([]), noticed, at;
      }
      ParkProgresses(old(entries), held, parked.value, agent, opts);
      return Parked(parked.value), noticed, at;
    }

    /** POST /v1/ack. */
    method AckMessage(agent: Agent, id: Id, outcome: Outcome, error: string, token: Option<Token>, now: Time)
      returns (refused: Option<Error>)
      requires Valid()
      modifies this`waiters, this`entries, this`waking, this`used, this`birth, store
      ensures Valid() && entries.Keys == old(entries).Keys && Progressed(old(entries), entries)
      ensures refused == AckError(old(store.rows), id, agent, outcome, now, token)
      ensures refused.None? <==> Acknowledges(old(store.rows), id, agent, outcome, now, token)
      ensures refused.None? && (outcome == Done || !config.notifyFailedToSender) ==>
                Settles(old(store.rows), store.rows, id, outcome, error, now, store.maxAttempts)
      ensures refused.Some? ==> store.ledger == old(store.ledger)
      ensures refused.None? ==>
                var acked := Step(old(store.ledger), Settle(id, agent, outcome, error, now, token), store.Lim());
                if outcome == Retry && config.notifyFailedToSender then Told(acked.rows, store.rows)
                  else store.ledger == acked
    {
      hide Sound, Inv, Registered, InTurn, CaughtUp, Housekept, Progressed, AckError, Acknowledges, Settles, AckRow;
      ProgressedRefl(entries);
      BackedKeys(store, used, birth, planted);
      SingleSound(store.ledger, Settle(id, agent, outcome, error, now, token), store.Lim(), birth, planted);
      QuietKeepsCaughtUp(entries, parkedAt, store.ledger, Settle(id, agent, outcome, error, now, token), store.Lim());
      AckVerdict(store.rows, id, agent, outcome, now, token);
      refused := store.Ack(id, agent, outcome, error, now, token);
      if refused.Some? {
        RefusedIsNoStep(old(store.ledger), id, agent, outcome, error, now, token, store.Lim());
      }
      hide Step;
      BackedKeys(store, used, birth, planted);
      if refused.None? && outcome == Retry {
        NotifyFailedSenders(now);
      }
    }

    /** POST /v1/lease/renew. */
    method RenewLease(agent: Agent, id: Id, token: Token, seconds: real, now: Time) returns (until: Option<Time>)
      requires Valid()
      modifies store
      ensures Valid()
      ensures until.Some? <==>
                && id in old(store.rows) && old(store.rows)[id].env.target == agent
                && InTime(old(store.rows)[id], now, Some(token))
      ensures until.Some? ==> Extends(now, if seconds == 0.0 then store.leaseSeconds else seconds, until.value)
      ensures store.ledger == Step(old(store.ledger), Extend(id, agent, token, now, seconds), store.Lim())
    {
      hide Sound, Inv, Registered, InTurn, CaughtUp;
      BackedKeys(store, used, birth, planted);
      SingleSound(store.ledger, Extend(id, agent, token, now, seconds), store.Lim(), birth, planted);
      QuietKeepsCaughtUp(entries, parkedAt, store.ledger, Extend(id, agent, token, now, seconds), store.Lim());
      until := store.RenewLease(id, agent, Some(token), now, seconds);
    }

    /** POST /v1/admin/requeue; 200, 403 or 404. */
    method RequeueMessage(agent: Agent, id: Id, now: Time) returns (status: nat)
      requires Valid()
      modifies this`waiters, this`entries, this`waking, store
      ensures Valid() && entries.Keys == old(entries).Keys && Progressed(old(entries), entries)
      ensures var rows := old(store.rows);
              && (status == 404 || status == 403 || status == 200)
              && (status == 403 <==>
                    && id in rows && agent !in config.adminAgents
                    && (rows[id].env.target != agent || rows[id].env.kind == Reply || rows[id].status == Completed))
              && (status == 200 ==> id in rows && rows[id].status != Queued)
              && (status == 404 ==> id !in rows || rows[id].status == Queued)
      ensures status != 200 ==> store.ledger == old(store.ledger)
      ensures status == 200 ==>
                && id in old(store.rows) && old(store.rows)[id].env.target !in waiters
                && Woken(Step(old(store.ledger), Revive(id), store.Lim()), store.ledger, old(waiters),
                         old(store.rows)[id].env.target, entries, now, store.Lim())
    {
      hide Sound, Inv, Registered, InTurn, CaughtUp, Housekept, Progressed;
      ProgressedRefl(entries);
      BackedKeys(store, used, birth, planted);
      if id !in store.rows {
        return 404;
      }
      var existing := store.rows[id];
      if !MayRequeue(config, existing, agent) {
        return 403;
      }
      SingleSound(store.ledger, Revive(id), store.Lim(), birth, planted);
      ArrivalIsExempt(entries, parkedAt, store.ledger, Revive(id), store.Lim(), existing.env.target);
      var changed := store.Requeue(id);
      if !changed {
        return 404;
      }
      var launches := *;
      var _, _ := WakeAgent(existing.env.target, now, launches);
      return 200;
    }

    /** POST /v1/admin/cancel; 200, 403 or 404. */
    method CancelMessage(agent: Agent, id: Id, now: Time) returns (status: nat)
      requires Valid()
      modifies store
      ensures Valid()
      ensures var rows := old(store.rows);
              && (status == 404 || status == 403 || status == 200)
              && (status == 403 <==>
                    && id in rows && agent !in config.adminAgents
                    && (rows[id].env.origin != agent || rows[id].env.kind == Reply))
              && (status == 200 ==> id in rows && rows[id].status != Completed)
              && (status == 404 ==> id !in rows || rows[id].status == Completed)
      ensures store.ledger == if status == 200 then Step(old(store.ledger), Withdraw(id, now), store.Lim())
          else old(store.ledger)
    {
      hide Sound, Inv, Registered, InTurn, CaughtUp;
      BackedKeys(store, used, birth, planted);
      if id !in store.rows {
        return 404;
      }
      if !MayCancel(config, store.rows[id], agent) {
        return 403;
      }
      SingleSound(store.ledger, Withdraw(id, now), store.Lim(), birth, planted);
      QuietKeepsCaughtUp(entries, parkedAt, store.ledger, Withdraw(id, now), store.Lim());
      var changed := store.Cancel(id, now);
      if !changed {
        return 404;
      }
      return 200;
    }

    // -- timers and connections ------------------------------------------

    /** The deadline of a held pull: a last claim, empty or not. */
    method DeadlinePasses(w: nat, now: Time)
      requires Valid() && w in entries
      modifies this`waiters, this`entries, store
      ensures Valid() && entries.Keys == old(entries).Keys && Progressed(old(entries), entries)
      ensures entries[w].done && entries == old(entries)[w := entries[w]]
      ensures if old(entries)[w].done then store.ledger == old(store.ledger)
              else AnsweredBy(old(store.ledger), store.ledger, entries[w], now, store.Lim())
    {
      hide Backed, Registered, InTurn, CaughtUp, Progressed, Housekept, ClaimedBy;
      ProgressedRefl(entries);
      ghost var at, answer := SettleWaiter(w, now);
      assert !old(entries)[w].done ==>
        LastAnswer(entries[w]) == answer &&
        ClaimedBy(old(store.ledger), store.ledger, entries[w].agent, entries[w].opts, at, store.Lim(),
          LastAnswer(entries[w]));
      if !old(entries)[w].done {
        ResolveProgresses(old(entries), w, answer);
        ResolveKeepsCaughtUp(old(entries), parkedAt, old(store.ledger), w, answer);
        WithoutKeepsTurns(old(waiters), old(entries)[w].agent, w, parkedAt);
      }
      HousekeptKeepsCaughtUp(entries, parkedAt, old(store.ledger), store.ledger, now, now + RETENTION_SECONDS, None);
    }

    method ConnectionCloses(w: nat)
      requires Valid() && w in entries
      modifies this`waiters, this`entries
      ensures Valid() && entries.Keys == old(entries).Keys && Progressed(old(entries), entries)
      ensures entries == if old(entries)[w].done then old(entries) else old(entries)[w := Resolve(old(entries)[w], [])]
    {
      hide Backed, Registered, InTurn, CaughtUp, Progressed;
      ProgressedRefl(entries);
      if !entries[w].done {
        ResolveProgresses(entries, w, []);
        ResolveKeepsCaughtUp(entries, parkedAt, store.ledger, w, []);
        WithoutKeepsTurns(waiters, entries[w].agent, w, parkedAt);
      }
      SettleWaiterEmpty(w);
    }

    /** The broker's own sweep, every 60 seconds. */
    method SweepTick(now: Time)
      requires Valid()
      modifies this`waiters, this`entries, this`waking, this`used, this`birth, store
      ensures Valid() && entries.Keys == old(entries).Keys && Progressed(old(entries), entries)
      ensures config.notifyFailedToSender ==> Told(Sweep(old(store.rows), now, store.maxAttempts), store.rows)
      ensures !config.notifyFailedToSender ==> SweptTable(old(store.rows), store.rows, now, store.maxAttempts)
      ensures config.notifyFailedToSender ==>
                forall id :: id in old(store.rows) && id in store.rows && Overdue(old(store.rows)[id], now) ==>
                  && store.rows[id].notifiedAt.Some?
                  && (Clear(old(store.rows), id, old(store.rows)[id].env) && old(store.rows)[id].notifiedAt.None? ==>
                        OneNotice(store.rows, id, old(store.rows)[id].env))
    {
      hide Sound, Inv, Registered, InTurn, CaughtUp, Housekept;
      BackedKeys(store, used, birth, planted);
      CleanSound(store.ledger, now, store.Lim(), birth, planted);
      store.Cleanup(now);
      HousekeptKeepsCaughtUp(entries, parkedAt, old(store.ledger), store.ledger, now, now, None);
      NotifyFailedSenders(now);
      BackedKeys(store, used, birth, planted);
      if config.notifyFailedToSender {
        OverdueAreTold(old(store.rows), now, store.maxAttempts, store.rows);
      }
    }

    /** Shutting down: every held pull is answered with nothing, agent by agent. */
    method ReleaseWaiters()
      requires Valid()
      modifies this`waiters, this`entries
      ensures Valid() && waiters == map[] && entries.Keys == old(entries).Keys
      ensures forall w :: w in old(entries) ==>
                entries[w] == if old(entries)[w].done then old(entries)[w] else Resolve(old(entries)[w], [])
    {
      hide Backed, Resolve;
      ghost var before := entries;
      var agents := waiters.Keys;
      while agents != {}
        invariant Valid() && agents <= waiters.Keys && waiters.Keys <= agents
        invariant Emptied(before, entries)
        decreases agents
      {
        var agent :| agent in agents;
        ReleaseAgent(agent, before);
        agents := agents - {agent};
      }
      AllReleased(waiters, before, entries);
      waiters := map[];
    }

    /** Answers every pull held for the agent with nothing. */
    method ReleaseAgent(agent: Agent, ghost before: Entries)
      requires Valid() && agent in waiters && Emptied(before, entries)
      modifies this`waiters, this`entries
      ensures Valid() && waiters == old(waiters) - {agent} && Emptied(before, entries)
    {
      hide Backed, Registered, InTurn, CaughtUp, Emptied;
      RegisteredList(waiters, entries, agent);
      var list := waiters[agent];
      var i := 0;
      while i < |list|
        invariant i <= |list| && Valid() && Emptied(before, entries)
        invariant waiters == WithList(old(waiters), agent, list[i..])
      {
        AdvanceList(old(waiters), agent, list, i);
        RegisteredHead(waiters, entries, agent);
        WithoutHead(waiters, agent);
        ResolveProgresses(entries, list[i], []);
        ResolveKeepsCaughtUp(entries, parkedAt, store.ledger, list[i], []);
        WithoutKeepsTurns(waiters, agent, list[i], parkedAt);
        EmptiedOneMore(before, entries, list[i]);
        SettleWaiterEmpty(list[i]);
        i := i + 1;
      }
    }

    /** A woken worker exits, or its guard fires. */
    method WorkerExits(agent: Agent)
      requires Valid()
      modifies this`waking
      ensures Valid() && waking == old(waking) - {agent}
    {
      hide Backed, Registered, InTurn, CaughtUp;
      waking := waking - {agent};
    }
  }

  predicate MayRequeue(config: Config, row: Row, agent: Agent) {
    agent in config.adminAgents || (row.env.target == agent && row.env.kind == Request && row.status != Completed)
  }

  predicate MayCancel(config: Config, row: Row, agent: Agent) {
    agent in config.adminAgents || (row.env.origin == agent && row.env.kind == Request)
  }

  /** A pull that came back empty has left nothing its filter could claim. */
  lemma EmptyMeansNothingReady(l: Ledger, next: Ledger, agent: Agent, opts: PullOptions, at: Time, c: Limits)
    requires ClaimedBy(l, next, agent, opts, at, c, [])
    ensures forall id :: id in next.rows && next.rows[id].status == Queued && next.rows[id].env.target == agent ==>
              opts.matchRoot != "" && next.rows[id].env.root != opts.matchRoot
  {
    hide ClaimedBy;
    ClaimIsOldest(l, next, agent, opts, at, c, []);
    assert forall id :: id in next.rows ==> !Hands([], id);
  }

  /** Leases are asked for in whole seconds between fifteen and an hour. */
  lemma ClaimedLease(limit: Option<int>, leaseSeconds: Option<real>, matchRoot: string, lease: real)
    ensures var opts := ClaimOptions(limit, leaseSeconds, matchRoot);
            (if opts.leaseSeconds.Some? then opts.leaseSeconds.value else lease) ==
              if leaseSeconds.None? then lease
              else if leaseSeconds.value.Floor < 15 then 15.0
              else if leaseSeconds.value.Floor > 3600 then 3600.0
              else leaseSeconds.value.Floor as real
  {
  }

  /** A claim takes the oldest messages that wait for it, and leases them out. */
  lemma ClaimIsOldest(l: Ledger, next: Ledger, agent: Agent, opts: PullOptions, at: Time, c: Limits,
                      messages: seq<Delivery>)
    requires ClaimedBy(l, next, agent, opts, at, c, messages)
    ensures TakesOldest(Sweep(l.rows, at, c.max), messages, agent, opts.matchRoot,
                        if opts.limit == 0 then 8 else if opts.limit < 1 then 1 else opts.limit)
    ensures LeasesOut(Sweep(l.rows, at, c.max), next.rows, messages,
                      at + (if opts.leaseSeconds.Some? then opts.leaseSeconds.value else c.lease), l.draw)
  {
    hide TakesOldest, LeasesOut, Step, Chosen, Sweep;
    PollIsPull(l, Poll(agent, at, opts), c);
    PullMissesNothing(l.rows, agent, at, opts, c.max, c.lease, l.draw);
  }

  lemma RefusedIsNoStep(l: Ledger, id: Id, agent: Agent, outcome: Outcome, error: string, now: Time,
                        token: Option<Token>, c: Limits)
    requires AckError(l.rows, id, agent, outcome, now, token).Some?
    ensures Step(l, Settle(id, agent, outcome, error, now, token), c) == l
  {
  }

  lemma SingleSound(l: Ledger, e: Event, c: Limits, birth: map<Id, nat>, planted: set<(Agent, Id)>)
    requires l.rows.Keys <= l.hist.Keys && Sound(l, birth, planted)
    requires e.Settle? || e.Extend? || e.Revive? || e.Withdraw?
    ensures Sound(Step(l, e, c), birth, planted) && Step(l, e, c).hist.Keys == l.hist.Keys
  {
    SingleTends(l, e, c);
    TendedSound(l, Step(l, e, c), birth, planted);
  }

  lemma CleanSound(l: Ledger, now: Time, c: Limits, birth: map<Id, nat>, planted: set<(Agent, Id)>)
    requires l.rows.Keys <= l.hist.Keys && Sound(l, birth, planted)
    ensures Sound(Step(l, Clean(now), c), birth, planted) && Housekept(l, Step(l, Clean(now), c), now, now)
  {
    PollHousekeeps(l, Clean(now), now, now, c);
    HousekeptIsTended(l, Step(l, Clean(now), c), now, now);
    TendedSound(l, Step(l, Clean(now), c), birth, planted);
  }

  // -- what a send stores, column by column ------------------------------

  /** The sender's grants let it address the target in this mode; write mode needs an explicit one. */
  predicate Granted(config: Config, agent: Agent, target: Agent, mode: Mode) {
    if agent !in config.agents then mode == Read || mode == Continue
    else
      var entry := config.agents[agent];
      && (mode == Write ==> entry.allowedWrite.Some? && target in entry.allowedWrite.value)
      && (mode == Continue && entry.allowedContinue.Some? ==> target in entry.allowedContinue.value)
      && (mode == Read && entry.allowedRead.Some? ==> target in entry.allowedRead.value)
      && ((mode == Continue && entry.allowedContinue.None?) || (mode == Read && entry.allowedRead.None?) ==>
            entry.allowed.Some? ==> target in entry.allowed.value)
  }

  /** The fields every send needs. */
  predicate Complete(req: SendRequest) {
    && req.sharedWrite.Some? && req.kind.Some? && req.key.Some? && 0 < |req.body| <= 48000
    && (req.kind == Some(Request) ==> req.mode.Some?) && (req.kind == Some(Reply) ==> req.parent.Some?)
  }

  /** A request the sender may make, or a reply to a stored message from the target to the sender. */
  predicate Acceptable(config: Config, rows: Rows, agent: Agent, req: SendRequest) {
    && Complete(req) && req.origin == agent
    && (req.kind == Some(Request) ==> Granted(config, agent, req.target, req.mode.value))
    && (req.kind == Some(Reply) ==>
          && req.parent.value in rows
          && rows[req.parent.value].env.target == agent && rows[req.parent.value].env.origin == req.target)
  }

  /** Exactly the acceptable sends are accepted; only a reply to nothing that is stored is not found. */
  lemma SendStatusIff(config: Config, rows: Rows, agent: Agent, req: SendRequest)
    ensures var status := SendStatus(config, rows, agent, req);
            && (status == 200 <==> Acceptable(config, rows, agent, req))
            && (status == 404 <==>
                  Complete(req) && req.origin == agent && req.kind == Some(Reply) && req.parent.value !in rows)
            && (status == 403 <==>
                  req.sharedWrite.Some? && (req.origin != agent || (Complete(req) && status != 200 && status != 404)))
            && (status == 200 || status == 400 || status == 403 || status == 404)
  {
  }

  /** The whole seconds asked for, a week if none are, but no less than a minute and no more than thirty days. */
  predicate LivesFor(ttl: real, asked: real) {
    if asked == 0.0 then ttl == 604800.0
    else ttl == if asked.Floor < 60 then 60.0 else if asked.Floor > 2592000 then 2592000.0 else asked.Floor as real
  }

  /**
   * The message says what its sender has said. A request carries its own conversation; a reply takes
   * that of its parent, and no write privileges.
   */
  predicate AsSent(env: Envelope, rows: Rows, agent: Agent, req: SendRequest, freshRoot: string, now: Time) {
    && env.origin == agent && env.target == req.target && Some(env.kind) == req.kind && Some(env.key) == req.key
    && env.body == req.body && env.context == req.context && env.parent == req.parent
    && env.created == now && LivesFor(env.expires - now, req.ttl)
    && (env.kind == Request ==>
          && env.root == (if req.root.Some? then req.root.value else freshRoot)
          && env.sessionRef == req.sessionRef && Some(env.mode) == req.mode
          && Some(env.sharedWrite) == req.sharedWrite && env.topic == req.topic)
    && (env.kind == Reply ==>
          && env.parent.Some? && env.parent.value in rows && !env.sharedWrite
          && env.root == rows[env.parent.value].env.root && env.topic == rows[env.parent.value].env.topic
          && env.sessionRef == rows[env.parent.value].env.sessionRef && env.mode == rows[env.parent.value].env.mode)
  }

  /**
   * What an accepted send is worth: the message is as it was sent; write mode only with an explicit grant,
   * no write privileges in a reply, a life of a minute to thirty days, and for a reply the conversation of a
   * parent of its own.
   */
  lemma AcceptedSend(config: Config, rows: Rows, agent: Agent, req: SendRequest, freshRoot: string, now: Time)
    requires SendStatus(config, rows, agent, req) == 200
    ensures var env := SentEnvelope(config, rows, agent, req, freshRoot, now);
            && AsSent(env, rows, agent, req, freshRoot, now)
            && now + TTL_MIN_SECONDS <= env.expires <= now + RETENTION_SECONDS
            && (env.kind == Request && env.mode == Write ==>
                  agent in config.agents && config.agents[agent].allowedWrite.Some? &&
                    env.target in config.agents[agent].allowedWrite.value)
            && Routed(rows, env)
            && (env.sharedWrite ==> env.kind == Request)
  {
  }

  predicate PartAt(s: string, part: string, i: nat) {
    i + |part| <= |s| && s[i..i + |part|] == part
  }

  ghost predicate Contains(s: string, part: string) {
    exists i :: PartAt(s, part, i)
  }

  lemma ContainsParts(a: string, x: string, b: string, y: string, c: string, z: string)
    ensures var s := a + x + b + y + c + z;
            Contains(s, x) && Contains(s, y) && Contains(s, z)
  {
    var s := a + x + b + y + c + z;
    assert s == a + x + (b + y + c + z) && PartAt(a + x + (b + y + c + z), x, |a|);
    assert s == a + x + b + y + (c + z) && PartAt(a + x + b + y + (c + z), y, |a + x + b|);
    assert PartAt(s, z, |a + x + b + y + c|);
  }

  /**
   * The notice about a request is a reply to it that mirrors it, and lives a week, or as long as messages
   * are configured to live if that is longer.
   */
  lemma NoticeIs(config: Config, id: Id, row: Row, now: Time)
    ensures var env := NoticeEnvelope(config, id, row, now);
            && NoticeAbout(env, id, row.env) && env.created == now && env.context == ""
            && Contains(env.body, if |row.env.body| <= 400 then row.env.body else row.env.body[..400])
            && Contains(env.body, row.env.target)
            && (row.status != Status.Expired && row.lastError.Some? && |row.lastError.value| <= 300 ==>
                  Contains(env.body, row.lastError.value))
            && env.expires - now ==
                 if config.messageTtlDays < 7 then 604800.0 else 86400.0 * config.messageTtlDays as real
  {
    var reason := if row.status == Status.Expired then "expired in the queue"
      else First300(Coalesce(row.lastError, "unknown"));
    var quoted := if |row.env.body| <= 400 then row.env.body else row.env.body[..400];
    ContainsParts("undelivered to ", row.env.target, ": ", reason, "\n", quoted);
    hide Contains;
  }

  /** A send that passes the checks of the route leaves the ledger sound. */
  lemma RouteSendSound(config: Config, l: Ledger, agent: Agent, req: SendRequest, freshRoot: string, now: Time, id: Id,
                       c: Limits, birth: map<Id, nat>, planted: set<(Agent, Id)>)
    requires l.rows.Keys <= l.hist.Keys && Sound(l, birth, planted) && id !in l.hist
    requires SendStatus(config, l.rows, agent, req) == 200
    ensures var env := SentEnvelope(config, l.rows, agent, req, freshRoot, now);
            && env.origin == agent && env.target == req.target && Some(env.key) == req.key
            && (!Known(l.rows, env.origin, env.key) ==>
                  Sound(Step(l, Send(id, env), c), birth[id := l.created], planted + Plants(env)))
  {
    var env := SentEnvelope(config, l.rows, agent, req, freshRoot, now);
    if !Known(l.rows, env.origin, env.key) {
      SendSound(l, id, env, c, birth, planted);
    }
  }

  lemma RoundStarts(start: Ledger, failed: set<Id>, now: Time)
    requires start.rows.Keys <= start.hist.Keys
    requires forall id :: id in failed ==> id in start.rows && Statements.Undelivered(start.rows[id])
    ensures RoundProgress(start, start, failed, {}, now)
  {
  }

  lemma RoundPending(l: Ledger, start: Ledger, pending: set<Id>, dealt: set<Id>, now: Time, id: Id)
    requires RoundProgress(l, start, pending, dealt, now) && id in pending
    ensures id in start.rows && id in l.hist && Statements.Undelivered(start.rows[id])
    ensures id in l.rows ==> l.rows[id] == start.rows[id]
  {
  }

  lemma RoundEnds(store: MessageStore, used: set<Id>, birth: map<Id, nat>, planted: set<(Agent, Id)>, start: Ledger,
                  failed: set<Id>, now: Time)
    requires Backed(store, used, birth, planted) && RoundProgress(store.ledger, start, {}, failed, now)
    requires forall id :: id in failed <==> id in start.rows && Statements.Undelivered(start.rows[id])
    ensures Told(start.rows, store.rows)
    ensures forall id :: id in store.rows && id in start.hist ==> id in start.rows
  {
    hide Sound, Clear, NoticeSent, OneNotice, NoticeAbout;
    forall id | id in failed && id in store.rows
      ensures store.rows[id].notifiedAt.Some?
      ensures Clear(start.rows, id, start.rows[id].env) ==> OneNotice(store.rows, id, start.rows[id].env)
    {
      if Clear(start.rows, id, start.rows[id].env) {
        SentIsOne(store.rows, id, start.rows[id].env, now);
      }
    }
    forall id, m, n | id in failed && id in store.rows && Stands(start.rows, m, id) && m in store.rows &&
      Stands(store.rows, n, id)
      ensures n == m
    {
      assert Stands(store.rows, m, id);
    }
  }

  /** With the place of each notice clear, a round of notices tells every sender. */
  lemma NeverRequeuedAreTold(start: Ledger, birth: map<Id, nat>, planted: set<(Agent, Id)>, after: Rows)
    requires Sound(start, birth, planted) && Told(start.rows, after)
    ensures forall id :: id in start.rows && id in after && start.rows[id].env.kind == Request
                         && start.rows[id].notifiedAt.None?
                         && (start.rows[id].status == Failed || start.rows[id].status == Status.Expired)
                         && id in start.hist && !RequeuedEver(start.hist[id])
                         && (start.rows[id].env.target, id) !in planted ==>
              OneNotice(after, id, start.rows[id].env)
  {
    hide Sound, Clear, OneNotice, RequeuedEver;
    forall id | id in start.rows && Statements.Undelivered(start.rows[id]) && id in start.hist
                && !RequeuedEver(start.hist[id]) && (start.rows[id].env.target, id) !in planted
      ensures Clear(start.rows, id, start.rows[id].env)
    {
      NeverRequeuedIsClear(start, birth, planted, id);
    }
  }

  /** An open request whose time is up. */
  predicate Overdue(r: Row, now: Time) {
    r.env.kind == Request && (r.status == Queued || r.status == Leased) && r.env.expires < now
  }

  /** The round that follows a sweep reports every request whose time was up and that is still stored. */
  lemma OverdueAreTold(before: Rows, now: Time, max: nat, after: Rows)
    requires Told(Sweep(before, now, max), after)
    requires forall id :: id in after && id in before ==> id in Sweep(before, now, max)
    ensures forall id :: id in before && id in after && Overdue(before[id], now) ==>
              && after[id].notifiedAt.Some?
              && (Clear(before, id, before[id].env) && before[id].notifiedAt.None? ==>
                    OneNotice(after, id, before[id].env))
  {
    hide OneNotice;
    var swept := Sweep(before, now, max);
    forall id | id in before && id in after && Overdue(before[id], now)
      ensures swept[id] == before[id].(status := Status.Expired, leaseUntil := None, token := None)
      ensures Clear(before, id, before[id].env) ==> Clear(swept, id, before[id].env)
    {
      if Clear(before, id, before[id].env) {
        forall n ensures !Holds(swept, n, before[id].env.target, Key.Undelivered(id)) {
          assert !Holds(before, n, before[id].env.target, Key.Undelivered(id));
        }
      }
    }
  }

  lemma SameMessages(l: Ledger, next: Ledger, now: Time)
    requires Housekept(l, next, now, now + RETENTION_SECONDS)
    ensures next.hist.Keys == l.hist.Keys
  {
  }

  /** A send stores its message if no stored one has its origin and key, and is no step otherwise. */
  lemma CreateIs(l: Ledger, id: Id, env: Envelope, c: Limits)
    requires id !in l.hist
    ensures var next := Step(l, Send(id, env), c);
            if exists n :: n in l.rows && l.rows[n].env.origin == env.origin && l.rows[n].env.key == env.key
            then next == l
            else !Known(l.rows, env.origin, env.key) && next.hist == l.hist[id := [History.Created]]
                 && next.rows == l.rows[id := Fresh(env)]
  {
    if n :| n in l.rows && l.rows[n].env.origin == env.origin && l.rows[n].env.key == env.key {
      assert Holds(l.rows, n, env.origin, env.key);
    } else {
      SendIs(l, id, env, c);
    }
  }

  /** Housekeeping cannot remove a message that has just been sent. */
  lemma YoungRowStays(l: Ledger, next: Ledger, id: Id, now: Time)
    requires Housekept(l, next, now, now + RETENTION_SECONDS) && id in l.rows
    requires l.rows[id].env.created == now && l.rows[id].completedAt.None?
    ensures id in next.rows && next.rows[id].env == l.rows[id].env
  {
  }

  lemma SameHousekept(l: Ledger, from: Time, to: Time)
    requires l.rows.Keys <= l.hist.Keys
    ensures Housekept(l, l, from, to)
  {
  }
}
