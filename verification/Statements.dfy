/**
 * The prepared statements of the message store, as their set-based meaning.
 * Each UPDATE is a function on one row, applied to every row of the table.
 */
module Statements {
  import opened Messages

  // -- housekeeping ------------------------------------------------------

  function ExpireRow(r: Row, now: Time): Row {
    if Live(r) && r.env.expires < now then r.(status := Expired, leaseUntil := None, token := None) else r
  }

  function ReclaimRow(r: Row, now: Time): Row {
    if r.status == Leased && r.leaseUntil.Some? && r.leaseUntil.value < now
    then r.(status := Queued, leaseUntil := None, token := None) else r
  }

  const EXHAUSTED := "attempts exhausted without acknowledgement"

  function ExhaustRow(r: Row, now: Time, max: nat): Row {
    if Live(r) && r.attempts >= max
    then r.(status := Failed, leaseUntil := None, token := None,
            completedAt := Some(Coalesce(r.completedAt, now)),
            lastError := Some(Coalesce(r.lastError, EXHAUSTED)))
    else r
  }

  predicate Purgeable(r: Row, cutoff: Time) {
    Terminal(r) && Coalesce(r.completedAt, r.env.created) < cutoff
  }

  function Expire(rows: Rows, now: Time): Rows {
    map id | id in rows :: ExpireRow(rows[id], now)
  }

  function Reclaim(rows: Rows, now: Time): Rows {
    map id | id in rows :: ReclaimRow(rows[id], now)
  }

  function Exhaust(rows: Rows, now: Time, max: nat): Rows {
    map id | id in rows :: ExhaustRow(rows[id], now, max)
  }

  function Purge(rows: Rows, cutoff: Time): Rows {
    map id | id in rows && !Purgeable(rows[id], cutoff) :: rows[id]
  }

  /** What the three UPDATEs of a sweep make of one row. */
  function Tidy(r: Row, now: Time, max: nat): Row {
    ExhaustRow(ReclaimRow(ExpireRow(r, now), now), now, max)
  }

  /** A sweep, one row at a time. */
  function Sweep(rows: Rows, now: Time, max: nat): Rows {
    map id | id in rows && !Purgeable(Tidy(rows[id], now, max), now - RETENTION_SECONDS) :: Tidy(rows[id], now, max)
  }

  /** The four set-based statements of a sweep, run in this order, act row by row. */
  lemma SweepIsRowwise(rows: Rows, now: Time, max: nat)
    ensures Purge(Exhaust(Reclaim(Expire(rows, now), now), now, max), now - RETENTION_SECONDS) == Sweep(rows, now, max)
  {
    var exhausted := Exhaust(Reclaim(Expire(rows, now), now), now, max);
    assert forall id :: id in rows ==> exhausted[id] == Tidy(rows[id], now, max);
  }

  /** Where a row stands in its life before retention: what a sweep leaves of it, or nothing. */
  predicate SweptAs(r: Row, left: Option<Row>, now: Time, max: nat) {
    var ended := r.(leaseUntil := None, token := None);
    var start := if r.completedAt.Some? then r.completedAt.value else r.env.created;
    if r.status != Queued && r.status != Leased then
      left == if start < now - 2592000.0 then None else Some(r)
    else if r.env.expires < now then
      left == if start < now - 2592000.0 then None else Some(ended.(status := Expired))
    else if r.attempts >= max then
      if r.completedAt.Some? && start < now - 2592000.0 then left == None
      else
        && left.Some? && left.value.completedAt == Some(if r.completedAt.Some? then start else now)
        && left.value.lastError ==
             Some(if r.lastError.Some? then r.lastError.value else "attempts exhausted without acknowledgement")
        && left.value.(completedAt := None, lastError := None) ==
             ended.(status := Failed, completedAt := None, lastError := None)
    else if r.status == Leased && r.leaseUntil.Some? && r.leaseUntil.value < now then
      left == Some(ended.(status := Queued))
    else
      left == Some(r)
  }

  /**
   * The one fate of each row that the four rules of a sweep amount to: a row that is over stays for thirty
   * days; an open one expires, fails, goes back to the queue or stays, in this order.
   */
  lemma SweepDecides(rows: Rows, now: Time, max: nat)
    ensures Sweep(rows, now, max).Keys <= rows.Keys
    ensures forall id :: id in rows ==>
              SweptAs(rows[id], if id in Sweep(rows, now, max) then Some(Sweep(rows, now, max)[id]) else None, now, max)
  {
    forall id | id in rows
      ensures SweptAs(rows[id], if Purgeable(Tidy(rows[id], now, max), now - RETENTION_SECONDS) then None
                                else Some(Tidy(rows[id], now, max)), now, max)
    {
    }
    hide SweptAs, Tidy, Purgeable;
  }

  /** What a sweep leaves of a whole table. */
  ghost predicate SweptTable(rows: Rows, after: Rows, now: Time, max: nat) {
    && after.Keys <= rows.Keys
    && forall id :: id in rows ==> SweptAs(rows[id], if id in after then Some(after[id]) else None, now, max)
  }

  // -- delivery order ----------------------------------------------------

  /** ORDER BY created_at, message_id. */
  predicate Before(rows: Rows, a: Id, b: Id)
    requires a in rows && b in rows
  {
    rows[a].env.created < rows[b].env.created || (rows[a].env.created == rows[b].env.created && a < b)
  }

  predicate IsFirst(rows: Rows, ids: set<Id>, id: Id)
    requires ids <= rows.Keys
  {
    id in ids && forall other :: other in ids && other != id ==> Before(rows, id, other)
  }

  lemma {:induction false} FirstExists(rows: Rows, ids: set<Id>)
    requires ids <= rows.Keys && ids != {}
    ensures exists id :: IsFirst(rows, ids, id)
    decreases ids
  {
    var id :| id in ids;
    var rest := ids - {id};
    if rest == {} {
      assert ids == {id};
      assert IsFirst(rows, ids, id);
    } else {
      FirstExists(rows, rest);
      var first :| IsFirst(rows, rest, first);
      if Before(rows, id, first) {
        forall other | other in ids && other != id ensures Before(rows, id, other) {
          assert other == first || Before(rows, first, other);
        }
        assert IsFirst(rows, ids, id);
      } else {
        assert IsFirst(rows, ids, first);
      }
    }
  }

  ghost function First(rows: Rows, ids: set<Id>): (id: Id)
    requires ids <= rows.Keys && ids != {}
    ensures id in ids
  {
    FirstExists(rows, ids);
    var id :| id in ids && IsFirst(rows, ids, id);
    id
  }

  /** Sorted strictly by (created_at, message_id); in particular without repeats. */
  ghost predicate Ordered(rows: Rows, ids: seq<Id>) {
    && (forall i :: 0 <= i < |ids| ==> ids[i] in rows)
    && (forall i, j :: 0 <= i < j < |ids| ==> Before(rows, ids[i], ids[j]))
  }

  ghost function DeliveryOrder(rows: Rows, ids: set<Id>): seq<Id>
    requires ids <= rows.Keys
    decreases ids
  {
    if ids == {} then [] else [First(rows, ids)] + DeliveryOrder(rows, ids - {First(rows, ids)})
  }

  /** Delivery order lists the given messages, each once, oldest first. */
  lemma {:induction false} DeliveryOrderLists(rows: Rows, ids: set<Id>)
    requires ids <= rows.Keys
    ensures Ordered(rows, DeliveryOrder(rows, ids)) && |DeliveryOrder(rows, ids)| == |ids|
    ensures forall id :: id in DeliveryOrder(rows, ids) <==> id in ids
    decreases ids
  {
    if ids != {} {
      FirstExists(rows, ids);
      var first := First(rows, ids);
      assert IsFirst(rows, ids, first);
      DeliveryOrderLists(rows, ids - {first});
      var rest := DeliveryOrder(rows, ids - {first});
      assert forall i :: 0 <= i < |rest| ==> rest[i] in ids - {first};
    }
  }

  /** There is only one way to list a set of messages in delivery order. */
  lemma {:induction false} OrderIsUnique(rows: Rows, ids: set<Id>, list: seq<Id>)
    requires ids <= rows.Keys && Ordered(rows, list)
    requires forall id :: id in list <==> id in ids
    ensures list == DeliveryOrder(rows, ids)
    decreases ids
  {
    assert forall i :: 0 <= i < |list| ==> list[i] in ids;
    if list == [] {
      assert ids == {};
    } else {
      assert list[0] in ids;
      FirstExists(rows, ids);
      var first := First(rows, ids);
      assert IsFirst(rows, ids, first);
      assert first in list && list[0] in ids;
      var tail := list[1..];
      forall id | id in tail ensures id in ids - {first} {
        var i :| 0 <= i < |tail| && tail[i] == id;
        assert id == list[i + 1] && Before(rows, list[0], list[i + 1]);
      }
      forall id | id in ids - {first} ensures id in tail {
        var i :| 0 <= i < |list| && list[i] == id;
        assert i > 0 && tail[i - 1] == id;
      }
      OrderIsUnique(rows, ids - {first}, tail);
      assert list == [first] + tail;
    }
  }

  /** Delivery order looks at the envelopes of the listed rows and at nothing else. */
  lemma OrderFrame(rows: Rows, other: Rows, ids: set<Id>)
    requires ids <= rows.Keys && ids <= other.Keys
    requires forall id :: id in ids ==> rows[id].env == other[id].env
    ensures DeliveryOrder(rows, ids) == DeliveryOrder(other, ids)
  {
    var list := DeliveryOrder(rows, ids);
    DeliveryOrderLists(rows, ids);
    assert forall i :: 0 <= i < |list| ==> list[i] in ids;
    OrderIsUnique(other, ids, list);
  }

  // -- the claim statement -----------------------------------------------

  predicate Ready(r: Row, target: Agent, now: Time, max: nat, root: Option<string>) {
    && r.env.target == target && r.status == Queued && r.env.expires >= now && r.attempts < max
    && (root.None? || r.env.root == root.value)
  }

  function ReadyIds(rows: Rows, target: Agent, now: Time, max: nat, root: Option<string>): set<Id> {
    set id | id in rows && Ready(rows[id], target, now, max, root)
  }

  function ClaimRow(r: Row, until: Time, token: Token): Row {
    r.(status := Leased, attempts := r.attempts + 1, leaseUntil := Some(until), token := Some(token))
  }

  /** Claim the listed rows one after the other, with consecutive draws from the token source. */
  function Claim(rows: Rows, ids: seq<Id>, until: Time, draw: Token): Rows
    requires forall i :: 0 <= i < |ids| ==> ids[i] in rows
    ensures Claim(rows, ids, until, draw).Keys == rows.Keys
  {
    if ids == [] then rows else
      var last := |ids| - 1;
      var before := Claim(rows, ids[..last], until, draw);
      before[ids[last] := ClaimRow(before[ids[last]], until, draw + last)]
  }

  /** Claiming distinct rows touches each of them once and leaves every other row alone. */
  lemma {:induction false} ClaimAt(rows: Rows, ids: seq<Id>, until: Time, draw: Token)
    requires forall i :: 0 <= i < |ids| ==> ids[i] in rows
    requires forall i, j :: 0 <= i < j < |ids| ==> ids[i] != ids[j]
    ensures forall i :: 0 <= i < |ids| ==>
              Claim(rows, ids, until, draw)[ids[i]] == ClaimRow(rows[ids[i]], until, draw + i)
    ensures forall id :: id in rows && id !in ids ==> Claim(rows, ids, until, draw)[id] == rows[id]
  {
    if ids != [] {
      var last := |ids| - 1;
      var front := ids[..last];
      ClaimAt(rows, front, until, draw);
      assert ids[last] !in front;
      assert ids == front + [ids[last]];
      forall i | 0 <= i < |ids|
        ensures Claim(rows, ids, until, draw)[ids[i]] == ClaimRow(rows[ids[i]], until, draw + i)
      {
        if i < last { assert front[i] == ids[i]; }
      }
    }
  }

  /** A claim leaves envelopes alone, leases what it lists and nothing else. */
  lemma {:induction false} ClaimEffect(rows: Rows, ids: seq<Id>, until: Time, draw: Token)
    requires forall i :: 0 <= i < |ids| ==> ids[i] in rows
    ensures forall id :: id in rows ==>
              var r := Claim(rows, ids, until, draw)[id];
              && r.env == rows[id].env && r.completedAt == rows[id].completedAt
              && r.lastError == rows[id].lastError && r.notifiedAt == rows[id].notifiedAt
    ensures forall id :: id in rows ==>
              (if id in ids then Claim(rows, ids, until, draw)[id].status == Leased
                                 && Claim(rows, ids, until, draw)[id].attempts > rows[id].attempts
               else Claim(rows, ids, until, draw)[id] == rows[id])
  {
    if ids != [] {
      var last := |ids| - 1;
      ClaimEffect(rows, ids[..last], until, draw);
      assert ids == ids[..last] + [ids[last]];
    }
  }

  // -- the remaining single-row statements -------------------------------

  function CompleteRow(r: Row, now: Time): Row {
    r.(status := Completed, leaseUntil := None, token := None, completedAt := Some(now), lastError := None)
  }

  function RetryQueueRow(r: Row, error: Option<string>): Row {
    r.(status := Queued, leaseUntil := None, token := None, lastError := error)
  }

  function RetryFailRow(r: Row, now: Time, error: string): Row {
    r.(status := Failed, leaseUntil := None, token := None, completedAt := Some(now), lastError := Some(error))
  }

  predicate Requeueable(r: Row) {
    r.status != Queued
  }

  /** `expires_at` and `completed_at` are left as they were. */
  function RequeueRow(r: Row): Row {
    r.(status := Queued, attempts := 0, leaseUntil := None, token := None, notifiedAt := None,
       lastError := Some(Coalesce(r.lastError, "requeued by operator")))
  }

  predicate Cancellable(r: Row) {
    r.status != Completed
  }

  function CancelRow(r: Row, now: Time): Row {
    r.(status := Completed, leaseUntil := None, token := None, completedAt := Some(now),
       lastError := Some(Coalesce(r.lastError, "cancelled by operator")))
  }

  /** The rows getFailedToNotify selects. */
  predicate Undelivered(r: Row) {
    r.env.kind == Request && (r.status == Failed || r.status == Expired) && r.notifiedAt.None?
  }

  // -- the unique index on (origin, idempotency_key) ---------------------

  predicate Holds(rows: Rows, id: Id, origin: Agent, key: Key) {
    id in rows && rows[id].env.origin == origin && rows[id].env.key == key
  }

  ghost predicate UniqueKeys(rows: Rows) {
    forall a, b, origin, key :: Holds(rows, a, origin, key) && Holds(rows, b, origin, key) ==> a == b
  }

  // -- acknowledgement and renewal ---------------------------------------

  datatype Error = Forbidden | LeaseMismatch | BadRequest
  datatype Outcome = Done | Retry | Unknown

  function First300(s: string): string {
    if |s| <= 300 then s else s[..300]
  }

  predicate ActiveLease(r: Row, now: Time, token: Token) {
    r.status == Leased && r.token == Some(token) && r.leaseUntil.Some? && r.leaseUntil.value >= now
  }

  /** Why an acknowledgement is refused, in the order the store checks. */
  function AckError(rows: Rows, id: Id, agent: Agent, outcome: Outcome, now: Time,
                    token: Option<Token>): Option<Error> {
    if id !in rows || rows[id].env.target != agent then Some(Forbidden)
    else if token.Some? && !ActiveLease(rows[id], now, token.value) then Some(LeaseMismatch)
    else if token.None? && rows[id].status != Leased then Some(BadRequest)
    else if outcome == Unknown then Some(BadRequest)
    else None
  }

  /** An acknowledgement of a delivery that is still the agent's: its token, if one is given, is current and in time. */
  predicate Acknowledges(rows: Rows, id: Id, agent: Agent, outcome: Outcome, now: Time, token: Option<Token>) {
    && id in rows && rows[id].env.target == agent && rows[id].status == Leased
    && (outcome == Done || outcome == Retry)
    && (token.Some? ==>
          rows[id].token == token && rows[id].leaseUntil.Some? && now <= rows[id].leaseUntil.value)
  }

  /** Exactly such acknowledgements are accepted; and why the others are refused. */
  lemma AckVerdict(rows: Rows, id: Id, agent: Agent, outcome: Outcome, now: Time, token: Option<Token>)
    ensures var refused := AckError(rows, id, agent, outcome, now, token);
            var ours := id in rows && rows[id].env.target == agent;
            && (refused.None? <==> Acknowledges(rows, id, agent, outcome, now, token))
            && (refused == Some(Forbidden) <==> !ours)
            && (refused == Some(LeaseMismatch) <==>
                  ours && token.Some? && !Acknowledges(rows, id, agent, Done, now, token))
            && (refused == Some(BadRequest) <==>
                  ours && if token.Some? then outcome == Unknown && Acknowledges(rows, id, agent, Done, now, token)
                              else rows[id].status != Leased || outcome == Unknown)
  {
  }

  /** Completed, or waiting again, or failed if it has no attempt left; in any case its lease is over. */
  predicate Acknowledged(r: Row, after: Row, outcome: Outcome, error: string, now: Time, max: nat) {
    var reason := if |error| <= 300 then error else error[..300];
    if outcome == Done then
      after == r.(status := Completed, leaseUntil := None, token := None, completedAt := Some(now), lastError := None)
    else if r.attempts < max then
      after == r.(status := Queued, leaseUntil := None, token := None,
                  lastError := if error == "" then None else Some(reason))
    else
      after == r.(status := Failed, leaseUntil := None, token := None, completedAt := Some(now),
                  lastError := Some(if error == "" then "retry exhausted" else reason))
  }

  /** Of the whole table, one row is acknowledged. */
  predicate Settles(before: Rows, after: Rows, id: Id, outcome: Outcome, error: string, now: Time, max: nat) {
    id in before && id in after && after == before[id := after[id]]
    && Acknowledged(before[id], after[id], outcome, error, now, max)
  }

  function AckRow(r: Row, outcome: Outcome, error: string, now: Time, max: nat): Row
    requires outcome != Unknown
  {
    if outcome == Done then CompleteRow(r, now)
    else if r.attempts >= max then RetryFailRow(r, now, First300(if error == "" then "retry exhausted" else error))
    else RetryQueueRow(r, if error == "" then None else Some(First300(error)))
  }

  predicate CanRenew(rows: Rows, id: Id, agent: Agent, now: Time, token: Token) {
    id in rows && rows[id].env.target == agent && ActiveLease(rows[id], now, token)
  }

  /** Leased under the token, and not past the deadline. */
  predicate InTime(r: Row, now: Time, token: Option<Token>) {
    r.status == Leased && r.token == token && r.leaseUntil.Some? && now <= r.leaseUntil.value
  }

  /** The new deadline: the whole seconds asked for from now, but no less than 15 and no more than an hour. */
  predicate Extends(now: Time, asked: real, until: Time) {
    var whole := asked.Floor;
    until - now == if whole < 15 then 15.0 else if whole > 3600 then 3600.0 else whole as real
  }

  function Max(a: real, b: real): real { if a >= b then a else b }

  function Min(a: real, b: real): real { if a <= b then a else b }

  /** The new deadline of a renewal; `seconds == 0.0` stands for an absent or unusable number. */
  function RenewUntil(now: Time, seconds: real, leaseSeconds: real): Time {
    now + Max(15.0, Min((if seconds == 0.0 then leaseSeconds else seconds).Floor as real, 3600.0))
  }
}
