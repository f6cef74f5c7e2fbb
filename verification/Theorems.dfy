/** What holds in every run of the store that starts from an empty table. */
module Theorems {
  import opened Messages
  import opened History
  import opened Runs
  import opened Safety
  import opened Expiry

  /** A ledger some run from the empty table leads to. */
  ghost predicate Reached(l: Ledger, events: seq<Event>, c: Limits) {
    c.max >= 1 && RunsFrom(Empty, events, c) && l == Run(Empty, events, c)
  }

  lemma ReachedInv(l: Ledger, events: seq<Event>, c: Limits)
    requires Reached(l, events, c)
    ensures Inv(l, c)
  {
    assert Inv(Empty, c);
    RunKeeps(Empty, events, c);
  }

  // -- life cycle and attempt budget -------------------------------------

  lemma {:induction false} HeldWasDelivered(h: seq<Entry>, max: nat)
    requires Legal(h, max) && Replay(h, max).Held?
    ensures Replay(h, max).n >= 1
  {
    if !h[|h| - 1].Delivered? {
      HeldWasDelivered(h[..|h| - 1], max);
    }
  }

  /** At every commit a row is in one of the three shapes of the life cycle. */
  predicate LifeCycle(r: Row, max: nat) {
    match r.status
    case Queued => r.attempts < max && r.token.None? && r.leaseUntil.None?
    case Leased => 1 <= r.attempts <= max && r.token.Some? && r.leaseUntil.Some?
    case _ => r.token.None? && r.leaseUntil.None?
  }

  lemma LifeCycleAtEveryCommit(l: Ledger, c: Limits, id: Id)
    requires Inv(l, c) && id in l.rows
    ensures LifeCycle(l.rows[id], c.max)
    ensures l.rows[id].attempts == SinceReset(l.hist[id])
    ensures Count(l.hist[id], IsDelivery) <= c.max * (1 + Count(l.hist[id], IsRequeue))
  {
    assert Faithful(Lookup(l.rows, id), l.hist[id], c.max);
    AttemptsAreDeliveries(l.hist[id], c.max);
    DeliveryBudget(l.hist[id], c.max);
    if Replay(l.hist[id], c.max).Held? {
      HeldWasDelivered(l.hist[id], c.max);
    }
  }

  // -- delivery and credentials ------------------------------------------

  /** Exclusive delivery, over whole runs; messages already purged included. */
  lemma NoDoubleDelivery(l: Ledger, events: seq<Event>, c: Limits, id: Id, i: nat, j: nat)
    requires Reached(l, events, c) && id in l.hist
    requires i < j < |l.hist[id]| && l.hist[id][i].Delivered? && l.hist[id][j].Delivered?
    ensures exists k :: i < k < j && Releases(l.hist[id], i, k)
  {
    ReachedInv(l, events, c);
    assert Faithful(Lookup(l.rows, id), l.hist[id], c.max);
    ExclusiveDelivery(l.hist[id], i, j, c.max);
  }

  /** Over a whole run, each lease token is accepted by at most one acknowledgement. */
  lemma SingleUseCredential(l: Ledger, events: seq<Event>, c: Limits, token: Token, a: Id, i: nat, b: Id, j: nat)
    requires Reached(l, events, c)
    requires a in l.hist && i < |l.hist[a]| && l.hist[a][i].Acked? && l.hist[a][i].credential == Some(token)
    requires b in l.hist && j < |l.hist[b]| && l.hist[b][j].Acked? && l.hist[b][j].credential == Some(token)
    ensures a == b && i == j
  {
    ReachedInv(l, events, c);
    assert Faithful(Lookup(l.rows, a), l.hist[a], c.max);
    assert Faithful(Lookup(l.rows, b), l.hist[b], c.max);
    var da := CredentialIsCurrent(l.hist[a], i, c.max);
    var db := CredentialIsCurrent(l.hist[b], j, c.max);
    assert IssuedAt(l.hist, token, a, da) && IssuedAt(l.hist, token, b, db);
  }

  /**
   * Over a whole run, an accepted token acknowledgement or renewal carries the token of that message's
   * latest delivery and of no other, comes no later than the deadline last set, and has nothing but
   * renewals between.
   */
  lemma AcceptedIsCurrent(l: Ledger, events: seq<Event>, c: Limits, id: Id, j: nat) returns (i: nat)
    requires Reached(l, events, c) && id in l.hist && j < |l.hist[id]| && Credential(l.hist[id][j]).Some?
    ensures i < j && l.hist[id][i].Delivered? && OnlyRenewals(l.hist[id], i, j)
    ensures l.hist[id][j].at <= Deadline(l.hist[id], i, j)
    ensures forall other, k :: IssuedAt(l.hist, Credential(l.hist[id][j]).value, other, k) <==> other == id && k == i
  {
    ReachedInv(l, events, c);
    assert Faithful(Lookup(l.rows, id), l.hist[id], c.max);
    i := CredentialIsCurrent(l.hist[id], j, c.max);
    assert IssuedAt(l.hist, Credential(l.hist[id][j]).value, id, i);
  }

  // -- expiry ------------------------------------------------------------

  /**
   * No message is ever delivered after it has expired; messages already purged included. Each message ever
   * stored counts with the envelope it was sent with, which is the one its row has as long as it is stored.
   */
  lemma NeverDeliveredLate(l: Ledger, events: seq<Event>, c: Limits)
    requires Reached(l, events, c)
    ensures var sent := Sent(Empty, events, c, map[]);
            && sent.Keys == l.hist.Keys
            && (forall id :: id in l.rows ==> id in sent && l.rows[id].env == sent[id])
            && (forall id, k :: id in l.hist && 0 <= k < |l.hist[id]| && l.hist[id][k].Delivered? ==>
                  l.hist[id][k].at <= sent[id].expires)
  {
    assert Inv(Empty, c);
    RunOnTime(Empty, events, c, map[]);
  }

  // -- conservation ------------------------------------------------------

  ghost function PurgedIds(l: Ledger, max: nat): set<Id> {
    set id | id in l.hist && Legal(l.hist[id], max) && Replay(l.hist[id], max).Gone?
  }

  /** Every message ever created is either still in the table or was purged. */
  lemma Conservation(l: Ledger, events: seq<Event>, c: Limits)
    requires Reached(l, events, c)
    ensures l.created == |l.rows| + |PurgedIds(l, c.max)|
  {
    ReachedInv(l, events, c);
    var purged := PurgedIds(l, c.max);
    StoredOrPurged(l, c);
    assert |l.rows.Keys + purged| == |l.rows.Keys| + |purged|;
    assert |l.rows| == |l.rows.Keys| && |l.hist| == |l.hist.Keys|;
  }

  lemma StoredOrPurged(l: Ledger, c: Limits)
    requires Inv(l, c)
    ensures l.hist.Keys == l.rows.Keys + PurgedIds(l, c.max)
    ensures l.rows.Keys !! PurgedIds(l, c.max)
  {
    forall id | id in l.hist ensures id in l.rows <==> id !in PurgedIds(l, c.max) {
      assert Faithful(Lookup(l.rows, id), l.hist[id], c.max);
    }
  }
}
