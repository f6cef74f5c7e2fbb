/**
 * The life of one message as a word over what can happen to it, and the facts
 * that hold of every such word: exclusive delivery, single use of a lease token,
 * and the attempt budget. Runs.dfy shows that the store only ever writes such words.
 */
module History {
  import opened Messages
  import opened Statements

  datatype Entry =
    | Created
    | Delivered(token: Token, until: Time, at: Time)
    | Renewed(token: Token, until: Time, at: Time)
    | Acked(credential: Option<Token>, outcome: Outcome, at: Time)
    | Requeued
    | Cancelled
    | Expired(at: Time)
    | Reclaimed(at: Time)
    | Exhausted
    | Purged

  /** Where a message stands; `n` counts deliveries since creation or the last requeue. */
  datatype Phase =
    | Unborn
    | Waiting(n: nat)
    | Held(n: nat, token: Token, until: Time)
    | Over(n: nat, status: Status)
    | Gone

  predicate Enabled(p: Phase, e: Entry, max: nat) {
    match e
    case Created => p.Unborn?
    case Delivered(_, _, _) => p.Waiting? && p.n < max
    case Renewed(token, _, at) => p.Held? && p.token == token && at <= p.until
    case Acked(credential, outcome, at) =>
      p.Held? && outcome != Unknown && (credential.Some? ==> p.token == credential.value && at <= p.until)
    case Requeued => p.Held? || p.Over?
    case Cancelled => p.Waiting? || p.Held? || (p.Over? && p.status != Completed)
    case Expired(_) => p.Waiting? || p.Held?
    case Reclaimed(at) => p.Held? && p.until < at
    case Exhausted => (p.Waiting? || p.Held?) && p.n >= max
    case Purged => p.Over?
  }

  function After(p: Phase, e: Entry, max: nat): Phase
    requires Enabled(p, e, max)
  {
    match e
    case Created => Waiting(0)
    case Delivered(token, until, _) => Held(p.n + 1, token, until)
    case Renewed(_, until, _) => p.(until := until)
    case Acked(_, outcome, _) =>
      if outcome == Done then Over(p.n, Completed) else if p.n >= max then Over(p.n, Failed) else Waiting(p.n)
    case Requeued => Waiting(0)
    case Cancelled => Over(p.n, Completed)
    case Expired(_) => Over(p.n, Status.Expired)
    case Reclaimed(_) => Waiting(p.n)
    case Exhausted => Over(p.n, Failed)
    case Purged => Gone
  }

  /** A word that the life cycle allows. */
  predicate Legal(h: seq<Entry>, max: nat)
    decreases |h|, 0
  {
    h == [] || (Legal(h[..|h| - 1], max) && Enabled(Replay(h[..|h| - 1], max), h[|h| - 1], max))
  }

  function Replay(h: seq<Entry>, max: nat): Phase
    requires Legal(h, max)
    decreases |h|, 1
  {
    if h == [] then Unborn else After(Replay(h[..|h| - 1], max), h[|h| - 1], max)
  }

  lemma {:induction false} LegalPrefix(h: seq<Entry>, k: nat, max: nat)
    requires Legal(h, max) && k <= |h|
    ensures Legal(h[..k], max)
    ensures k < |h| ==> Enabled(Replay(h[..k], max), h[k], max)
  {
    var last := |h| - 1;
    if k == |h| {
      assert h[..k] == h;
    } else if k < last {
      LegalPrefix(h[..last], k, max);
      assert h[..last][..k] == h[..k];
    }
  }

  lemma Append(h: seq<Entry>, e: Entry, max: nat)
    requires Legal(h, max) && Enabled(Replay(h, max), e, max)
    ensures Legal(h + [e], max) && Replay(h + [e], max) == After(Replay(h, max), e, max)
  {
    assert (h + [e])[..|h|] == h;
  }

  // -- one lease at a time -----------------------------------------------

  predicate OnlyRenewals(h: seq<Entry>, i: nat, j: nat)
    requires j <= |h|
  {
    forall k :: i < k < j ==> h[k].Renewed?
  }

  /** The deadline of the lease given at i, as last renewed before j. */
  function Deadline(h: seq<Entry>, i: nat, j: nat): Time
    requires i < j <= |h| && h[i].Delivered? && OnlyRenewals(h, i, j)
  {
    if j == i + 1 then h[i].until else h[j - 1].until
  }

  /** While nothing but renewals follow a delivery, its lease is held with the deadline last set. */
  lemma {:induction false} HeldWhileRenewed(h: seq<Entry>, i: nat, j: nat, max: nat)
    requires Legal(h, max) && i < j <= |h| && h[i].Delivered? && OnlyRenewals(h, i, j)
    ensures Legal(h[..j], max)
    ensures Replay(h[..j], max).Held?
    ensures Replay(h[..j], max).token == h[i].token && Replay(h[..j], max).until == Deadline(h, i, j)
    decreases j
  {
    LegalPrefix(h, j, max);
    LegalPrefix(h, j - 1, max);
    assert h[..j][..j - 1] == h[..j - 1];
    if j > i + 1 {
      HeldWhileRenewed(h, i, j - 1, max);
    }
  }

  /** A held lease goes back to a delivery with nothing but renewals since. */
  lemma {:induction false} HeldComesFrom(h: seq<Entry>, j: nat, max: nat) returns (i: nat)
    requires j <= |h| && Legal(h, max) && Legal(h[..j], max) && Replay(h[..j], max).Held?
    ensures i < j && h[i].Delivered? && OnlyRenewals(h, i, j)
    ensures Replay(h[..j], max).token == h[i].token && Replay(h[..j], max).until == Deadline(h, i, j)
    decreases j
  {
    LegalPrefix(h, j - 1, max);
    assert h[..j][..j - 1] == h[..j - 1];
    if h[j - 1].Delivered? {
      i := j - 1;
    } else {
      i := HeldComesFrom(h, j - 1, max);
    }
  }

  /** What may end a delivery so that the message can be delivered again. */
  predicate Releases(h: seq<Entry>, i: nat, k: nat)
    requires i < k < |h| && h[i].Delivered?
  {
    || h[k].Requeued?
    || (h[k].Acked? && h[k].outcome == Retry && OnlyRenewals(h, i, k))
    || (h[k].Reclaimed? && OnlyRenewals(h, i, k) && h[k].at > Deadline(h, i, k))
  }

  /** A message that is over is not delivered again without an operator's requeue. */
  lemma {:induction false} OverNeedsRequeue(h: seq<Entry>, k: nat, j: nat, max: nat)
    requires Legal(h, max) && k <= j < |h| && Legal(h[..k], max)
    requires Replay(h[..k], max).Over? || Replay(h[..k], max).Gone?
    requires h[j].Delivered?
    ensures exists r :: k <= r < j && h[r].Requeued?
    decreases j - k
  {
    LegalPrefix(h, k, max);
    LegalPrefix(h, k + 1, max);
    assert h[..k + 1][..k] == h[..k];
    if !h[k].Requeued? {
      OverNeedsRequeue(h, k + 1, j, max);
    }
  }

  /**
   * Exclusive delivery: between two deliveries of a message lies a retry acknowledgement, an
   * operator's requeue, or a sweep at a time past the first delivery's deadline as last renewed.
   */
  lemma ExclusiveDelivery(h: seq<Entry>, i: nat, j: nat, max: nat)
    requires Legal(h, max) && i < j < |h| && h[i].Delivered? && h[j].Delivered?
    ensures exists k :: i < k < j && Releases(h, i, k)
  {
    LegalPrefix(h, j, max);
    if OnlyRenewals(h, i, j) {
      HeldWhileRenewed(h, i, j, max);
      assert false;
    }
    var k := FirstOther(h, i, j);
    HeldWhileRenewed(h, i, k, max);
    LegalPrefix(h, k, max);
    LegalPrefix(h, k + 1, max);
    assert h[..k + 1][..k] == h[..k];
    if !Releases(h, i, k) {
      OverNeedsRequeue(h, k + 1, j, max);
      var r :| k + 1 <= r < j && h[r].Requeued?;
      assert Releases(h, i, r);
    }
  }

  /** Without a requeue in between, a message is returned again only once its lease is over or it was given back. */
  lemma NotReturnedWhileLeased(h: seq<Entry>, i: nat, j: nat, max: nat)
    requires Legal(h, max) && i < j < |h| && h[i].Delivered? && h[j].Delivered?
    requires forall k :: i < k < j ==> !h[k].Requeued?
    ensures exists k :: i < k < j && OnlyRenewals(h, i, k)
              && (if h[k].Acked? then h[k].outcome == Retry else h[k].Reclaimed? && h[k].at > Deadline(h, i, k))
  {
    ExclusiveDelivery(h, i, j, max);
    var k :| i < k < j && Releases(h, i, k);
    assert OnlyRenewals(h, i, k);
  }

  /** A leased message that is requeued a second after its delivery is delivered again, 599 seconds early. */
  const REQUEUED_EARLY: seq<Entry> :=
    [Created, Delivered(0, 600.0, 0.0), Requeued, Delivered(1, 601.0, 1.0)]

  lemma RequeueReturnsEarly(max: nat)
    requires max >= 1
    ensures Legal(REQUEUED_EARLY, max)
  {
    var h := REQUEUED_EARLY;
    assert [] + [h[0]] == [h[0]] && [h[0]] + [h[1]] == [h[0], h[1]];
    assert [h[0], h[1]] + [h[2]] == [h[0], h[1], h[2]] && h == [h[0], h[1], h[2]] + [h[3]];
    Append([], h[0], max);
    Append([h[0]], h[1], max);
    Append([h[0], h[1]], h[2], max);
    Append([h[0], h[1], h[2]], h[3], max);
  }

  lemma {:induction false} FirstOther(h: seq<Entry>, i: nat, j: nat) returns (k: nat)
    requires i < j <= |h| && !OnlyRenewals(h, i, j)
    ensures i < k < j && OnlyRenewals(h, i, k) && !h[k].Renewed?
    decreases j
  {
    if OnlyRenewals(h, i, j - 1) {
      k := j - 1;
    } else {
      k := FirstOther(h, i, j - 1);
    }
  }

  /** The credential an entry was accepted with, if it needed one. */
  function Credential(e: Entry): Option<Token> {
    match e
    case Acked(credential, _, _) => credential
    case Renewed(token, _, _) => Some(token)
    case _ => None
  }

  /**
   * An accepted token acknowledgement or renewal carries the token of the message's latest delivery,
   * comes before that lease's deadline, and has nothing but renewals between.
   */
  lemma CredentialIsCurrent(h: seq<Entry>, j: nat, max: nat) returns (i: nat)
    requires Legal(h, max) && j < |h| && Credential(h[j]).Some?
    ensures i < j && h[i].Delivered? && h[i].token == Credential(h[j]).value
    ensures OnlyRenewals(h, i, j) && h[j].at <= Deadline(h, i, j)
  {
    LegalPrefix(h, j, max);
    i := HeldComesFrom(h, j, max);
  }

  // -- the attempt budget ------------------------------------------------

  function Count(h: seq<Entry>, what: Entry -> bool): nat {
    if h == [] then 0 else Count(h[..|h| - 1], what) + if what(h[|h| - 1]) then 1 else 0
  }

  const IsDelivery := (e: Entry) => e.Delivered?
  const IsRequeue := (e: Entry) => e.Requeued?

  /** Deliveries since creation or the last requeue. */
  function SinceReset(h: seq<Entry>): nat {
    if h == [] then 0 else
      var last := h[|h| - 1];
      if last.Requeued? then 0 else SinceReset(h[..|h| - 1]) + if last.Delivered? then 1 else 0
  }

  /** The attempt counter of a phase counts exactly the deliveries since the last reset. */
  lemma {:induction false} AttemptsAreDeliveries(h: seq<Entry>, max: nat)
    requires Legal(h, max)
    ensures var p := Replay(h, max);
            && (p.Unborn? ==> SinceReset(h) == 0)
            && (p.Waiting? || p.Held? || p.Over? ==> p.n == SinceReset(h))
            && SinceReset(h) <= max
  {
    if h != [] {
      AttemptsAreDeliveries(h[..|h| - 1], max);
    }
  }

  /** A message is delivered at most max times, and max times more for every requeue. */
  lemma {:induction false} DeliveryBudget(h: seq<Entry>, max: nat)
    requires Legal(h, max)
    ensures Count(h, IsDelivery) <= max * Count(h, IsRequeue) + SinceReset(h)
    ensures Count(h, IsDelivery) <= max * (1 + Count(h, IsRequeue))
  {
    AttemptsAreDeliveries(h, max);
    if h != [] {
      DeliveryBudget(h[..|h| - 1], max);
      AttemptsAreDeliveries(h[..|h| - 1], max);
    }
  }
}
