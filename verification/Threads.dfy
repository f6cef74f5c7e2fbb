/** Conversations: following replies to their parents. */
module Threads {
  import opened Messages
  import opened Upkeep

  /** Each message of the chain is a stored reply to the next one. */
  ghost predicate Chain(rows: Rows, ids: seq<Id>) {
    && (forall i :: 0 <= i < |ids| ==> ids[i] in rows)
    && (forall i :: 0 <= i < |ids| - 1 ==>
          rows[ids[i]].env.kind == Reply && rows[ids[i]].env.parent == Some(ids[i + 1]))
  }

  lemma {:induction false} ChainGetsOlder(rows: Rows, birth: map<Id, nat>, ids: seq<Id>, i: nat, j: nat)
    requires Threaded(rows, birth) && Chain(rows, ids) && i < j < |ids|
    ensures ids[i] in birth && ids[j] in birth && birth[ids[j]] < birth[ids[i]]
    decreases j
  {
    if i < j - 1 {
      ChainGetsOlder(rows, birth, ids, i, j - 1);
    }
  }

  /** Following parents never comes back to a message it has seen. */
  lemma ThreadsNeverCycle(rows: Rows, birth: map<Id, nat>, ids: seq<Id>)
    requires Threaded(rows, birth) && Chain(rows, ids)
    ensures forall i, j :: 0 <= i < j < |ids| ==> ids[i] != ids[j]
  {
    forall i, j | 0 <= i < j < |ids| ensures ids[i] != ids[j] {
      ChainGetsOlder(rows, birth, ids, i, j);
    }
  }

  /** A whole thread is one conversation between the same two agents, taking turns. */
  lemma {:induction false} ThreadIsOneConversation(rows: Rows, birth: map<Id, nat>, ids: seq<Id>, j: nat)
    requires Threaded(rows, birth) && Chain(rows, ids) && j < |ids|
    ensures var first, env := rows[ids[0]].env, rows[ids[j]].env;
            && env.root == first.root && env.sessionRef == first.sessionRef
            && env.mode == first.mode && env.topic == first.topic
            && (if j % 2 == 0 then env.origin == first.origin && env.target == first.target
                else env.origin == first.target && env.target == first.origin)
  {
    if j > 0 {
      ThreadIsOneConversation(rows, birth, ids, j - 1);
      assert Answers(rows[ids[j - 1]].env, rows[ids[j]].env);
    }
  }
}
