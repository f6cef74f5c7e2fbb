/** A run of the receiving side in which the key of a reply is taken, and the reply is lost. */
module TakenReplyKey {
  import opened Messages
  import opened Statements
  import opened Pulling
  import opened History
  import opened Runs
  import opened Upkeep
  import opened Handler

  const SETUP := Setup("me", Limits(3, 600.0))
  const ASKED := Envelope("t", None, "a", "me", Kind.Request, "asked", "", Read, false, "", "", Text("k"), 0.0, 900.0)
  /** A request of its own, to somebody else, under the key of the reply to the request 0. */
  const OTHER := Envelope("u", None, "me", "b", Kind.Request, "other", "", Read, false, "", "", ReplyTo(0), 0.0, 900.0)
  const REPLY := Envelope("t", Some(0), "me", "a", Kind.Reply, "done", "", Read, false, "", "", ReplyTo(0), 1.0, 900.0)

  const OPTIONS := PullOptions(8, None, "")
  const GOOD := Result.Result(true, true, 1.0, 2, REPLY, "done", false)
  const ACTIONS := [Elsewhere(Send(0, ASKED)), Elsewhere(Send(1, OTHER)), TickBegins(0),
                    PullAnswered(0, 1.0, OPTIONS, false), Resumes(0, GOOD), Resumes(0, GOOD), Resumes(0, GOOD)]

  const LEASED := Row(ASKED, Leased, 1, Some(601.0), Some(0), None, None, None)
  const DONE := Row(ASKED, Completed, 1, None, None, None, Some(1.0), None)
  const FIRST := Ledger(map[0 := Fresh(ASKED)], map[0 := [Created]], 0, 1)
  const BOTH := Ledger(map[0 := Fresh(ASKED), 1 := Fresh(OTHER)], map[0 := [Created], 1 := [Created]], 0, 2)
  const TAKEN := Ledger(map[0 := LEASED, 1 := Fresh(OTHER)],
                        map[0 := [Created, Delivered(0, 601.0, 1.0)], 1 := [Created]], 2, 2)
  const ACKED := Ledger(map[0 := DONE, 1 := Fresh(OTHER)],
                        map[0 := [Created, Delivered(0, 601.0, 1.0), Acked(None, Done, 1.0)], 1 := [Created]], 2, 2)

  /** A world of that run before its tick, and one in which the tick handles the request. */
  ghost function Idle(l: Ledger, keyed: set<Id>): World {
    World(l, false, map[], {}, map[], keyed, {}, {})
  }

  ghost function Handling(l: Ledger, at: Await, receipts: map<Id, string>): World {
    World(l, true, map[0 := Working([], at)], {0}, receipts, {0}, {}, {})
  }

  const WOKEN := World(BOTH, true, map[0 := Polling], {}, map[], {0}, {}, {})
  const ENDED := World(ACKED, false, map[], {}, map[0 := "done"], {0}, {}, {0})

  ghost predicate Leads(w: World, a: Action, next: World) {
    Allowed(w, SETUP, a) && Act(w, SETUP, a) == next
  }

  /** The tables of that run hold no reply, and from the second message on the key of the reply is taken. */
  lemma KeyIsTaken(l: Ledger)
    requires l == BOTH || l == TAKEN || l == ACKED
    ensures Known(l.rows, "me", ReplyTo(0)) && Stored(l, "me") == {0} && Answered(l.rows, "me") == {}
  {
    assert Holds(l.rows, 1, "me", ReplyTo(0));
    forall id | id in Stored(l, "me") ensures id == 0 {
      var n :| Holds(l.rows, n, "me", ReplyTo(id));
    }
    assert 0 in Stored(l, "me");
  }

  lemma FirstSent()
    ensures Leads(Start, ACTIONS[0], Idle(FIRST, {}))
  {
    assert Step(Empty, Send(0, ASKED), SETUP.limits) == FIRST by {
      assert [] + [Created] == [Created];
      assert FIRST.rows == map[][0 := Fresh(ASKED)];
      assert FIRST.hist == map[][0 := [Created]];
    }
    hide Step;
    assert Stored(FIRST, "me") == {};
    assert Answered(FIRST.rows, "me") == {};
  }

  lemma SendDrawsNothing(l: Ledger, id: Id, env: Envelope, c: Limits)
    ensures Step(l, Send(id, env), c).draw == l.draw
  {
  }

  lemma SecondSent()
    ensures Leads(Idle(FIRST, {}), ACTIONS[1], Idle(BOTH, {0}))
  {
    hide Stored, Answered, Step;
    SendIs(FIRST, 1, OTHER, SETUP.limits);
    assert BOTH.rows == FIRST.rows[1 := Fresh(OTHER)];
    assert BOTH.hist == FIRST.hist[1 := [Created]];
    SendDrawsNothing(FIRST, 1, OTHER, SETUP.limits);
    assert Step(FIRST, Send(1, OTHER), SETUP.limits) == BOTH;
    KeyIsTaken(BOTH);
  }

  lemma TickBegun()
    ensures Leads(Idle(BOTH, {0}), ACTIONS[2], WOKEN)
  {
    hide Stored, Answered;
    KeyIsTaken(BOTH);
  }

  lemma RowStays(env: Envelope)
    requires env == ASKED || env == OTHER
    ensures Tidy(Fresh(env), 1.0, 3) == Fresh(env) && SweepNews(Fresh(env), 1.0, 3) == []
    ensures !Purgeable(Fresh(env), 1.0 - RETENTION_SECONDS)
  {
  }

  lemma NothingToSweep()
    ensures Swept(BOTH, 1.0, 3) == BOTH && Sweep(BOTH.rows, 1.0, 3) == BOTH.rows
  {
    hide Tidy, SweepNews, Purgeable;
    RowStays(ASKED);
    RowStays(OTHER);
    assert Sweep(BOTH.rows, 1.0, 3) == BOTH.rows;
    assert [Created] + [] == [Created];
    assert Swept(BOTH, 1.0, 3).hist == BOTH.hist;
  }

  lemma RequestIsChosen()
    ensures Chosen(BOTH.rows, "me", 1.0, OPTIONS, 3) == [0]
  {
    var ready := ReadyIds(BOTH.rows, "me", 1.0, 3, None);
    assert ready == {0};
    OrderIsUnique(BOTH.rows, ready, [0]);
  }

  lemma RequestIsClaimed()
    ensures Claimed(BOTH, [0], 601.0, 1.0) == TAKEN.(draw := 1)
  {
    assert [0][..0] == [];
    assert Claimed(BOTH, [], 601.0, 1.0) == BOTH;
    assert [Created] + [Delivered(0, 601.0, 1.0)] == [Created, Delivered(0, 601.0, 1.0)];
    assert TAKEN.rows == BOTH.rows[0 := LEASED];
    assert TAKEN.hist == BOTH.hist[0 := [Created, Delivered(0, 601.0, 1.0)]];
  }

  lemma PullGives()
    ensures Batch(BOTH, "me", 1.0, OPTIONS, SETUP.limits) == [Message(0, Kind.Request)]
    ensures Step(BOTH, Poll("me", 1.0, OPTIONS), SETUP.limits) == TAKEN
  {
    hide Sweep, Swept, Chosen, Claimed;
    NothingToSweep();
    RequestIsChosen();
    RequestIsClaimed();
    assert Batch(BOTH, "me", 1.0, OPTIONS, SETUP.limits) == [Message(0, Kind.Request)];
    assert Step(BOTH, Poll("me", 1.0, OPTIONS), SETUP.limits) == TAKEN;
  }

  lemma Pulled()
    ensures Leads(WOKEN, ACTIONS[3], Handling(TAKEN, Turn(0), map[]))
  {
    hide Stored, Answered, Step, Batch;
    KeyIsTaken(TAKEN);
    PullGives();
    assert ACTIONS[3] == PullAnswered(0, 1.0, OPTIONS, false);
    assert Move(WOKEN, SETUP, ACTIONS[3]) == Begin(WOKEN.(ledger := TAKEN), 0, [Message(0, Kind.Request)], false);
    assert WOKEN.ticks[0 := Working([], Turn(0))] == map[0 := Working([], Turn(0))];
    assert [Message(0, Kind.Request)][1..] == [];
  }

  lemma TurnEnded()
    ensures Leads(Handling(TAKEN, Turn(0), map[]), ACTIONS[4], Handling(TAKEN, Answer(0), map[0 := "done"]))
  {
    hide Stored, Answered, Step;
    KeyIsTaken(TAKEN);
  }

  lemma ReplySent()
    ensures Leads(Handling(TAKEN, Answer(0), map[0 := "done"]), ACTIONS[5],
                  Handling(TAKEN, DoneAck(0), map[0 := "done"]))
  {
    hide Stored, Answered, Step, Known;
    KeyIsTaken(TAKEN);
    SendAgain(TAKEN, 2, REPLY, SETUP.limits);
  }

  lemma RequestAcked()
    ensures Leads(Handling(TAKEN, DoneAck(0), map[0 := "done"]), ACTIONS[6], ENDED)
  {
    hide Stored, Answered, Step, AckError;
    AckStored();
    KeyIsTaken(ACKED);
  }

  lemma AckStored()
    ensures AckError(TAKEN.rows, 0, "me", Done, 1.0, None).None?
    ensures Step(TAKEN, Settle(0, "me", Done, "", 1.0, None), SETUP.limits) == ACKED
  {
    assert ACKED.rows == TAKEN.rows[0 := DONE];
    assert [Created, Delivered(0, 601.0, 1.0)] + [Acked(None, Done, 1.0)] == ACKED.hist[0];
    assert ACKED.hist == TAKEN.hist[0 := ACKED.hist[0]];
  }

  /** One step of the run, with what follows it. */
  lemma Onward(w: World, k: nat, next: World, end: World)
    requires k < |ACTIONS| && Leads(w, ACTIONS[k], next)
    requires Feasible(next, SETUP, ACTIONS[k + 1..]) && Play(next, SETUP, ACTIONS[k + 1..]) == end
    ensures Feasible(w, SETUP, ACTIONS[k..]) && Play(w, SETUP, ACTIONS[k..]) == end
  {
    hide Allowed, Act;
    assert ACTIONS[k..][1..] == ACTIONS[k + 1..];
  }

  /**
   * An agent that has used the key of a reply for a request of its own: every step of the handling succeeds,
   * the request is accepted as completed, and no reply to it was ever stored.
   */
  lemma TakenKeyKeepsAnswerOut(actions: seq<Action>)
    requires actions == ACTIONS
    ensures Feasible(Start, SETUP, actions)
    ensures var w := Play(Start, SETUP, actions);
            && 0 in w.completed && 0 in w.ledger.rows && 0 !in w.answered
            && forall n :: n in w.ledger.rows ==> w.ledger.rows[n].env.kind == Kind.Request
  {
    hide Leads, Feasible, Play;
    FirstSent();
    SecondSent();
    TickBegun();
    Pulled();
    TurnEnded();
    ReplySent();
    RequestAcked();
    ReachesEnd(ENDED);
    var receipts := map[0 := "done"];
    Onward(Handling(TAKEN, DoneAck(0), receipts), 6, ENDED, ENDED);
    Onward(Handling(TAKEN, Answer(0), receipts), 5, Handling(TAKEN, DoneAck(0), receipts), ENDED);
    Onward(Handling(TAKEN, Turn(0), map[]), 4, Handling(TAKEN, Answer(0), receipts), ENDED);
    Onward(WOKEN, 3, Handling(TAKEN, Turn(0), map[]), ENDED);
    Onward(Idle(BOTH, {0}), 2, WOKEN, ENDED);
    Onward(Idle(FIRST, {}), 1, Idle(BOTH, {0}), ENDED);
    Onward(Start, 0, Idle(FIRST, {}), ENDED);
    assert ACTIONS[0..] == ACTIONS;
  }

  lemma ReachesEnd(end: World)
    ensures Feasible(end, SETUP, ACTIONS[7..]) && Play(end, SETUP, ACTIONS[7..]) == end
  {
  }
}
