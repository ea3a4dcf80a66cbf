/**
 A run in which a flush is lost: two requests of one tag, both flushed while the file server works on the first.
 */
module LostFlushRun {
  import opened Common
  import opened Engine
  import opened SharedTags
  import opened LostFlush
  import F = FlushProtocol

  /** A state that some run ends in. */
  ghost predicate Possible(s: State) {
    exists run :: Reachable(GroupClient, run) && Last(run) == s
  }

  lemma Then(s: State, step: Step, s': State)
    requires Possible(s) && Typed(s) && Enabled(s, step) && Allowed(GroupClient, s, step) && s' == Apply(s, step)
    ensures Possible(s') && Typed(s')
  {
    var run :| Reachable(GroupClient, run) && Last(run) == s;
    assert Move(GroupClient, s, step, s');
    var next := run + [s'];
    forall k: nat ensures NextAt(GroupClient, next, k) {
      assert NextAt(GroupClient, run, k);
      if k == |run| { assert next[k - 1] == s && next[k] == s'; }
    }
    assert Last(next) == s';
  }

  lemma Starts()
    ensures Possible(Init)
  {
    var run := [Init];
    forall k: nat ensures NextAt(GroupClient, run, k) {}
    assert Last(run) == Init;
  }

  const FRESH := Past(None, None, [], None, false, None, false, false)

  /** The first request of tag 5: arrived, at the file server, flushed once, and with another behind it. */
  const A0 := Req(5, Plain, false, false, false, false, None, None, None, FRESH.(proc := Some(0)))
  const A1 := A0.(work := true)
  const A2 := A1.(past := A1.past.(handed := true))
  const A3 := A2.(flushreq := Some(1), past := A2.past.(flushers := [1]))
  const A4 := A3.(prev := Some(2))
  const A5 := A4.(responded := true, work := false, past := A4.past.(winner := Some(3)))

  /** The Tflush of the first request. */
  const F0 := Req(6, Tflush(5), false, false, false, false, None, None, None, FRESH.(proc := Some(1)))
  const F1 := F0.(work := true)
  const F2 := F1.(past := F1.past.(handed := true, victim := Some(0)))

  /** The second request of tag 5: arrived, and flushed. */
  const B0 := Req(5, Plain, false, false, false, false, None, None, Some(0), FRESH.(after := Some(0)))
  const B1 := B0.(flushreq := Some(3), past := B0.past.(flushers := [3]))

  /** The Tflush of the second request. */
  const G0 := Req(7, Tflush(5), false, false, false, false, None, None, None, FRESH.(proc := Some(2)))
  const G1 := G0.(work := true)
  const G2 := G1.(past := G1.past.(handed := true, victim := Some(2)))

  lemma WorkedOn()
    ensures Possible(State(map[5 := 0], [A2], [Process(0, Finish)], [], map[5 := [0]]))
  {
    Starts();
    var s1 := State(map[5 := 0], [A0], [Process(0, Begin)], [], map[5 := [0]]);
    assert [0] + Queue(Init, 5) == [0];
    Then(Init, Recv(5, Plain), s1);
    var s2 := s1.(reqs := [A1], acts := [Process(0, Handle)]);
    Then(s1, Run(0, false), s2);
    Then(s2, Run(0, false), s2.(reqs := [A2], acts := [Process(0, Finish)]));
  }

  /** The first Tflush found the first request. */
  lemma FlushedOnce()
    ensures Possible(State(map[5 := 0, 6 := 1], [A3, F2], [Process(0, Finish), Process(1, Judge(0))], [],
                           map[5 := [0], 6 := [1]]))
  {
    WorkedOn();
    var s3 := State(map[5 := 0], [A2], [Process(0, Finish)], [], map[5 := [0]]);
    var s4 := State(map[5 := 0, 6 := 1], [A2, F0], [Process(0, Finish), Process(1, Begin)], [],
                    map[5 := [0], 6 := [1]]);
    assert [1] + Queue(s3, 6) == [1];
    Then(s3, Recv(6, Tflush(5)), s4);
    var s5 := s4.(reqs := [A2, F1], acts := [Process(0, Finish), Process(1, Handle)]);
    Then(s4, Run(1, false), s5);
    LinksFirst(s5);
  }

  lemma LinksFirst(s5: State)
    requires s5 == State(map[5 := 0, 6 := 1], [A2, F1], [Process(0, Finish), Process(1, Handle)], [],
                         map[5 := [0], 6 := [1]])
    requires Possible(s5) && Typed(s5)
    ensures Possible(s5.(reqs := [A3, F2], acts := [Process(0, Finish), Process(1, Judge(0))]))
  {
    assert [1] + A2.past.flushers == [1];
    Then(s5, Run(1, false), s5.(reqs := [A3, F2], acts := [Process(0, Finish), Process(1, Judge(0))]));
  }

  /** Another request queues behind the first, and is flushed too. */
  lemma FlushedTwice()
    ensures Possible(State(map[5 := 2, 6 := 1, 7 := 3], [A4, F2, B1, G2],
                           [Process(0, Finish), Process(1, Judge(0)), Process(3, Judge(2))], [],
                           map[5 := [2, 0], 6 := [1], 7 := [3]]))
  {
    FlushedOnce();
    var s6 := State(map[5 := 0, 6 := 1], [A3, F2], [Process(0, Finish), Process(1, Judge(0))], [],
                    map[5 := [0], 6 := [1]]);
    var s7 := s6.(conn := map[5 := 2, 6 := 1], reqs := [A4, F2, B0], queues := map[5 := [2, 0], 6 := [1]]);
    assert [2] + Queue(s6, 5) == [2, 0];
    Then(s6, Recv(5, Plain), s7);
    FlushesNext(s7);
  }

  lemma FlushesNext(s7: State)
    requires s7 == State(map[5 := 2, 6 := 1], [A4, F2, B0], [Process(0, Finish), Process(1, Judge(0))], [],
                         map[5 := [2, 0], 6 := [1]])
    requires Possible(s7)
    ensures Possible(State(map[5 := 2, 6 := 1, 7 := 3], [A4, F2, B1, G2],
                           [Process(0, Finish), Process(1, Judge(0)), Process(3, Judge(2))], [],
                           map[5 := [2, 0], 6 := [1], 7 := [3]]))
  {
    var c, q := map[5 := 2, 6 := 1, 7 := 3], map[5 := [2, 0], 6 := [1], 7 := [3]];
    var s8 := State(c, [A4, F2, B0, G0], [Process(0, Finish), Process(1, Judge(0)), Process(3, Begin)], [], q);
    assert [3] + Queue(s7, 7) == [3];
    Then(s7, Recv(7, Tflush(5)), s8);
    var s9 := s8.(reqs := [A4, F2, B0, G1], acts := [Process(0, Finish), Process(1, Judge(0)), Process(3, Handle)]);
    Then(s8, Run(2, false), s9);
    LinksNext(s9);
  }

  lemma LinksNext(s9: State)
    requires s9 == State(map[5 := 2, 6 := 1, 7 := 3], [A4, F2, B0, G1],
                         [Process(0, Finish), Process(1, Judge(0)), Process(3, Handle)], [],
                         map[5 := [2, 0], 6 := [1], 7 := [3]])
    requires Possible(s9) && Typed(s9)
    ensures Possible(s9.(reqs := [A4, F2, B1, G2],
                         acts := [Process(0, Finish), Process(1, Judge(0)), Process(3, Judge(2))]))
  {
    assert [3] + B0.past.flushers == [3];
    Then(s9, Run(2, false), s9.(reqs := [A4, F2, B1, G2],
                                acts := [Process(0, Finish), Process(1, Judge(0)), Process(3, Judge(2))]));
  }

  /** The file server answers the first request. */
  lemma Answered()
    ensures Possible(State(map[5 := 2, 6 := 1, 7 := 3], [A5, F2, B1, G2],
                           [Process(0, Finish), Process(1, Judge(0)), Process(3, Judge(2)),
                            Respond(0, Unlink(false))], [],
                           map[5 := [2, 0], 6 := [1], 7 := [3]]))
  {
    FlushedTwice();
    var s10 := State(map[5 := 2, 6 := 1, 7 := 3], [A4, F2, B1, G2],
                     [Process(0, Finish), Process(1, Judge(0)), Process(3, Judge(2))], [],
                     map[5 := [2, 0], 6 := [1], 7 := [3]]);
    var s11 := s10.(acts := s10.acts + [Respond(0, Claim)]);
    Then(s10, Answer(0), s11);
    Then(s11, Run(3, false), s11.(reqs := [A5, F2, B1, G2], acts := s10.acts + [Respond(0, Unlink(false))]));
  }

  /* ---- the flush that is lost ---- */

  const A6 := A5.(past := A5.past.(settled := true))
  const A7 := A6.(flush := true)
  const B2 := B1.(next := None)
  const G3 := G2.(next := Some(1))

  const ACTS12 := [Process(0, Finish), Process(1, Judge(0)), Process(3, Judge(2)), Respond(0, Unlink(false))]
  const S12 := State(map[5 := 2, 6 := 1, 7 := 3], [A5, F2, B1, G2], ACTS12, [], map[5 := [2, 0], 6 := [1], 7 := [3]])
  const S13 := State(S12.conn, [A5, F2, B2, G3], ACTS12[3 := Respond(0, Post(false, Some(2), None))], [],
                     map[5 := [2], 6 := [1], 7 := [3]])
  const S14 := S13.(reqs := [A6, F2, B2, G3], acts := ACTS12[3 := Respond(0, StartNext(Some(2), None))], out := [0])

  const MID := S12.(queues := S12.queues[5 := [2]], reqs := [A5, F2, B2, G2])

  /** The Tflush of the first request gets behind that of the second. */
  lemma HandsOver()
    requires Typed(S12)
    ensures Is(MID, 2) && AllLinked(MID.reqs) && MoveFlushes(MID, 2, Some(1)) == MID.(reqs := [A5, F2, B2, G3])
  {
    forall j | 0 <= j < 4 ensures Engine.Linked(4, MID.reqs[j]) { assert Engine.Linked(4, S12.reqs[j]); }
    assert ChainEnd(MID.reqs, 3, 4) == 3;
  }

  lemma Unlinks()
    requires Typed(S12)
    ensures UnlinkStep(S12, 3, 0, false) == S13
  {
    assert [2, 0][1..] == [0] && [0][1..] == [];
    assert Without([0], 0) == [] && Without([2, 0], 0) == [2];
    HandsOver();
    assert Set(S12.(queues := S12.queues[5 := [2]]), 2, B2) == MID;
  }

  lemma Unlinked13()
    ensures Typed(S12) && Enabled(S12, Run(3, false)) && S13 == Apply(S12, Run(3, false))
    ensures Possible(S13) && Typed(S13)
  {
    Answered();
    Unlinks();
    Then(S12, Run(3, false), S13);
  }

  lemma Replied()
    ensures Typed(S13) && Enabled(S13, Run(3, false)) && S14 == Apply(S13, Run(3, false))
    ensures Possible(S14) && Typed(S14)
  {
    Unlinked13();
    Then(S13, Run(3, false), S14);
  }

  lemma LostAtReply()
    ensures exists lost :: 1 in lost && Inv(S14) && Lost(S14, lost)
  {
    Answered();
    Unlinked13();
    Replied();
    var run :| Reachable(GroupClient, run) && Last(run) == S12;
    HeldRun(run);
    assert F.Flushes(S12, 3, 2);
    LostAtUnlink(S12, 3, 0, false, 2);
    assert F.After(S12.reqs, 0, 0) == Some(0) && F.After(S12.reqs, 0, 1) == Some(1);
    KeepStep(S12, Run(3, false));
    KeepStep(S13, Run(3, false));
    LostStep(S13, Run(3, false), OnChainOf(S12, 0));
  }

  /* ---- on to rest ---- */

  // The first request ends.  Its Tflush looks at it again, and rests.  The second Tflush drops the second request,
  // which has been started meanwhile, and is answered.  All calls return.

  const B3 := B2.(past := B2.past.(proc := Some(4)))
  const B4 := B3.(flush := true)
  const B5 := B4.(responded := true, work := false, past := B4.past.(winner := Some(6)))
  const B6 := B5.(past := B5.past.(settled := true, suppressed := true))
  const B7 := B6.(past := B6.past.(handed := true))
  const F3 := F2.(work := false, saved := true)
  const G4 := G3.(responded := true, work := false, past := G3.past.(winner := Some(7)))
  const G5 := G4.(past := G4.past.(settled := true))

  const S15 := State(map[5 := 2, 6 := 1, 7 := 3], [A6, F2, B3, G3],
                     [Process(0, Finish), Process(1, Judge(0)), Process(3, Judge(2)), Respond(0, Loop(None, 0)),
                      Process(2, Begin)],
                     [0], map[5 := [2], 6 := [1], 7 := [3]])
  const S16 := State(map[5 := 2, 6 := 1, 7 := 3], [A6, F2, B3, G3],
                     [Process(0, Finish), Process(1, Judge(0)), Process(3, Judge(2)), Respond(0, Closed),
                      Process(2, Begin)],
                     [0], map[5 := [2], 6 := [1], 7 := [3]])
  const S17 := State(map[5 := 2, 6 := 1, 7 := 3], [A6, F2, B3, G3],
                     [Process(0, Ended), Process(1, Judge(0)), Process(3, Judge(2)), Respond(0, Closed),
                      Process(2, Begin)],
                     [0], map[5 := [2], 6 := [1], 7 := [3]])
  const S18 := State(map[5 := 2, 6 := 1, 7 := 3], [A7, F2, B3, G3],
                     [Process(0, Ended), Process(1, Calling(5)), Process(3, Judge(2)), Respond(0, Closed),
                      Process(2, Begin), Respond(0, Claim)],
                     [0], map[5 := [2], 6 := [1], 7 := [3]])
  const S19 := State(map[5 := 2, 6 := 1, 7 := 3], [A7, F2, B3, G3],
                     [Process(0, Ended), Process(1, Calling(5)), Process(3, Judge(2)), Respond(0, Closed),
                      Process(2, Begin), Respond(0, Closed)],
                     [0], map[5 := [2], 6 := [1], 7 := [3]])
  const S20 := State(map[5 := 2, 6 := 1, 7 := 3], [A7, F2, B3, G3],
                     [Process(0, Ended), Process(1, Finish), Process(3, Judge(2)), Respond(0, Closed),
                      Process(2, Begin), Respond(0, Closed)],
                     [0], map[5 := [2], 6 := [1], 7 := [3]])
  const S21 := State(map[5 := 2, 6 := 1, 7 := 3], [A7, F3, B3, G3],
                     [Process(0, Ended), Process(1, Ended), Process(3, Judge(2)), Respond(0, Closed), Process(2, Begin),
                      Respond(0, Closed)],
                     [0], map[5 := [2], 6 := [1], 7 := [3]])
  const S22 := State(map[5 := 2, 6 := 1, 7 := 3], [A7, F3, B4, G3],
                     [Process(0, Ended), Process(1, Ended), Process(3, Calling(6)), Respond(0, Closed),
                      Process(2, Begin), Respond(0, Closed), Respond(2, Claim)],
                     [0], map[5 := [2], 6 := [1], 7 := [3]])
  const S23 := State(map[5 := 2, 6 := 1, 7 := 3], [A7, F3, B5, G3],
                     [Process(0, Ended), Process(1, Ended), Process(3, Calling(6)), Respond(0, Closed),
                      Process(2, Begin), Respond(0, Closed), Respond(2, Unlink(true))],
                     [0], map[5 := [2], 6 := [1], 7 := [3]])
  const S24 := State(map[6 := 1, 7 := 3], [A7, F3, B5, G3],
                     [Process(0, Ended), Process(1, Ended), Process(3, Calling(6)), Respond(0, Closed),
                      Process(2, Begin), Respond(0, Closed), Respond(2, Post(true, None, Some(3)))],
                     [0], map[5 := [], 6 := [1], 7 := [3]])
  const S25 := State(map[6 := 1, 7 := 3], [A7, F3, B6, G3],
                     [Process(0, Ended), Process(1, Ended), Process(3, Calling(6)), Respond(0, Closed),
                      Process(2, Begin), Respond(0, Closed), Respond(2, StartNext(None, Some(3)))],
                     [0], map[5 := [], 6 := [1], 7 := [3]])
  const S26 := State(map[6 := 1, 7 := 3], [A7, F3, B6, G3],
                     [Process(0, Ended), Process(1, Ended), Process(3, Calling(6)), Respond(0, Closed),
                      Process(2, Begin), Respond(0, Closed), Respond(2, Loop(Some(3), 0))],
                     [0], map[5 := [], 6 := [1], 7 := [3]])
  const S27 := State(map[6 := 1, 7 := 3], [A7, F3, B6, G3],
                     [Process(0, Ended), Process(1, Ended), Process(3, Calling(6)), Respond(0, Closed),
                      Process(2, Begin), Respond(0, Closed), Respond(2, InLoop(Some(3), 0, 7)), Respond(3, Claim)],
                     [0], map[5 := [], 6 := [1], 7 := [3]])
  const S28 := State(map[6 := 1, 7 := 3], [A7, F3, B6, G4],
                     [Process(0, Ended), Process(1, Ended), Process(3, Calling(6)), Respond(0, Closed),
                      Process(2, Begin),
                      Respond(0, Closed), Respond(2, InLoop(Some(3), 0, 7)), Respond(3, Unlink(false))],
                     [0], map[5 := [], 6 := [1], 7 := [3]])
  const S29 := State(map[6 := 1], [A7, F3, B6, G4],
                     [Process(0, Ended), Process(1, Ended), Process(3, Calling(6)), Respond(0, Closed),
                      Process(2, Begin),
                      Respond(0, Closed), Respond(2, InLoop(Some(3), 0, 7)), Respond(3, Post(false, None, None))],
                     [0], map[5 := [], 6 := [1], 7 := []])
  const S30 := State(map[6 := 1], [A7, F3, B6, G5],
                     [Process(0, Ended), Process(1, Ended), Process(3, Calling(6)), Respond(0, Closed),
                      Process(2, Begin),
                      Respond(0, Closed), Respond(2, InLoop(Some(3), 0, 7)), Respond(3, StartNext(None, None))],
                     [0, 3], map[5 := [], 6 := [1], 7 := []])
  const S31 := State(map[6 := 1], [A7, F3, B6, G5],
                     [Process(0, Ended), Process(1, Ended), Process(3, Calling(6)), Respond(0, Closed),
                      Process(2, Begin),
                      Respond(0, Closed), Respond(2, InLoop(Some(3), 0, 7)), Respond(3, Loop(None, 0))],
                     [0, 3], map[5 := [], 6 := [1], 7 := []])
  const S32 := State(map[6 := 1], [A7, F3, B6, G5],
                     [Process(0, Ended), Process(1, Ended), Process(3, Calling(6)), Respond(0, Closed),
                      Process(2, Begin), Respond(0, Closed), Respond(2, InLoop(Some(3), 0, 7)), Respond(3, Closed)],
                     [0, 3], map[5 := [], 6 := [1], 7 := []])
  const S33 := State(map[6 := 1], [A7, F3, B6, G5],
                     [Process(0, Ended), Process(1, Ended), Process(3, Calling(6)), Respond(0, Closed),
                      Process(2, Begin), Respond(0, Closed), Respond(2, Loop(None, 1)), Respond(3, Closed)],
                     [0, 3], map[5 := [], 6 := [1], 7 := []])
  const S34 := State(map[6 := 1], [A7, F3, B6, G5],
                     [Process(0, Ended), Process(1, Ended), Process(3, Calling(6)), Respond(0, Closed),
                      Process(2, Begin), Respond(0, Closed), Respond(2, Closed), Respond(3, Closed)],
                     [0, 3], map[5 := [], 6 := [1], 7 := []])
  const S35 := State(map[6 := 1], [A7, F3, B6, G5],
                     [Process(0, Ended), Process(1, Ended), Process(3, Finish), Respond(0, Closed), Process(2, Begin),
                      Respond(0, Closed), Respond(2, Closed), Respond(3, Closed)],
                     [0, 3], map[5 := [], 6 := [1], 7 := []])
  const S36 := State(map[6 := 1], [A7, F3, B6, G5],
                     [Process(0, Ended), Process(1, Ended), Process(3, Ended), Respond(0, Closed), Process(2, Begin),
                      Respond(0, Closed), Respond(2, Closed), Respond(3, Closed)],
                     [0, 3], map[5 := [], 6 := [1], 7 := []])
  const S37 := State(map[6 := 1], [A7, F3, B6, G5],
                     [Process(0, Ended), Process(1, Ended), Process(3, Ended), Respond(0, Closed),
                      Process(2, Flushed(8)),
                      Respond(0, Closed), Respond(2, Closed), Respond(3, Closed), Respond(2, Claim)],
                     [0, 3], map[5 := [], 6 := [1], 7 := []])
  const S38 := State(map[6 := 1], [A7, F3, B6, G5],
                     [Process(0, Ended), Process(1, Ended), Process(3, Ended), Respond(0, Closed),
                      Process(2, Flushed(8)),
                      Respond(0, Closed), Respond(2, Closed), Respond(3, Closed), Respond(2, Closed)],
                     [0, 3], map[5 := [], 6 := [1], 7 := []])
  const S39 := State(map[6 := 1], [A7, F3, B6, G5],
                     [Process(0, Ended), Process(1, Ended), Process(3, Ended), Respond(0, Closed), Process(2, Handle),
                      Respond(0, Closed), Respond(2, Closed), Respond(3, Closed), Respond(2, Closed)],
                     [0, 3], map[5 := [], 6 := [1], 7 := []])
  const S40 := State(map[6 := 1], [A7, F3, B7, G5],
                     [Process(0, Ended), Process(1, Ended), Process(3, Ended), Respond(0, Closed), Process(2, Finish),
                      Respond(0, Closed), Respond(2, Closed), Respond(3, Closed), Respond(2, Closed)],
                     [0, 3], map[5 := [], 6 := [1], 7 := []])
  const S41 := State(map[6 := 1], [A7, F3, B7, G5],
                     [Process(0, Ended), Process(1, Ended), Process(3, Ended), Respond(0, Closed), Process(2, Ended),
                      Respond(0, Closed), Respond(2, Closed), Respond(3, Closed), Respond(2, Closed)],
                     [0, 3], map[5 := [], 6 := [1], 7 := []])

  lemma To15()
    ensures Possible(S15) && Typed(S15)
  {
    Replied();
    Then(S14, Run(3, false), S15);
  }

  lemma To16()
    ensures Possible(S16) && Typed(S16)
  {
    To15();
    Then(S15, Run(3, false), S16);
  }

  lemma To17()
    ensures Possible(S17) && Typed(S17)
  {
    To16();
    Then(S16, Run(0, false), S17);
  }

  lemma To18()
    ensures Possible(S18) && Typed(S18)
  {
    To17();
    Then(S17, Run(1, false), S18);
  }

  lemma To20()
    ensures Possible(S20) && Typed(S20)
  {
    To18();
    Then(S18, Run(5, false), S19);
    Then(S19, Run(1, false), S20);
  }

  lemma To21()
    ensures Possible(S21) && Typed(S21)
  {
    To20();
    Then(S20, Run(1, false), S21);
  }

  lemma To22()
    ensures Possible(S22) && Typed(S22)
  {
    To21();
    Then(S21, Run(2, false), S22);
  }

  lemma To23()
    ensures Possible(S23) && Typed(S23)
  {
    To22();
    Then(S22, Run(6, false), S23);
  }

  lemma To24()
    ensures Possible(S24) && Typed(S24)
  {
    To23();
    assert [2][1..] == [] && Without([2], 2) == [];
    Then(S23, Run(6, false), S24);
  }

  lemma To26()
    ensures Possible(S26) && Typed(S26)
  {
    To24();
    Then(S24, Run(6, false), S25);
    Then(S25, Run(6, false), S26);
  }

  lemma To28()
    ensures Possible(S28) && Typed(S28)
  {
    To26();
    Then(S26, Run(6, false), S27);
    Then(S27, Run(7, false), S28);
  }

  lemma To30()
    ensures Possible(S30) && Typed(S30)
  {
    To28();
    assert [3][1..] == [] && Without([3], 3) == [];
    Then(S28, Run(7, false), S29);
    Then(S29, Run(7, false), S30);
  }

  lemma To32()
    ensures Possible(S32) && Typed(S32)
  {
    To30();
    Then(S30, Run(7, false), S31);
    Then(S31, Run(7, false), S32);
  }

  lemma To34()
    ensures Possible(S34) && Typed(S34)
  {
    To32();
    Then(S32, Run(6, false), S33);
    Then(S33, Run(6, false), S34);
  }

  lemma To36()
    ensures Possible(S36) && Typed(S36)
  {
    To34();
    Then(S34, Run(2, false), S35);
    Then(S35, Run(2, false), S36);
  }

  lemma To38()
    ensures Possible(S38) && Typed(S38)
  {
    To36();
    Then(S36, Run(4, false), S37);
    Then(S37, Run(8, false), S38);
  }

  lemma To40()
    ensures Possible(S40) && Typed(S40)
  {
    To38();
    Then(S38, Run(4, false), S39);
    Then(S39, Run(4, false), S40);
  }

  lemma To41()
    ensures Possible(S41) && Typed(S41)
  {
    To40();
    Then(S40, Run(4, false), S41);
  }

  lemma {:induction false} LeadsElsewhere(reqs: seq<Req>, j: Id, m: nat)
    requires |reqs| == 4 && reqs[1].flushreq.None? && reqs[2].flushreq == Some(3) && reqs[3].flushreq.None? && 0 < j < 4
    requires m > 0
    ensures F.After(reqs, j, m).None? || F.After(reqs, j, m) == Some(3)
    decreases m
  {
    if m > 1 { LeadsElsewhere(reqs, j, m - 1); } else { assert F.After(reqs, j, 0) == Some(j); }
  }

  /**
   Once every goroutine is at rest the first request has been answered, and the Tflush that waited for it has not; no
   other request leads to it.
   */
  lemma FlushLostAtRest()
    ensures exists s :: Possible(s) && F.AtRest(s) && AnsweredButNot(s, 0, 1)
                        && forall j :: 0 < j < |s.reqs| ==> !F.OnChain(s.reqs, j, 1)
  {
    To41();
    forall j | 0 < j < |S41.reqs| ensures !F.OnChain(S41.reqs, j, 1) {
      forall m: nat | m > 0 ensures F.After(S41.reqs, j, m) != Some(1) { LeadsElsewhere(S41.reqs, j, m); }
    }
    assert F.AtRest(S41) && AnsweredButNot(S41, 0, 1);
  }

  /** Tflush f found request v, which has its reply while f has none. */
  ghost predicate AnsweredButNot(s: State, v: Id, f: Id) {
    F.Flushes(s, f, v) && v in s.out && f !in s.out
  }

  ghost predicate NeverAnswered(s: State, f: Id) {
    forall run, k :: Reachable(GroupClient, run) && 0 <= k < |run| && run[k] == s ==> f !in Last(run).out
  }

  lemma NeverLater(s: State, lost: set<Id>, f: Id)
    requires Lost(s, lost) && f in lost
    ensures NeverAnswered(s, f)
  {
    forall run, k | Reachable(GroupClient, run) && 0 <= k < |run| && run[k] == s ensures f !in Last(run).out {
      LostForever(run, k, lost);
    }
  }

  /** And it has no answer in any run that goes on from the reply of the first request. */
  lemma FlushLost()
    ensures exists s :: Possible(s) && AnsweredButNot(s, 0, 1) && NeverAnswered(s, 1)
  {
    Replied();
    LostAtReply();
    var lost :| 1 in lost && Inv(S14) && Lost(S14, lost);
    NeverLater(S14, lost, 1);
    assert AnsweredButNot(S14, 0, 1);
  }
}
