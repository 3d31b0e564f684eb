/** What a caller of `Steer` is told, in every interleaving: the arbiter's reply, unless it did not wait for it. */
module RetryReplies {
  import opened Options
  import opened DriverContract
  import opened Admission
  import opened AcpSteering
  import opened SteerSystem
  import opened RetrySafety
  import A = ArbiterModel
  import M = MailboxModel
  import D = DispatcherModel
  import P = DispatcherProtocol
  import K = DispatcherSeals

  /** What a caller may be told whose context was done while it waited. */
  predicate GaveUp(r: SteerResult) {
    r == Local(AdmissionUnknown) || r == Local(DeliveryUnknown).(writeAdmitted := true)
  }

  /** The result of a call that returned, by the way it took. */
  predicate Told(s: State, id: nat)
    requires s.mail.Shaped() && id in s.results
  {
    var r := s.results[id];
    if Refused(s, id) then r == Local(FallbackRequired) || r == Local(Unsupported)
    else if id in s.preCanceled then r == Local(FallbackRequired)
    else if id in s.timedOut then GaveUp(r)
    else id in s.replies && r == s.replies[id]
  }

  /** The call was handed to the dispatcher. */
  predicate Dispatchable(s: State, id: nat) {
    id in s.inbox || id in K.Received(s.disp)
  }

  /** The report is one of the dispatcher's about the call, and the reply what it comes to. */
  predicate Reports(s: State, id: nat, r: D.Report) {
    && r in K.ReportsOf(s.disp.trace) && r.Report? && r.id == id && id in s.replies
    && s.replies[id] == Answer(r.id, r.result, r.err, r.admission, r.late).result
  }

  /**
    The reply to a call: a refusal if it never went to the dispatcher, and else what a report comes to,
    or a failure.
   */
  ghost predicate Replies(s: State, id: nat)
    requires id in s.replies
  {
    && id in s.handled && id !in s.waiting
    && (if Dispatchable(s, id) then (exists r :: Reports(s, id, r)) || (exists a :: s.replies[id] == LateResult(a))
        else s.replies[id] in {Local(Unsupported), Local(FallbackRequired), Local(AdmissionUnknown)})
  }

  ghost predicate Answered(s: State)
    requires s.mail.Shaped()
  {
    && (forall id :: id in s.results ==> Sent(s, id) && Told(s, id))
    && (forall id :: id in s.replies ==> Replies(s, id))
    && (forall id :: id in s.waiting ==> id in s.handled && Dispatchable(s, id))
    && (forall id :: id in s.timedOut ==> id in s.results)
    && (forall id :: id in s.preCanceled ==> id < |s.mail.phases|)
  }

  /** Nothing that the answers rest on changes, but what is added about other calls. */
  predicate Onward(s: State, t: State)
    requires s.mail.Shaped() && t.mail.Shaped()
  {
    && |s.mail.phases| <= |t.mail.phases|
    && (forall id :: 0 <= id < |s.mail.phases| ==> (s.mail.phases[id].Back? ==> t.mail.phases[id] == s.mail.phases[id]))
  }

  /** A step that neither tells nor answers anybody. */
  lemma Unanswered(s: State, t: State)
    requires s.mail.Shaped() && t.mail.Shaped() && Answered(s) && Onward(s, t)
    requires t.results == s.results && t.replies == s.replies && t.timedOut == s.timedOut && t.waiting == s.waiting
    requires forall id :: 0 <= id < |s.mail.phases| ==> (id in t.preCanceled <==> id in s.preCanceled)
    requires s.handled <= t.handled && forall id :: id in t.preCanceled ==> id < |t.mail.phases|
    requires forall id :: id in s.handled ==> (Dispatchable(t, id) <==> Dispatchable(s, id))
    requires K.ReportsOf(s.disp.trace) <= K.ReportsOf(t.disp.trace)
    ensures Answered(t)
  {
    forall id | id in t.replies ensures Replies(t, id) {
      assert Replies(s, id);
      if r :| Reports(s, id, r) {
        assert Reports(t, id, r);
      }
    }
  }

  /** One more caller is told. */
  lemma OneTold(s: State, t: State, id: nat, r: SteerResult)
    requires s.mail.Shaped() && Answered(s) && id !in s.results && Sent(s, id)
    requires t == s.(results := s.results[id := r], disp := t.disp, timedOut := t.timedOut)
    requires t.disp.trace == s.disp.trace && s.timedOut <= t.timedOut <= s.timedOut + {id}
    requires Told(t, id)
    ensures Answered(t)
  {
    forall k | k in t.replies ensures Replies(t, k) {
      assert Replies(s, k);
      if x :| Reports(s, k, x) {
        assert Reports(t, k, x);
      }
    }
    forall k | k in t.results ensures Sent(t, k) && Told(t, k) {
      if k != id {
        assert Sent(s, k) && Told(s, k);
      }
    }
  }

  /** The arbiter answers one more call. */
  lemma OneAnswered(s: State, t: State, id: nat, r: SteerResult)
    requires s.mail.Shaped() && t.mail == s.mail && Answered(s) && id !in s.replies
    requires t.replies == s.replies[id := r] && t.waiting == s.waiting - {id}
    requires t.results == s.results && t.timedOut == s.timedOut && t.preCanceled == s.preCanceled
    requires t.inbox == s.inbox && t.disp.trace == s.disp.trace && s.handled <= t.handled && Replies(t, id)
    ensures Answered(t)
  {
    forall k | k in t.replies ensures Replies(t, k) {
      if k != id {
        assert Replies(s, k);
        if x :| Reports(s, k, x) {
          assert Reports(t, k, x);
        }
      }
    }
    forall k | k in t.results ensures Sent(t, k) && Told(t, k) {
      assert Sent(s, k) && Told(s, k);
    }
  }

  // ---------------------------------------------------------------- step by step

  lemma TurnedAnswers(s: State, r: SteerResult)
    requires s.mail.Shaped() && Inv(s) && Answered(s) && (r == Local(FallbackRequired) || r == Local(Unsupported))
    ensures Answered(Turned(s, r))
  {
    var t := s.(mail := M.Refuse(s.mail, M.Rejected));
    FreshCall(s);
    Unanswered(s, t);
    OneTold(t, Turned(s, r), |s.mail.acks|, r);
  }

  /** A call that is about to be numbered is nowhere yet. */
  lemma FreshCall(s: State)
    requires Inv(s) && s.mail.Shaped()
    ensures |s.mail.acks| !in s.results
  {
    hide M.Inv, P.Inv, InLine, Submitted;
  }

  lemma SendAnswers(s: State, preCanceled: bool)
    requires s.mail.Shaped() && Answered(s)
    ensures Answered(SendCall(s, preCanceled))
  {
    Unanswered(s, SendCall(s, preCanceled));
  }

  lemma PieceAnswers(s: State, piece: M.Piece, t: State)
    requires s.mail.Shaped() && Answered(s)
    requires t == s.(mail := M.Apply(s.mail, piece), accepting := t.accepting)
    ensures Answered(t)
  {
    PieceMoves(s, piece);
    hide M.Apply;
    Unanswered(s, t);
  }

  lemma RefusedAnswers(s: State, id: nat, ctxDone: bool)
    requires s.mail.Shaped() && Answered(s) && Refused(s, id) && id !in s.results
    ensures Answered(Deny(s, id, ctxDone))
  {
    OneTold(s, Deny(s, id, ctxDone), id, if ctxDone then Local(FallbackRequired) else Local(Unsupported));
  }

  lemma TakesReplyAnswers(s: State, id: nat)
    requires s.mail.Shaped() && Answered(s) && Listening(s, id) && id !in s.timedOut
    ensures Answered(Apply(s, CallerTakesReply(id)))
  {
    if id in s.preCanceled {
      OneTold(s, Apply(s, CallerTakesReply(id)), id, Local(FallbackRequired));
    } else if id in s.replies {
      OneTold(s, Apply(s, CallerTakesReply(id)), id, s.replies[id]);
    }
  }

  lemma TimesOutAnswers(s: State, id: nat)
    requires s.mail.Shaped() && Answered(s) && Listening(s, id) && id !in s.preCanceled
    requires s.mail.phases[id].result == M.Accepted || s.mail.phases[id].result == M.Pending
    ensures Answered(Apply(s, CallerTimesOut(id)))
  {
    var claim := CallerTimeout(D.AdmissionOf(s.disp, id), s.mail.phases[id].result);
    assert GaveUp(claim);
    hide CallerTimeout, GaveUp;
    OneTold(s, Apply(s, CallerTimesOut(id)), id, claim);
  }

  lemma JudgedAnswers(s: State, c: A.Command, enabled: bool)
    requires s.mail.Shaped() && Inv(s) && Answered(s) && s.accepting.Some?
    ensures Answered(Judged(s, c, enabled))
  {
    var id, t := s.accepting.value, Judged(s, c, enabled);
    AcceptingIsUnhandled(s);
    NotYetSubmitted(s, id);
    assert !Dispatchable(s, id) && id !in s.replies && id !in s.waiting;
    var command := c.(hasReply := true, admission := D.AdmissionOf(s.disp, id));
    var u := s.(accepting := None, handled := s.handled + {id}, disp := t.disp);
    match A.Judge(command, enabled) {
      case Submit =>
        SubmittedAnswers(s, t, id);
      case Local(reply) =>
        JudgedLocally(command, enabled);
        OneAnswered(s, t, id, reply.result);
    }
  }

  lemma JudgedLocally(c: A.Command, enabled: bool)
    ensures
      var v := A.Judge(c, enabled);
      v.Local? ==> v.reply.result in {Local(Unsupported), Local(FallbackRequired), Local(AdmissionUnknown)}
  {
  }

  lemma SubmittedAnswers(s: State, t: State, id: nat)
    requires s.mail.Shaped() && Answered(s) && id !in s.handled && t.mail == s.mail && t.disp.trace == s.disp.trace
    requires t.inbox == s.inbox + [id] && t.waiting == s.waiting + {id} && t.handled == s.handled + {id}
    requires t.replies == s.replies && t.results == s.results && t.timedOut == s.timedOut
    requires t.preCanceled == s.preCanceled
    ensures Answered(t)
  {
    forall k | k in t.replies ensures Replies(t, k) {
      assert Replies(s, k);
      assert Dispatchable(t, k) <==> Dispatchable(s, k);
      if x :| Reports(s, k, x) {
        assert Reports(t, k, x);
      }
    }
    forall k | k in t.results ensures Sent(t, k) && Told(t, k) {
      assert Sent(s, k) && Told(s, k);
    }
  }

  lemma AnswersAnswer(s: State, r: D.Report)
    requires s.mail.Shaped() && Answered(s) && r.Report? && r in K.ReportsOf(s.disp.trace) && r.id in s.waiting
    ensures Answered(Apply(s, ArbiterAnswers(r)))
  {
    var t := Apply(s, ArbiterAnswers(r));
    assert r.id !in s.replies;
    assert Reports(t, r.id, r);
    hide Answer;
    OneAnswered(s, t, r.id, Answer(r.id, r.result, r.err, r.admission, r.late).result);
  }

  lemma FailsAnswer(s: State, id: nat)
    requires s.mail.Shaped() && Answered(s) && id in s.waiting
    ensures Answered(Apply(s, ArbiterFails(id)))
  {
    var t := Apply(s, ArbiterFails(id));
    assert id !in s.replies;
    hide LateResult;
    OneAnswered(s, t, id, LateResult(D.AdmissionOf(s.disp, id)));
  }

  lemma DispatchedAnswers(s: State, p: D.Pass)
    requires s.mail.Shaped() && Inv(s) && Answered(s) && Enabled(s, DispatcherRuns(p))
    ensures Answered(Dispatched(s, p))
  {
    var t := Dispatched(s, p);
    K.TripKept(s.disp, p);
    hide D.Trip;
    forall id | id in s.handled ensures Dispatchable(t, id) <==> Dispatchable(s, id) {
    }
    Unanswered(s, t);
  }

  lemma StepAnswers(s: State, step: Step)
    requires Inv(s) && s.mail.Shaped() && Enabled(s, step) && Answered(s)
    ensures Answered(Apply(s, step))
  {
    hide Inv, Turned, SendCall, Deny, Judged, Dispatched, M.Apply, Replied, Result, SealCall;
    match step {
      case NoHandle => TurnedAnswers(s, Local(Unsupported));
      case LaneFull => TurnedAnswers(s, Local(FallbackRequired));
      case LaneClosed(ctxDone) => TurnedAnswers(s, if ctxDone then Local(FallbackRequired) else Local(Unsupported));
      case Send(preCanceled, _) => SendAnswers(s, preCanceled);
      case CallerMoves(piece) => PieceAnswers(s, piece, s.(mail := M.Apply(s.mail, piece)));
      case CallerRefused(id, ctxDone) =>
        if Refused(s, id) && id !in s.results {
          RefusedAnswers(s, id, ctxDone);
        }
      case CallerTakesReply(id) =>
        if Listening(s, id) {
          TakesReplyAnswers(s, id);
        }
      case CallerTimesOut(id) =>
        if Listening(s, id) && id !in s.preCanceled {
          TimesOutAnswers(s, id);
        }
      case ArbiterTakes => PieceAnswers(s, M.Take, s.(mail := M.Apply(s.mail, M.Take)));
      case ArbiterAcknowledges =>
        if s.mail.taking.Some? {
          PieceAnswers(s, M.Acknowledge, Apply(s, step));
        }
      case ArbiterJudges(command, enabled) =>
        if s.accepting.Some? {
          JudgedAnswers(s, command, enabled);
        }
      case ArbiterAnswers(report) =>
        if report.Report? && report in K.ReportsOf(s.disp.trace) && report.id in s.waiting {
          AnswersAnswer(s, report);
        }
      case ArbiterFails(id) =>
        if id in s.waiting {
          FailsAnswer(s, id);
        }
      case ArbiterReturns => PieceAnswers(s, M.ArbiterReturns, s.(mail := M.Apply(s.mail, M.ArbiterReturns)));
      case HandleRetires => PieceAnswers(s, M.Retire, s.(mail := M.Apply(s.mail, M.Retire)));
      case DispatcherRuns(pass) => DispatchedAnswers(s, pass);
    }
  }

  lemma {:induction false} RunAnswers(s: State, steps: seq<Step>)
    requires Inv(s) && s.mail.Shaped() && Answered(s) && Possible(s, steps)
    ensures RunOf(s, steps).mail.Shaped() && Answered(RunOf(s, steps))
    decreases |steps|
  {
    if steps == [] {
    } else {
      StepKeeps(s, steps[0]);
      MailShape(Apply(s, steps[0]));
      StepAnswers(s, steps[0]);
      hide Inv, Answered, Apply, Enabled;
      RunAnswers(Apply(s, steps[0]), steps[1..]);
    }
  }

  /**
    In every interleaving: a call that returned was turned away or refused and says so, or its context
    was done before it was sent or while it waited and it claims no more than that allows, or it
    returned the arbiter's reply. That reply is what a report of the dispatcher about this call comes
    to, or a failure, if the call went to the dispatcher, and a refusal otherwise.
   */
  lemma CallersHearTheArbiter(capacity: nat, steps: seq<Step>, id: nat)
    requires Possible(Initial(capacity), steps)
    ensures
      var s := RunOf(Initial(capacity), steps);
      && s.mail.Shaped()
      && (id in s.results ==> Told(s, id))
      && (id in s.replies ==> Replies(s, id))
  {
    InitialInv(capacity);
    RunAnswers(Initial(capacity), steps);
  }

  /** And a caller that waits gets the reply as soon as it is there. */
  lemma ReplyIsTaken(capacity: nat, steps: seq<Step>, id: nat)
    requires Possible(Initial(capacity), steps)
    ensures
      var s := RunOf(Initial(capacity), steps);
      s.mail.Shaped() && Listening(s, id) && id in s.replies && id !in s.preCanceled ==>
        var t := Apply(s, CallerTakesReply(id));
        id in t.results && t.results[id] == s.replies[id] && Told(t, id)
  {
    InitialInv(capacity);
    RunAnswers(Initial(capacity), steps);
  }
}
