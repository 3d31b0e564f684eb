/** Retry safety, over every interleaving of callers, mailbox, arbiter and dispatcher. */
module RetrySafety {
  import opened Options
  import opened DriverContract
  import opened Admission
  import opened AcpSteering
  import opened SteerSystem
  import A = ArbiterModel
  import M = MailboxModel
  import D = DispatcherModel
  import P = DispatcherProtocol
  import K = DispatcherSeals

  predicate Ascending(q: seq<nat>) {
    forall i, j :: 0 <= i < j < |q| ==> q[i] < q[j]
  }

  /** Everything in `low` is below everything in `high`. */
  predicate Below(low: set<nat>, high: seq<nat>) {
    forall a, b :: a in low && b in high ==> a < b
  }

  function One(id: Option<nat>): set<nat> {
    if id.Some? then {id.value} else {}
  }

  /** Commands move on in order: queued, taken, acknowledged, judged. */
  ghost predicate Line(
    handled: set<nat>, accepting: Option<nat>, taking: Option<nat>, queue: seq<nat>, consumed: set<nat>) {
    && Ascending(queue)
    && Below(handled + One(accepting) + One(taking), queue)
    && (accepting.Some? ==> taking.None? && forall a :: a in handled ==> a < accepting.value)
    && (taking.Some? ==> forall a :: a in handled ==> a < taking.value)
    && handled + One(accepting) <= consumed
  }

  ghost predicate InLine(s: State) {
    Line(s.handled, s.accepting, s.mail.taking, s.mail.queue, s.mail.consumed)
  }

  lemma LineEnter(
    handled: set<nat>, accepting: Option<nat>, taking: Option<nat>, queue: seq<nat>, consumed: set<nat>,
    id: nat)
    requires Line(handled, accepting, taking, queue, consumed)
    requires forall a :: a in queue || a in handled + One(accepting) + One(taking) ==> a < id
    ensures Line(handled, accepting, taking, queue + [id], consumed)
  {
    assert forall i :: 0 <= i < |queue| ==> queue[i] in queue;
  }

  lemma LineTake(handled: set<nat>, queue: seq<nat>, consumed: set<nat>)
    requires Line(handled, None, None, queue, consumed) && queue != []
    ensures Line(handled, None, Some(queue[0]), queue[1..], consumed + {queue[0]})
  {
    TakeInLine(queue);
  }

  lemma LineAcknowledge(handled: set<nat>, accepting: Option<nat>, taking: nat, queue: seq<nat>, consumed: set<nat>)
    requires Line(handled, accepting, Some(taking), queue, consumed) && taking in consumed
    ensures Line(handled, Some(taking), None, queue, consumed)
  {
  }

  lemma LineJudge(handled: set<nat>, accepting: nat, queue: seq<nat>, consumed: set<nat>)
    requires Line(handled, Some(accepting), None, queue, consumed)
    ensures Line(handled + {accepting}, None, None, queue, consumed)
  {
  }

  ghost predicate Submitted(s: State) {
    && Ascending(s.inbox)
    && Below(K.Received(s.disp), s.inbox)
    && K.Received(s.disp) <= s.handled
    && (forall id :: id in s.inbox ==> id in s.handled)
  }

  /** A result its caller may retry on without the provider having admitted anything. */
  predicate Retryable(r: SteerResult) {
    r.outcome.RetrySafe() && !r.writeAdmitted
  }

  /** The attempt was sealed or reported as not admitted, or the call never got into the mailbox. */
  predicate Safe(s: State, id: nat)
    requires s.mail.Shaped()
  {
    || K.At(s.disp, id) == NotAdmitted
    || id in K.Denied(s.disp)
    || Refused(s, id)
  }

  ghost predicate Promises(s: State)
    requires s.mail.Shaped()
  {
    && (forall id :: id in s.results ==> id < |s.mail.acks|)
    && (forall id :: id in s.results && Retryable(s.results[id]) ==> Safe(s, id))
    && (forall id :: id in s.replies && Retryable(s.replies[id]) ==> Safe(s, id))
    && (forall id :: id in s.preCanceled ==> Safe(s, id))
  }

  ghost predicate Inv(s: State) {
    && M.Inv(s.mail) && P.Inv(s.disp)
    && InLine(s) && Submitted(s) && Promises(s)
  }

  // ---------------------------------------------------------------- what never gets less safe

  /** Every call that was safe stays safe. */
  ghost predicate StaysSafe(s: State, t: State)
    requires s.mail.Shaped() && t.mail.Shaped()
  {
    forall id :: Safe(s, id) ==> Safe(t, id)
  }

  lemma PromisesKept(s: State, t: State)
    requires s.mail.Shaped() && t.mail.Shaped() && Promises(s) && StaysSafe(s, t) && |s.mail.acks| <= |t.mail.acks|
    requires t.results == s.results && t.replies == s.replies && t.preCanceled == s.preCanceled
    ensures Promises(t)
  {
  }

  lemma NewResult(s: State, t: State, id: nat, r: SteerResult)
    requires s.mail.Shaped() && t.mail.Shaped() && Promises(s) && StaysSafe(s, t) && |s.mail.acks| <= |t.mail.acks|
    requires t.results == s.results[id := r] && t.replies == s.replies && t.preCanceled == s.preCanceled
    requires id < |t.mail.acks| && (Retryable(r) ==> Safe(t, id))
    ensures Promises(t)
  {
  }

  lemma NewReply(s: State, t: State, id: nat, r: SteerResult)
    requires s.mail.Shaped() && t.mail.Shaped() && Promises(s) && StaysSafe(s, t) && |s.mail.acks| <= |t.mail.acks|
    requires t.results == s.results && t.replies == s.replies[id := r] && t.preCanceled == s.preCanceled
    requires Retryable(r) ==> Safe(t, id)
    ensures Promises(t)
  {
  }

  /** Refusals are for good, and a new send disturbs no other. */
  lemma MailMoves(s: State, t: State)
    requires s.mail.Shaped() && t.mail.Shaped() && |s.mail.phases| <= |t.mail.phases|
    requires
      forall id :: 0 <= id < |s.mail.phases| && s.mail.phases[id].Back? ==> t.mail.phases[id] == s.mail.phases[id]
    requires t.disp == s.disp
    ensures StaysSafe(s, t)
  {
  }

  lemma DispatcherMoves(s: State, t: State, news: set<nat>)
    requires s.mail.Shaped() && t.mail == s.mail && K.Kept(s.disp, t.disp, news)
    ensures StaysSafe(s, t)
  {
  }

  lemma PieceMoves(s: State, p: M.Piece)
    requires s.mail.Shaped()
    ensures
      var m := M.Apply(s.mail, p);
      && |s.mail.phases| <= |m.phases|
      && forall id :: 0 <= id < |s.mail.phases| && s.mail.phases[id].Back? ==> m.phases[id] == s.mail.phases[id]
  {
    var m := M.Apply(s.mail, p);
    forall id | 0 <= id < |s.mail.phases| && s.mail.phases[id].Back? ensures m.phases[id] == s.mail.phases[id] {
      M.ReturnStays(s.mail, p, id);
    }
  }

  /** The retryable results of the arbiter's own decisions leave the attempt sealed. */
  lemma JudgeSeals(c: A.Command, enabled: bool)
    requires P.Untouched(c.admission)
    ensures
      var verdict := A.Judge(c, enabled);
      && (verdict.Local? && Retryable(verdict.reply.result) ==> A.AdmissionAfter(c, enabled) == NotAdmitted)
      && (verdict.Submit? ==> A.AdmissionAfter(c, enabled) == c.admission)
      && (A.AdmissionAfter(c, enabled) == NotAdmitted || A.AdmissionAfter(c, enabled) == c.admission)
  {
  }

  /** A retryable answer comes only from a report that denied the admission. */
  lemma AnswerDenies(id: nat, result: D.ClientResult, err: D.ClientError, admission: Admission, late: bool)
    ensures Retryable(Answer(id, result, err, admission, late).result) ==> admission == NotAdmitted
  {
  }

  lemma {:induction false} DeniedByReport(t: D.Trace, r: D.Report)
    requires r in K.ReportsOf(t) && r.Report? && r.admission == NotAdmitted
    ensures r.id in P.FactsOf(t).denied
  {
    if r in K.ReportsOf(t.past) {
      DeniedByReport(t.past, r);
    }
  }

  /** A caller that gives up waiting never claims that a retry is safe. */
  lemma TimeoutNeverRetryable(admission: Admission, sent: M.SendResult)
    requires sent == M.Accepted || sent == M.Pending
    ensures !CallerTimeout(admission, sent).outcome.RetrySafe()
  {
  }

  /** What safety is for. */
  lemma SafeIsNotDelivered(s: State, id: nat)
    requires Inv(s) && Safe(s, id)
    ensures
      var f := P.FactsOf(s.disp.trace);
      P.Backed(s.disp, id) <==> id !in f.silent
  {
    var f := P.FactsOf(s.disp.trace);
    if Refused(s, id) {
      assert M.SendInv(s.mail, id);
      assert id !in s.mail.consumed;
      assert id !in K.Received(s.disp);
    } else {
      assert K.At(s.disp, id) == P.Lookup(s.disp.att, id);
    }
  }

  // ---------------------------------------------------------------- step by step

  /** The mailbox moved without a command changing hands. */
  lemma LineSame(s: State, t: State)
    requires InLine(s) && t.handled == s.handled && t.accepting == s.accepting
    requires t.mail.queue == s.mail.queue && t.mail.taking == s.mail.taking && t.mail.consumed == s.mail.consumed
    ensures InLine(t)
  {
  }

  lemma TurnedKeeps(s: State, r: SteerResult)
    requires Inv(s)
    ensures Inv(Turned(s, r))
  {
    hide M.Inv, P.Inv, InLine, Submitted, Promises, StaysSafe;
    MailShape(s);
    var t := Turned(s, r);
    M.RefuseKeeps(s.mail);
    LineSame(s, t);
    SubmittedSame(s, t);
    MailMoves(s, t);
    NewResult(s, t, |s.mail.acks|, r);
  }

  lemma MailShape(s: State)
    requires Inv(s)
    ensures s.mail.Shaped()
  {
  }

  lemma SubmittedSame(s: State, t: State)
    requires Submitted(s) && t.inbox == s.inbox && t.disp.trace == s.disp.trace && t.handled == s.handled
    ensures Submitted(t)
  {
  }

  /** A call the arbiter has not handled has an attempt nobody started. */
  lemma UnhandledIsUntouched(s: State, id: nat)
    requires Inv(s) && id !in s.handled
    ensures P.Untouched(K.At(s.disp, id)) && id !in P.FactsOf(s.disp.trace).invoked
  {
  }

  lemma FreshIsUnhandled(s: State)
    requires Inv(s)
    ensures |s.mail.acks| !in s.handled
    ensures
      forall id :: id in s.mail.queue || id in s.handled + One(s.accepting) + One(s.mail.taking) ==> id < |s.mail.acks|
  {
  }

  lemma SealCallKeeps(s: State, id: nat)
    requires Inv(s)
    ensures Inv(SealCall(s, id)) && StaysSafe(s, SealCall(s, id))
    ensures P.Untouched(K.At(s.disp, id)) ==> Safe(SealCall(s, id), id)
  {
    hide M.Inv, P.Inv, InLine, Submitted, Promises;
    var t := SealCall(s, id);
    MailShape(s);
    P.CallerSealsKeeps(s.disp, id);
    K.SealKept(s.disp, id);
    DispatcherMoves(s, t, {});
    LineSame(s, t);
    SubmittedSame(s, t);
    PromisesKept(s, t);
  }

  lemma EnterKeeps(s: State, preCanceled: bool)
    requires Inv(s)
    ensures Inv(s.(mail := M.EnterMailbox(s.mail, true, preCanceled)))
  {
    hide M.Inv, M.SendInv, P.Inv, Submitted, Promises, StaysSafe, Line;
    MailShape(s);
    var t := s.(mail := M.EnterMailbox(s.mail, true, preCanceled));
    M.EnterKeeps(s.mail, true, preCanceled);
    SubmittedSame(s, t);
    MailMoves(s, t);
    PromisesKept(s, t);
    FreshIsUnhandled(s);
    LineEnter(s.handled, s.accepting, s.mail.taking, s.mail.queue, s.mail.consumed, |s.mail.acks|);
  }

  lemma SendKeeps(s: State, preCanceled: bool)
    requires Inv(s)
    ensures Inv(SendCall(s, preCanceled))
  {
    hide Inv, StaysSafe, Safe;
    MailShape(s);
    var id := |s.mail.acks|;
    FreshIsUnhandled(s);
    UnhandledIsUntouched(s, id);
    SealCallKeeps(s, id);
    var s1 := SealCall(s, id);
    PreCancelKeeps(s1, id);
    EnterKeeps(if preCanceled then s1.(preCanceled := s.preCanceled + {id}) else s, preCanceled);
  }

  lemma PreCancelKeeps(s: State, id: nat)
    requires Inv(s)
    requires s.mail.Shaped() && Safe(s, id)
    ensures Inv(s.(preCanceled := s.preCanceled + {id}))
  {
    hide M.Inv, P.Inv;
  }

  lemma CallerMovesKeeps(s: State, p: M.Piece)
    requires Inv(s) && (p.Look? || p.WaitSeesDone? || p.WaitCancelled?)
    ensures Inv(s.(mail := M.Apply(s.mail, p)))
  {
    hide M.Inv, M.SendInv, P.Inv, InLine, Submitted, Promises, StaysSafe;
    MailShape(s);
    var t := s.(mail := M.Apply(s.mail, p));
    M.PieceKeeps(s.mail, p);
    PieceMoves(s, p);
    LineSame(s, t);
    SubmittedSame(s, t);
    MailMoves(s, t);
    PromisesKept(s, t);
  }

  /** The arbiter's side of the mailbox. */
  lemma ArbiterMailKeeps(s: State, p: M.Piece)
    requires Inv(s) && s.accepting.None? && (p == M.Take || p == M.ArbiterReturns)
    ensures Inv(s.(mail := M.Apply(s.mail, p)))
  {
    hide M.Inv, M.SendInv, P.Inv, Submitted, Promises, StaysSafe, Line;
    MailShape(s);
    var t := s.(mail := M.Apply(s.mail, p));
    M.PieceKeeps(s.mail, p);
    PieceMoves(s, p);
    SubmittedSame(s, t);
    MailMoves(s, t);
    PromisesKept(s, t);
    if p == M.Take && s.mail.queue != [] {
      if s.mail.taking.None? {
        LineTake(s.handled, s.mail.queue, s.mail.consumed);
      }
    }
  }

  lemma TakeInLine(q: seq<nat>)
    requires Ascending(q) && q != []
    ensures Ascending(q[1..]) && q[0] in q && forall id :: id in q[1..] ==> id in q && q[0] < id
  {
    forall id | id in q[1..] ensures id in q && q[0] < id {
      var i :| 0 <= i < |q[1..]| && q[1..][i] == id;
      assert q[i + 1] == id;
    }
  }

  lemma AcknowledgeKeeps(s: State)
    requires Inv(s) && s.mail.taking.Some?
    ensures Inv(s.(accepting := s.mail.taking, mail := M.Apply(s.mail, M.Acknowledge)))
  {
    hide M.SendInv, P.Inv, Submitted, Promises, StaysSafe, Line;
    MailShape(s);
    var t := s.(accepting := s.mail.taking, mail := M.Apply(s.mail, M.Acknowledge));
    M.PieceKeeps(s.mail, M.Acknowledge);
    PieceMoves(s, M.Acknowledge);
    SubmittedSame(s, t);
    MailMoves(s, t);
    PromisesKept(s, t);
    TakenIsConsumed(s.mail);
    LineAcknowledge(s.handled, s.accepting, s.mail.taking.value, s.mail.queue, s.mail.consumed);
  }

  lemma TakenIsConsumed(m: M.State)
    requires M.Inv(m) && m.taking.Some?
    ensures m.taking.value in m.consumed && m.taking.value < |m.acks|
  {
    assert M.SendInv(m, m.taking.value);
  }

  lemma RetireKeeps(s: State)
    requires Inv(s)
    ensures Inv(s.(mail := M.Apply(s.mail, M.Retire)))
  {
    hide M.Inv, M.SendInv, P.Inv, InLine, Submitted, Promises, StaysSafe;
    MailShape(s);
    var t := s.(mail := M.Apply(s.mail, M.Retire));
    M.PieceKeeps(s.mail, M.Retire);
    PieceMoves(s, M.Retire);
    LineSame(s, t);
    SubmittedSame(s, t);
    MailMoves(s, t);
    PromisesKept(s, t);
  }

  lemma ResultKeeps(s: State, id: nat, r: SteerResult)
    requires Inv(s)
    requires s.mail.Shaped() && id < |s.mail.acks| && (Retryable(r) ==> Safe(s, id))
    ensures Inv(Result(s, id, r))
  {
    hide M.Inv, P.Inv, InLine, Submitted, Promises;
    NewResult(s, Result(s, id, r), id, r);
    LineSame(s, Result(s, id, r));
    SubmittedSame(s, Result(s, id, r));
  }

  lemma ReplyKeeps(s: State, id: nat, r: SteerResult)
    requires Inv(s)
    requires s.mail.Shaped() && (Retryable(r) ==> Safe(s, id))
    ensures Inv(Replied(s, id, r))
  {
    hide M.Inv, P.Inv, InLine, Submitted, Promises;
    NewReply(s, Replied(s, id, r), id, r);
    LineSame(s, Replied(s, id, r));
    SubmittedSame(s, Replied(s, id, r));
  }

  lemma DenyKeeps(s: State, id: nat, ctxDone: bool)
    requires Inv(s)
    requires s.mail.Shaped() && Refused(s, id)
    ensures Inv(Deny(s, id, ctxDone))
  {
    hide Inv, StaysSafe;
    SealCallKeeps(s, id);
    if ctxDone {
      ResultKeeps(SealCall(s, id), id, Local(FallbackRequired));
    } else {
      ResultKeeps(s, id, Local(Unsupported));
    }
  }

  lemma TakesReplyKeeps(s: State, id: nat)
    requires Inv(s)
    ensures Inv(Apply(s, CallerTakesReply(id)))
  {
    MailShape(s);
    RepliesAreSafe(s, id);
    hide Inv, Safe, Retryable, Listening;
    if Listening(s, id) && id in s.preCanceled {
      ResultKeeps(s, id, Local(FallbackRequired));
    } else if Listening(s, id) && id in s.replies {
      ResultKeeps(s, id, s.replies[id]);
    } else {
    }
  }

  lemma RepliesAreSafe(s: State, id: nat)
    requires Inv(s)
    ensures s.mail.Shaped()
    ensures id in s.preCanceled ==> Safe(s, id)
    ensures id in s.replies && Retryable(s.replies[id]) ==> Safe(s, id)
  {
  }

  lemma TimesOutKeeps(s: State, id: nat)
    requires Inv(s)
    ensures Inv(Apply(s, CallerTimesOut(id)))
  {
    MailShape(s);
    SealCallKeeps(s, id);
    hide Inv, StaysSafe, Safe, CallerTimeout;
    if Listening(s, id) && id !in s.preCanceled {
      var sent := s.mail.phases[id].result;
      TimeoutNeverRetryable(D.AdmissionOf(s.disp, id), sent);
      ResultKeeps(SealCall(s, id), id, CallerTimeout(D.AdmissionOf(s.disp, id), sent));
    } else {
    }
  }

  // ---------------------------------------------------------------- the arbiter's judgement

  /** The attempt's admission set to `a`, which seals it or leaves it as it is. */
  lemma SettleKeeps(s: D.State, id: nat, a: Admission)
    requires P.Inv(s) && id !in P.FactsOf(s.trace).invoked
    requires a == NotAdmitted || a == D.AdmissionOf(s, id)
    ensures P.Inv(s.(att := s.att[id := a])) && K.Kept(s, s.(att := s.att[id := a]), {})
  {
    hide P.Ledger, P.Protocol, P.FactsOf, P.Flags;
    SettleSealing(s.att, P.FactsOf(s.trace), s.queue, id, a);
    FlagsSame(s, s.att[id := a]);
  }

  lemma FlagsSame(s: D.State, att: map<nat, Admission>)
    requires P.Flags(s, P.FactsOf(s.trace))
    ensures P.Flags(s.(att := att), P.FactsOf(s.trace))
  {
    hide P.FactsOf;
  }

  lemma SettleSealing(att: map<nat, Admission>, f: P.Facts, q: seq<nat>, id: nat, a: Admission)
    requires P.Sealing(att, f, q) && id !in f.invoked
    requires a == NotAdmitted || a == P.Lookup(att, id)
    ensures P.Sealing(att[id := a], f, q)
  {
  }

  lemma JudgedKeeps(s: State, c: A.Command, enabled: bool)
    requires Inv(s) && s.accepting.Some?
    ensures Inv(Judged(s, c, enabled))
  {
    MailShape(s);
    var id := s.accepting.value;
    AcceptingIsUnhandled(s);
    UnhandledIsUntouched(s, id);
    var command := c.(hasReply := true, admission := D.AdmissionOf(s.disp, id));
    JudgeSeals(command, enabled);
    var a := A.AdmissionAfter(command, enabled);
    AdmittedKeeps(s, a);
    hide Inv, Safe, Retryable, A.Judge, A.AdmissionAfter;
    var t := s.(accepting := None, handled := s.handled + {id}, disp := s.disp.(att := s.disp.att[id := a]));
    match A.Judge(command, enabled) {
      case Submit =>
        NotYetSubmitted(s, id);
        SubmitKeeps(t, id);
      case Local(reply) =>
        assert Retryable(reply.result) ==> Safe(t, id) by {
          SealedIsSafe(t, id);
        }
        ReplyKeeps(t, id, reply.result);
    }
  }

  lemma NotYetSubmitted(s: State, id: nat)
    requires Inv(s) && (forall k :: k in s.handled ==> k < id)
    ensures forall k :: k in s.inbox || k in K.Received(s.disp) ==> k < id
  {
  }

  lemma SubmitKeeps(s: State, id: nat)
    requires Inv(s) && id in s.handled && (forall k :: k in s.inbox || k in K.Received(s.disp) ==> k < id)
    ensures Inv(s.(inbox := s.inbox + [id], waiting := s.waiting + {id}))
  {
    hide M.Inv, P.Inv, InLine, Promises, StaysSafe;
    MailShape(s);
    var t := s.(inbox := s.inbox + [id], waiting := s.waiting + {id});
    MailMoves(s, t);
    PromisesKept(s, t);
    LineSame(s, t);
    assert forall i :: 0 <= i < |s.inbox| ==> s.inbox[i] in s.inbox;
  }

  lemma SealedIsSafe(s: State, id: nat)
    requires s.mail.Shaped()
    ensures K.At(s.disp, id) == NotAdmitted ==> Safe(s, id)
  {
  }

  lemma AcceptingIsUnhandled(s: State)
    requires Inv(s) && s.accepting.Some?
    ensures s.accepting.value !in s.handled
    ensures forall k :: k in s.handled ==> k < s.accepting.value
  {
  }

  /** The judged command is handled, its attempt settled. */
  lemma AdmittedKeeps(s: State, a: Admission)
    requires Inv(s) && s.accepting.Some? && s.accepting.value !in P.FactsOf(s.disp.trace).invoked
    requires a == NotAdmitted || a == D.AdmissionOf(s.disp, s.accepting.value)
    ensures
      var id := s.accepting.value;
      Inv(s.(accepting := None, handled := s.handled + {id}, disp := s.disp.(att := s.disp.att[id := a])))
  {
    hide M.Inv, P.Inv, Line, Promises, StaysSafe;
    MailShape(s);
    var id := s.accepting.value;
    var t := s.(accepting := None, handled := s.handled + {id}, disp := s.disp.(att := s.disp.att[id := a]));
    SettleKeeps(s.disp, id, a);
    DispatcherMoves(s, t, {});
    PromisesKept(s, t);
    NoneTaken(s.handled, id, s.mail.taking, s.mail.queue, s.mail.consumed);
    LineJudge(s.handled, id, s.mail.queue, s.mail.consumed);
  }

  lemma NoneTaken(handled: set<nat>, accepting: nat, taking: Option<nat>, queue: seq<nat>, consumed: set<nat>)
    requires Line(handled, Some(accepting), taking, queue, consumed)
    ensures taking.None?
  {
  }

  // ---------------------------------------------------------------- reports

  lemma AnswersKeep(s: State, r: D.Report)
    requires Inv(s)
    ensures Inv(Apply(s, ArbiterAnswers(r)))
  {
    MailShape(s);
    if r.Report? && r in K.ReportsOf(s.disp.trace) && r.id in s.waiting {
      AnswerDenies(r.id, r.result, r.err, r.admission, r.late);
      if r.admission == NotAdmitted {
        DeniedByReport(s.disp.trace, r);
      }
      hide Inv, Answer, Retryable;
      ReplyKeeps(s, r.id, Answer(r.id, r.result, r.err, r.admission, r.late).result);
    }
  }

  lemma FailsKeep(s: State, id: nat)
    requires Inv(s)
    ensures Inv(Apply(s, ArbiterFails(id)))
  {
    MailShape(s);
    SealedIsSafe(s, id);
    assert Retryable(LateResult(D.AdmissionOf(s.disp, id))) ==> D.AdmissionOf(s.disp, id) == NotAdmitted;
    hide Inv, Retryable, LateResult;
    if id in s.waiting {
      ReplyKeeps(s, id, LateResult(D.AdmissionOf(s.disp, id)));
    }
  }

  // ---------------------------------------------------------------- the dispatcher

  lemma DispatchedKeeps(s: State, p: D.Pass)
    requires Inv(s) && Enabled(s, DispatcherRuns(p))
    ensures Inv(Dispatched(s, p))
  {
    MailShape(s);
    var d := D.Trip(s.disp, p);
    var t := Dispatched(s, p);
    assert P.Enabled(s.disp, P.Run(p)) by {
      InboxIsSubmittable(s, p);
    }
    P.TripKeeps(s.disp, p);
    K.TripKept(s.disp, p);
    ReceivedInOrder(s, p, d);
    hide M.Inv, P.Inv, InLine, Submitted, Promises, StaysSafe, D.Trip, K.Kept;
    DispatcherMoves(s, t, K.Fresh(p));
    PromisesKept(s, t);
    LineSame(s, t);
  }

  lemma InboxIsSubmittable(s: State, p: D.Pass)
    requires Inv(s) && Enabled(s, DispatcherRuns(p))
    ensures p.pick.Job? ==> P.Submittable(s.disp, p.pick.id)
  {
    if p.pick.Job? {
      assert p.pick.id in s.inbox;
    }
  }

  lemma ReceivedInOrder(s: State, p: D.Pass, d: D.State)
    requires Submitted(s) && Enabled(s, DispatcherRuns(p)) && d == D.Trip(s.disp, p)
    requires K.Kept(s.disp, d, K.Fresh(p))
    ensures Submitted(Dispatched(s, p))
  {
    hide D.Trip;
    if s.inbox != [] {
      TakeInLine(s.inbox);
    }
  }

  // ---------------------------------------------------------------- every run

  lemma StepKeeps(s: State, step: Step)
    requires Inv(s) && s.mail.Shaped() && Enabled(s, step)
    ensures Inv(Apply(s, step))
  {
    hide Inv, Turned, SendCall, Deny, Judged, Dispatched, M.Apply, Replied, Result, SealCall;
    match step {
      case NoHandle => TurnedKeeps(s, Local(Unsupported));
      case LaneFull => TurnedKeeps(s, Local(FallbackRequired));
      case LaneClosed(ctxDone) => TurnedKeeps(s, if ctxDone then Local(FallbackRequired) else Local(Unsupported));
      case Send(preCanceled, _) => SendKeeps(s, preCanceled);
      case CallerMoves(piece) =>
        if piece.Look? || piece.WaitSeesDone? || piece.WaitCancelled? {
          CallerMovesKeeps(s, piece);
        }
      case CallerRefused(id, ctxDone) =>
        if Refused(s, id) {
          DenyKeeps(s, id, ctxDone);
        }
      case CallerTakesReply(id) => TakesReplyKeeps(s, id);
      case CallerTimesOut(id) => TimesOutKeeps(s, id);
      case ArbiterTakes =>
        if s.accepting.None? {
          ArbiterMailKeeps(s, M.Take);
        }
      case ArbiterAcknowledges =>
        if s.mail.taking.Some? {
          AcknowledgeKeeps(s);
        }
      case ArbiterJudges(command, enabled) =>
        if s.accepting.Some? {
          JudgedKeeps(s, command, enabled);
        }
      case ArbiterAnswers(report) => AnswersKeep(s, report);
      case ArbiterFails(id) => FailsKeep(s, id);
      case ArbiterReturns =>
        if s.accepting.None? {
          ArbiterMailKeeps(s, M.ArbiterReturns);
        }
      case HandleRetires => RetireKeeps(s);
      case DispatcherRuns(pass) => DispatchedKeeps(s, pass);
    }
  }

  lemma {:induction false} RunKeeps(s: State, steps: seq<Step>)
    requires Inv(s) && s.mail.Shaped() && Possible(s, steps)
    ensures Inv(RunOf(s, steps)) && RunOf(s, steps).mail.Shaped()
    decreases |steps|
  {
    if steps == [] {
    } else {
      StepKeeps(s, steps[0]);
      MailShape(Apply(s, steps[0]));
      hide Inv, Apply, Enabled;
      RunKeeps(Apply(s, steps[0]), steps[1..]);
    }
  }

  lemma InitialInv(capacity: nat)
    ensures Inv(Initial(capacity))
  {
  }

  /**
    In every reachable state of every interleaving: a caller that was told unsupported or
    fallback-required without an admitted write has not been delivered behind its back, exactly
    if the provider did not fall silent on it. Either the provider was never invoked for it, or it
    gave no handle, or said itself that it did not admit the call; or it closed one of the call's
    channels before it said anything, and has not refused the call since.
   */
  lemma RetryIsSafe(capacity: nat, steps: seq<Step>, id: nat)
    requires Possible(Initial(capacity), steps)
    ensures
      var s := RunOf(Initial(capacity), steps);
      var silent := P.FactsOf(s.disp.trace).silent;
      id in s.results && Retryable(s.results[id]) ==> (P.Backed(s.disp, id) <==> id !in silent)
  {
    InitialInv(capacity);
    RunKeeps(Initial(capacity), steps);
    var s := RunOf(Initial(capacity), steps);
    if id in s.results && Retryable(s.results[id]) {
      SafeIsNotDelivered(s, id);
    }
  }

  /** A call returns once. */
  lemma ResultStays(s: State, step: Step, id: nat)
    requires Inv(s) && s.mail.Shaped() && id in s.results
    ensures id in Apply(s, step).results && Apply(s, step).results[id] == s.results[id]
  {
    assert id < |s.mail.acks|;
    hide Inv, M.Apply, Refused, Listening, D.Trip, A.Judge, Answer, K.ReportsOf;
  }

  lemma {:induction false} ResultIsFinal(s: State, steps: seq<Step>, id: nat)
    requires Inv(s) && s.mail.Shaped() && Possible(s, steps) && id in s.results
    ensures
      var t := RunOf(s, steps);
      Inv(t) && id in t.results && t.results[id] == s.results[id]
    decreases |steps|
  {
    if steps == [] {
    } else {
      ResultStays(s, steps[0], id);
      StepKeeps(s, steps[0]);
      MailShape(Apply(s, steps[0]));
      hide Inv, Apply, Enabled;
      ResultIsFinal(Apply(s, steps[0]), steps[1..], id);
    }
  }

  /**
    For good: once a caller was told that a retry is safe, in no continuation of the run does the
    provider come to be called for it without refusing it, exactly as long as it does not fall
    silent on the call.
   */
  lemma RetryStaysSafe(capacity: nat, before: seq<Step>, after: seq<Step>, id: nat)
    requires Possible(Initial(capacity), before)
    requires RunOf(Initial(capacity), before).mail.Shaped() && Possible(RunOf(Initial(capacity), before), after)
    ensures
      var s := RunOf(Initial(capacity), before);
      var t := RunOf(s, after);
      var silent := P.FactsOf(t.disp.trace).silent;
      id in s.results && Retryable(s.results[id]) ==> (P.Backed(t.disp, id) <==> id !in silent)
  {
    InitialInv(capacity);
    RunKeeps(Initial(capacity), before);
    var s := RunOf(Initial(capacity), before);
    if id in s.results && Retryable(s.results[id]) {
      ResultIsFinal(s, after, id);
      SafeIsNotDelivered(RunOf(s, after), id);
    }
  }

  /**
    A call that was turned away, refused by the mailbox or sealed before it was sent never reaches
    the provider at all.
   */
  lemma RefusedNeverInvoked(capacity: nat, steps: seq<Step>, id: nat)
    requires Possible(Initial(capacity), steps)
    ensures
      var s := RunOf(Initial(capacity), steps);
      s.mail.Shaped() && Refused(s, id) ==> id !in s.handled && id !in P.FactsOf(s.disp.trace).invoked
  {
    InitialInv(capacity);
    RunKeeps(Initial(capacity), steps);
    var s := RunOf(Initial(capacity), steps);
    if Refused(s, id) {
      assert M.SendInv(s.mail, id);
    }
  }
}
