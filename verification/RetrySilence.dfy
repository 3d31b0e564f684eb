/** The run in which a caller is told to retry a call whose fate the provider never told. */
module RetrySilence {
  import opened Options
  import opened DriverContract
  import opened Admission
  import opened AcpSteering
  import opened SteerSystem
  import opened R = RetrySafety
  import A = ArbiterModel
  import M = MailboxModel
  import D = DispatcherModel
  import P = DispatcherProtocol
  import K = DispatcherSeals

  /** The command is in the mailbox. */
  function Sending(): State {
    Initial(1).(mail := M.State(1, [0], false, true, None, [M.Pending], [M.Waiting], {0}, {}))
  }

  function Taken(): State {
    Initial(1).(mail := M.State(1, [], false, true, Some(0), [M.Pending], [M.Waiting], {0}, {0}))
  }

  function Acknowledged(): State {
    Initial(1).(accepting := Some(0), mail := M.State(1, [], false, true, None, [M.Accepted], [M.Waiting], {0}, {0}))
  }

  function Accepted(): State {
    Initial(1).(accepting := Some(0),
                mail := M.State(1, [], false, true, None, [M.Accepted], [M.Back(M.Accepted)], {}, {0}))
  }

  /** The arbiter has submitted the job. */
  function Submitted(): State {
    Accepted().(accepting := None, handled := {0}, inbox := [0], waiting := {0},
                disp := D.IDLE.(att := map[0 := Pending]))
  }

  function Received(): State {
    Submitted().(inbox := [],
                 disp := D.IDLE.(queue := [0], att := map[0 := Pending], trace := D.Then(D.Start, D.Got(0))))
  }

  function Denial(): D.Report {
    D.Report(0, D.Nothing(false), D.PlainError, NotAdmitted, false)
  }

  /** The provider was invoked, and closed the completion channel without a word. */
  function Closed(): State {
    var t := D.Then(D.Then(Received().disp.trace, D.Invoked(0)), D.Returned(D.Return(0, None, false)));
    Received().(disp := D.IDLE.(att := map[0 := NotAdmitted], trace := D.Then(t, D.Reported(Denial()))))
  }

  function Answered(): State {
    Closed().(replies := map[0 := Local(FallbackRequired)], waiting := {})
  }

  function Told(): State {
    Answered().(results := map[0 := Local(FallbackRequired)])
  }

  function Steps(): seq<Step> {
    [Send(false, false), ArbiterTakes, ArbiterAcknowledges, CallerMoves(M.Look(0)),
     ArbiterJudges(A.Command(true, false, Pending, true, true, true), true),
     DispatcherRuns(D.Pass(false, D.Handle, D.Job(0))),
     DispatcherRuns(D.Pass(false, D.Handle, D.Completion(false, D.Nothing(false), D.NoError, None))),
     ArbiterAnswers(Denial()), CallerTakesReply(0)]
  }

  lemma MailSteps()
    ensures Apply(Initial(1), Steps()[0]) == Sending()
    ensures Apply(Sending(), Steps()[1]) == Taken()
    ensures Apply(Taken(), Steps()[2]) == Acknowledged()
    ensures Apply(Acknowledged(), Steps()[3]) == Accepted()
  {
  }

  lemma SubmitStep()
    ensures Apply(Accepted(), Steps()[4]) == Submitted()
  {
  }

  lemma ReceiveStep()
    ensures Apply(Submitted(), Steps()[5]) == Received()
  {
  }

  lemma CloseStep()
    ensures Apply(Received(), Steps()[6]) == Closed()
  {
    var p := Steps()[6].pass;
    var d := Received().disp;
    var s1 := D.TakeJob(d, false, D.Handle);
    assert s1.active == Some(D.Active(0, true, true, PendingWriter, false, false, false)) && s1.queue == [];
    assert D.Trip(d, p) == D.TakeCompletion(s1, false, D.Nothing(false), D.NoError, None, false);
  }

  lemma AnswerStep()
    ensures Apply(Closed(), Steps()[7]) == Answered()
  {
    assert Denial() in K.ReportsOf(Closed().disp.trace);
  }

  lemma TellStep()
    ensures Apply(Answered(), Steps()[8]) == Told()
  {
  }

  /** The rest of the run, from its `k`-th step. */
  function From(k: nat): seq<Step>
    requires k <= 9
  {
    Steps()[k..]
  }

  lemma Next(k: nat, s: State, t: State)
    requires k < 9 && s.mail.Shaped() && t.mail.Shaped()
    requires Enabled(s, Steps()[k]) && Apply(s, Steps()[k]) == t
    ensures RunOf(s, From(k)) == RunOf(t, From(k + 1))
    ensures Possible(t, From(k + 1)) ==> Possible(s, From(k))
  {
    hide Apply, Enabled;
    assert From(k)[0] == Steps()[k] && From(k)[1..] == From(k + 1);
  }

  lemma ToldUnbacked()
    ensures 0 in Told().results && Retryable(Told().results[0]) && !P.Backed(Told().disp, 0)
  {
  }

  lemma Shapes()
    ensures RunOf(Told(), []) == Told() && Possible(Told(), [])
    ensures Sending().mail.Shaped() && Taken().mail.Shaped() && Acknowledged().mail.Shaped() && Accepted().mail.Shaped()
    ensures Submitted().mail.Shaped() && Received().mail.Shaped() && Closed().mail.Shaped()
    ensures Answered().mail.Shaped() && Told().mail.Shaped() && Initial(1).mail.Shaped()
    ensures Enabled(Initial(1), Steps()[0]) && Enabled(Sending(), Steps()[1]) && Enabled(Taken(), Steps()[2])
    ensures Enabled(Acknowledged(), Steps()[3]) && Enabled(Accepted(), Steps()[4]) && Enabled(Submitted(), Steps()[5])
    ensures Enabled(Received(), Steps()[6]) && Enabled(Closed(), Steps()[7]) && Enabled(Answered(), Steps()[8])
  {
  }

  /** The caller is told that a retry is safe, although the provider was invoked and never said that it refused. */
  lemma RetryAfterSilence()
    ensures
      var s := RunOf(Initial(1), Steps());
      && Possible(Initial(1), Steps())
      && 0 in s.results && Retryable(s.results[0])
      && !P.Backed(s.disp, 0)
  {
    MailSteps();
    SubmitStep();
    ReceiveStep();
    CloseStep();
    AnswerStep();
    TellStep();
    Shapes();
    ToldUnbacked();
    assert From(0) == Steps() && From(9) == [];
    hide Apply, Enabled, P.Backed, From, Steps, Initial, Sending, Taken, Acknowledged, Accepted, Submitted, Received;
    hide Closed, Answered, Told, RunOf, Possible, Retryable;
    Next(0, Initial(1), Sending());
    Next(1, Sending(), Taken());
    Next(2, Taken(), Acknowledged());
    Next(3, Acknowledged(), Accepted());
    Next(4, Accepted(), Submitted());
    Next(5, Submitted(), Received());
    Next(6, Received(), Closed());
    Next(7, Closed(), Answered());
    Next(8, Answered(), Told());
  }
}
