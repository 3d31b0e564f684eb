/**
  The admission state one steering call shares between its caller, the arbiter and the
  dispatcher (driver/acp/dispatcher.go, steerAttempt). Each operation holds the attempt's mutex,
  so it is one atomic step.
 */
module Admission {
  /** Not yet started; proven not admitted; started, writer fact unknown; crossed the writer. */
  datatype Admission = Pending | NotAdmitted | PendingWriter | Admitted

  function FromFact(admitted: bool): Admission {
    if admitted then Admitted else NotAdmitted
  }

  function Marked(a: Admission, admitted: bool): Admission {
    if a == NotAdmitted then a else FromFact(admitted)
  }

  function Sealed(a: Admission): Admission {
    if a == Pending then NotAdmitted else a
  }

  class SteerAttempt {
    var admission: Admission

    constructor ()
      ensures admission == Pending
    {
      admission := Pending;
    }

    /** Wins exactly when nobody sealed or started the attempt before. */
    method BeginStart() returns (won: bool)
      modifies this
      ensures won == (old(admission) == Pending)
      ensures admission == if won then PendingWriter else old(admission)
    {
      if admission != Pending {
        return false;
      }
      admission := PendingWriter;
      won := true;
    }

    method MarkAdmission(admitted: bool)
      modifies this
      ensures admission == Marked(old(admission), admitted)
    {
      if admission != NotAdmitted {
        admission := if admitted then Admitted else NotAdmitted;
      }
    }

    method CancelAndSnapshot() returns (now: Admission)
      modifies this
      ensures now == admission == Sealed(old(admission)) && now != Pending
    {
      if admission == Pending {
        admission := NotAdmitted;
      }
      now := admission;
    }
  }
}
