/** Over all runs of the write protocol: the life of an audit row, and how the executed
    rows answer to the statements that were executed. */
module AuditLifecycle {
  import opened Text
  import opened WriteProtocol
  import WriteSafety

  /** The statuses that row `r` has had, oldest first. */
  function History(log: seq<Event>, r: nat): seq<Status> {
    if log == [] then []
    else History(log[..|log| - 1], r) + Entry(log[|log| - 1], r)
  }

  function Entry(e: Event, r: nat): seq<Status> {
    match e
    case RowWritten(_, row, status) => if row == r then [status] else []
    case RowUpdated(row, status, _) => if row == r then [status] else []
    case _ => []
  }

  /** What the executor answered to call `c`, oldest first. */
  function RunsOf(log: seq<Event>, c: nat): seq<Option<int>> {
    if log == [] then []
    else RunsOf(log[..|log| - 1], c) + Result(log[|log| - 1], c)
  }

  function Result(e: Event, c: nat): seq<Option<int>> {
    match e
    case Ran(call, _, affected) => if call == c then [affected] else []
    case _ => []
  }

  /** Born denied, or born proposed and closed at most once, for good. */
  predicate Lifecycle(h: seq<Status>) {
    h == [Denied] || h == [Proposed] || (|h| == 2 && h[0] == Proposed && h[1] != Proposed)
  }

  // ---------- the invariant ----------

  /** The outcome of a call fits what the executor answered to it. */
  predicate Fits(runs: seq<Option<int>>, status: Status, rows: Option<int>) {
    && (rows.Some? <==> status == Executed)
    && (if status == Executed then runs == [rows] else runs == [] || (runs == [None] && status == Failed))
  }

  predicate RowOk(s: State, r: nat)
    requires r < |s.audit|
  {
    var row := s.audit[r];
    && row.call < |s.calls| && s.calls[row.call].trail.row == Some(r) && row.decl == s.calls[row.call].decl
    && Lifecycle(History(s.log, r)) && row.status == History(s.log, r)[|History(s.log, r)| - 1]
    && (row.rowsAffected.Some? <==> row.status == Executed)
  }

  /** A call that has not written its row has run nothing; one that has written it runs at
      most one statement, and closes the row with what came of it. */
  predicate CallOk(s: State, c: nat)
    requires c < |s.calls|
  {
    var k := s.calls[c];
    var runs := RunsOf(s.log, c);
    match k.trail.row
    case None => runs == [] && (k.pc.Validating? || k.pc.Checking? || k.pc.CheckingRow? || k.pc.WritingDenied?
        || k.pc.Probing? || k.pc.WritingProposed? || k.pc.Finished?)
    case Some(r) =>
      && r < |s.audit| && s.audit[r].call == c
      && match k.pc
         case Finished(_) =>
           || (History(s.log, r) == [Denied] && runs == [])
           || (History(s.log, r) == [Proposed, s.audit[r].status] && s.audit[r].status != Proposed
               && Fits(runs, s.audit[r].status, s.audit[r].rowsAffected))
           || (History(s.log, r) == [Proposed] && UpdateLost(r) in s.log && |runs| <= 1)
         case Closing(status, rows) => History(s.log, r) == [Proposed] && status != Proposed && Fits(runs, status, rows)
         case Proposing => History(s.log, r) == [Proposed] && runs == []
         case Waiting => History(s.log, r) == [Proposed] && runs == []
         case Rechecking => History(s.log, r) == [Proposed] && runs == []
         case RecheckingRow => History(s.log, r) == [Proposed] && runs == []
         case Running => History(s.log, r) == [Proposed] && runs == []
         case _ => false
  }

  ghost predicate Inv(s: State) {
    && (forall r :: 0 <= r < |s.audit| ==> RowOk(s, r))
    && (forall r :: |s.audit| <= r ==> History(s.log, r) == [])
    && (forall c :: 0 <= c < |s.calls| ==> CallOk(s, c))
    && (forall c :: |s.calls| <= c ==> RunsOf(s.log, c) == [])
  }

  // ---------- every step keeps it ----------

  lemma Appended(log: seq<Event>, e: Event, i: nat)
    ensures History(log + [e], i) == History(log, i) + Entry(e, i)
    ensures RunsOf(log + [e], i) == RunsOf(log, i) + Result(e, i)
  {
    assert (log + [e])[..|log|] == log;
  }

  /** What one step may do to the log, seen from row `i` or call `i`. */
  lemma StepLog(fold: char -> char, s: State, c: nat, a: Answer, i: nat)
    requires c < |s.calls|
    ensures var s' := StepCall(fold, s, c, a);
            || s'.log == s.log
            || (&& |s.log| < |s'.log| && s'.log == s.log + [s'.log[|s.log|]]
                && History(s'.log, i) == History(s.log, i) + Entry(s'.log[|s.log|], i)
                && RunsOf(s'.log, i) == RunsOf(s.log, i) + Result(s'.log[|s.log|], i))
  {
    hide History, RunsOf, Entry, Result;
    WriteSafety.StepGrowsLog(fold, s, c, a);
    hide StepCall;
    var s' := StepCall(fold, s, c, a);
    if s'.log != s.log {
      var e: Event :| s'.log == s.log + [e];
      Appended(s.log, e, i);
    }
  }

  /** A row is written or updated exactly where the log says so: a new one by the call that
      owns it, an old one by a call that closes it. */
  lemma MoveRows(fold: char -> char, s: State, c: nat, a: Answer)
    requires c < |s.calls|
    ensures var k, m := s.calls[c], MoveOf(fold, s, c, a);
            && (m.event.Some? && m.event.value.Ran? ==> m.event.value.call == c)
            && match m.rows
               case NoChange => m.event.Some? ==> !m.event.value.RowWritten? && !m.event.value.RowUpdated?
               case Insert(status) =>
                 && m.event == Some(RowWritten(c, |s.audit|, status)) && m.trail.row == Some(|s.audit|)
                 && (status == Denied || status == Proposed)
               case Update(row, status, rows) =>
                 && k.pc == Closing(status, rows) && row == k.trail.row.GetOr(0) && row < |s.audit|
                 && m.event == Some(RowUpdated(row, status, rows)) && m.trail == k.trail
  {
    hide Validate, SwitchRead, RowRead;
  }

  lemma MovedCall(fold: char -> char, s: State, c: nat, a: Answer)
    requires Inv(s) && c < |s.calls|
    ensures CallOk(StepCall(fold, s, c, a), c)
  {
    hide StepCall, CallOk;
    WriteSafety.StepMoves(fold, s, c, a);
    assert CallOk(s, c);
    var k := s.calls[c];
    if k.pc.Closing? {
      ClosedCall(fold, s, c, a);
    } else if k.pc.Running? {
      RunningCall(fold, s, c, a);
    } else if k.pc.Finished? {
      FinishedCall(fold, s, c, a);
    } else if k.trail.row.Some? {
      CallStage(s, c);
      OpenCall(fold, s, c, a);
    } else if k.pc.WritingDenied? || k.pc.WritingProposed? {
      RowWritingCall(fold, s, c, a);
    } else {
      EarlyCall(fold, s, c, a);
    }
  }

  lemma CallStage(s: State, c: nat)
    requires c < |s.calls| && CallOk(s, c) && s.calls[c].trail.row.Some?
    requires !s.calls[c].pc.Closing? && !s.calls[c].pc.Running? && !s.calls[c].pc.Finished?
    ensures OpenPc(s.calls[c].pc)
  {
    hide History, RunsOf, Fits;
  }

  lemma RunningCall(fold: char -> char, s: State, c: nat, a: Answer)
    requires Inv(s) && c < |s.calls| && s.calls[c].pc.Running?
    ensures CallOk(StepCall(fold, s, c, a), c)
  {
    hide Validate, SwitchRead, RowRead, History, RunsOf, RowOk;
    assert CallOk(s, c);
    StepLog(fold, s, c, a, c);
    StepLog(fold, s, c, a, s.calls[c].trail.row.value);
  }

  /** Between its row and its execution a call changes no row and runs nothing. */
  lemma OpenMove(fold: char -> char, s: State, c: nat, a: Answer)
    requires c < |s.calls| && s.calls[c].trail.row.Some? && OpenPc(s.calls[c].pc)
    ensures var k, m := s.calls[c], MoveOf(fold, s, c, a);
            && m.rows.NoChange? && m.trail.row == k.trail.row
            && (m.event.Some? ==> !m.event.value.RowWritten? && !m.event.value.RowUpdated? && !m.event.value.Ran?)
            && (OpenPc(m.pc) || m.pc.Running? || (m.pc.Closing? && m.pc.rows == None
                && m.pc.status in {Cancelled, Denied, Failed}))
  {
    hide Validate, SwitchRead, RowRead;
  }

  predicate OpenPc(pc: Pc) { pc.Proposing? || pc.Waiting? || pc.Rechecking? || pc.RecheckingRow? }

  lemma OpenCall(fold: char -> char, s: State, c: nat, a: Answer)
    requires Inv(s) && c < |s.calls| && OpenPc(s.calls[c].pc) && s.calls[c].trail.row.Some?
    ensures CallOk(StepCall(fold, s, c, a), c)
  {
    hide MoveOf, History, RunsOf, RowOk;
    assert CallOk(s, c);
    OpenMove(fold, s, c, a);
    StepLog(fold, s, c, a, c);
    StepLog(fold, s, c, a, s.calls[c].trail.row.value);
  }

  lemma FinishedCall(fold: char -> char, s: State, c: nat, a: Answer)
    requires Inv(s) && c < |s.calls| && s.calls[c].pc.Finished?
    ensures CallOk(StepCall(fold, s, c, a), c)
  {
    hide History, RunsOf, RowOk, Fits;
    assert CallOk(s, c);
  }

  lemma EarlyCall(fold: char -> char, s: State, c: nat, a: Answer)
    requires Inv(s) && c < |s.calls| && s.calls[c].trail.row.None?
    requires !s.calls[c].pc.WritingDenied? && !s.calls[c].pc.WritingProposed?
    ensures CallOk(StepCall(fold, s, c, a), c)
  {
    hide Validate, SwitchRead, RowRead, History, RunsOf, RowOk, Fits;
    assert CallOk(s, c);
    StepLog(fold, s, c, a, c);
  }

  lemma RowWritingCall(fold: char -> char, s: State, c: nat, a: Answer)
    requires Inv(s) && c < |s.calls| && s.calls[c].trail.row.None?
    requires s.calls[c].pc.WritingDenied? || s.calls[c].pc.WritingProposed?
    ensures CallOk(StepCall(fold, s, c, a), c)
  {
    hide Validate, ReadSwitch, ReadRow, Offer, Await, Execute, Close, History, RunsOf, RowOk;
    assert CallOk(s, c);
    assert MoveOf(fold, s, c, a) == WriteRow(s, c, s.calls[c], a);
    hide MoveOf;
    StepLog(fold, s, c, a, c);
    StepLog(fold, s, c, a, |s.audit|);
  }

  lemma ClosedCall(fold: char -> char, s: State, c: nat, a: Answer)
    requires Inv(s) && c < |s.calls| && s.calls[c].pc.Closing?
    ensures CallOk(StepCall(fold, s, c, a), c)
  {
    hide Validate, ReadSwitch, ReadRow, WriteRow, Offer, Await, Execute, History, RunsOf, RowOk;
    assert CallOk(s, c);
    assert MoveOf(fold, s, c, a) == Close(s, s.calls[c], a);
    hide MoveOf;
    StepLog(fold, s, c, a, c);
    StepLog(fold, s, c, a, s.calls[c].trail.row.value);
  }

  /** A step leaves the rows of other calls, and their history, alone. */
  lemma OtherRow(fold: char -> char, s: State, c: nat, a: Answer, r: nat)
    requires Inv(s) && c < |s.calls| && r < |s.audit| && s.audit[r].call != c
    ensures var s' := StepCall(fold, s, c, a);
            && r < |s'.audit| && s'.audit[r] == s.audit[r] && History(s'.log, r) == History(s.log, r)
            && (UpdateLost(r) in s.log ==> UpdateLost(r) in s'.log)
  {
    hide MoveOf, History, RunsOf, RowOk, Lifecycle, Fits;
    assert CallOk(s, c);
    MoveRows(fold, s, c, a);
    StepLog(fold, s, c, a, r);
  }

  lemma OtherRuns(fold: char -> char, s: State, c: nat, a: Answer, e: nat)
    requires c < |s.calls| && e != c
    ensures RunsOf(StepCall(fold, s, c, a).log, e) == RunsOf(s.log, e)
  {
    hide MoveOf, History, RunsOf;
    MoveRows(fold, s, c, a);
    StepLog(fold, s, c, a, e);
  }

  lemma OtherCall(fold: char -> char, s: State, c: nat, a: Answer, e: nat)
    requires Inv(s) && c < |s.calls| && e < |s.calls| && e != c
    ensures e < |StepCall(fold, s, c, a).calls| && CallOk(StepCall(fold, s, c, a), e)
  {
    hide StepCall, History, RunsOf, RowOk;
    assert CallOk(s, e);
    OtherRuns(fold, s, c, a, e);
    WriteSafety.StepMoves(fold, s, c, a);
    if s.calls[e].trail.row.Some? {
      OtherRow(fold, s, c, a, s.calls[e].trail.row.value);
    }
  }

  lemma StepRow(fold: char -> char, s: State, c: nat, a: Answer, r: nat)
    requires Inv(s) && c < |s.calls| && r < |StepCall(fold, s, c, a).audit|
    ensures RowOk(StepCall(fold, s, c, a), r)
  {
    WriteSafety.StepMoves(fold, s, c, a);
    if r < |s.audit| && s.audit[r].call != c {
      hide StepCall, History;
      assert RowOk(s, r);
      OtherRow(fold, s, c, a, r);
    } else {
      OwnRow(fold, s, c, a, r);
    }
  }

  lemma OwnRow(fold: char -> char, s: State, c: nat, a: Answer, r: nat)
    requires Inv(s) && c < |s.calls| && r < |StepCall(fold, s, c, a).audit|
    requires r < |s.audit| ==> s.audit[r].call == c
    ensures RowOk(StepCall(fold, s, c, a), r)
  {
    if r < |s.audit| {
      hide StepCall, RowOk;
      UpdatedRow(fold, s, c, a, r);
    } else {
      hide StepCall, RowOk;
      NewRow(fold, s, c, a, r);
    }
  }

  lemma UpdatedRow(fold: char -> char, s: State, c: nat, a: Answer, r: nat)
    requires Inv(s) && c < |s.calls| && r < |s.audit| && s.audit[r].call == c
    ensures r < |StepCall(fold, s, c, a).audit| && RowOk(StepCall(fold, s, c, a), r)
  {
    hide MoveOf, History, RunsOf;
    assert CallOk(s, c) && RowOk(s, r);
    MoveRows(fold, s, c, a);
    TrailKeepsRow(fold, s, c, a);
    StepLog(fold, s, c, a, r);
  }

  /** A call that has its row keeps it, and writes no other. */
  lemma TrailKeepsRow(fold: char -> char, s: State, c: nat, a: Answer)
    requires c < |s.calls| && CallOk(s, c) && s.calls[c].trail.row.Some?
    ensures var m := MoveOf(fold, s, c, a); m.trail.row == s.calls[c].trail.row && !m.rows.Insert?
  {
    hide Validate, SwitchRead, RowRead, History, RunsOf, Fits;
  }

  lemma NewRow(fold: char -> char, s: State, c: nat, a: Answer, r: nat)
    requires Inv(s) && c < |s.calls| && |s.audit| <= r < |StepCall(fold, s, c, a).audit|
    ensures RowOk(StepCall(fold, s, c, a), r)
  {
    hide MoveOf, History, RunsOf, RowOk, CallOk;
    MoveRows(fold, s, c, a);
    StepLog(fold, s, c, a, r);
    BornRow(fold, s, c, a, r);
  }

  lemma BornRow(fold: char -> char, s: State, c: nat, a: Answer, r: nat)
    requires c < |s.calls| && r == |s.audit| && MoveOf(fold, s, c, a).rows.Insert?
    requires var m := MoveOf(fold, s, c, a);
             m.trail.row == Some(r) && (m.rows.status == Denied || m.rows.status == Proposed)
    requires History(StepCall(fold, s, c, a).log, r) == [MoveOf(fold, s, c, a).rows.status]
    ensures RowOk(StepCall(fold, s, c, a), r)
  {
    hide MoveOf, History, RunsOf;
  }

  lemma StepBeyond(fold: char -> char, s: State, c: nat, a: Answer, i: nat)
    requires Inv(s) && c < |s.calls|
    ensures var s' := StepCall(fold, s, c, a);
            && (|s'.audit| <= i ==> History(s'.log, i) == [])
            && (|s'.calls| <= i ==> RunsOf(s'.log, i) == [])
  {
    hide MoveOf, History, RunsOf, RowOk, CallOk;
    MoveRows(fold, s, c, a);
    StepLog(fold, s, c, a, i);
  }

  lemma AdvanceInv(fold: char -> char, s: State, c: nat, a: Answer)
    requires Inv(s) && c < |s.calls|
    ensures Inv(StepCall(fold, s, c, a))
  {
    hide StepCall, CallOk, RowOk, History, RunsOf;
    var s' := StepCall(fold, s, c, a);
    forall e | 0 <= e < |s'.calls| ensures CallOk(s', e) {
      WriteSafety.StepMoves(fold, s, c, a);
      if e == c { MovedCall(fold, s, c, a); } else { OtherCall(fold, s, c, a, e); }
    }
    forall r | 0 <= r < |s'.audit| ensures RowOk(s', r) { StepRow(fold, s, c, a, r); }
    forall i | |s'.audit| <= i ensures History(s'.log, i) == [] { StepBeyond(fold, s, c, a, i); }
    forall i | |s'.calls| <= i ensures RunsOf(s'.log, i) == [] { StepBeyond(fold, s, c, a, i); }
  }

  lemma EnvironmentInv(fold: char -> char, s: State, act: Action)
    requires Inv(s) && !act.Advance?
    ensures Inv(Apply(fold, s, act))
  {
    hide History, RunsOf;
    var s' := Apply(fold, s, act);
    forall i: nat ensures History(s'.log, i) == History(s.log, i) && RunsOf(s'.log, i) == RunsOf(s.log, i) {
      EnvironmentLog(fold, s, act, i);
    }
    forall c | 0 <= c < |s'.calls| ensures CallOk(s', c) {
      if c < |s.calls| { assert CallOk(s, c); }
    }
    forall r | 0 <= r < |s'.audit| ensures RowOk(s', r) { assert RowOk(s, r); }
  }

  lemma EnvironmentLog(fold: char -> char, s: State, act: Action, i: nat)
    requires !act.Advance?
    ensures var log := Apply(fold, s, act).log;
            History(log, i) == History(s.log, i) && RunsOf(log, i) == RunsOf(s.log, i)
  {
    hide History, RunsOf;
    match act
    case EditPolicies(p) => Appended(s.log, PoliciesEdited(p), i);
    case Decide(pid, accept) => Appended(s.log, UserDecided(pid, accept), i);
    case _ =>
  }

  lemma {:induction false} RunInv(fold: char -> char, p: Policies, actions: seq<Action>)
    ensures Inv(Run(fold, p, actions))
  {
    if actions != [] {
      var act := actions[|actions| - 1];
      var s := Run(fold, p, actions[..|actions| - 1]);
      RunInv(fold, p, actions[..|actions| - 1]);
      hide Inv, StepCall;
      if act.Advance? {
        if act.call < |s.calls| { AdvanceInv(fold, s, act.call, act.answer); }
      } else {
        EnvironmentInv(fold, s, act);
      }
    }
  }

  // ---------- the results ----------

  /** In every run: a row records what its call declared; it is born denied, or born
      proposed and closed at most once; what the table shows is the last of its statuses;
      and it shows a number of affected rows exactly when it is executed. */
  lemma RowLives(fold: char -> char, p: Policies, actions: seq<Action>, r: nat)
    requires r < |Run(fold, p, actions).audit|
    ensures var s := Run(fold, p, actions);
            && s.audit[r].call < |s.calls| && s.audit[r].decl == s.calls[s.audit[r].call].decl
            && Lifecycle(History(s.log, r))
            && s.audit[r].status == History(s.log, r)[|History(s.log, r)| - 1]
            && (s.audit[r].rowsAffected.Some? <==> s.audit[r].status == Executed)
  {
    RunInv(fold, p, actions);
    hide Run, Lifecycle, History;
    assert RowOk(Run(fold, p, actions), r);
  }

  /** A finished call leaves no row open, unless the store lost its update. */
  lemma FinishedCallSettled(fold: char -> char, p: Policies, actions: seq<Action>, r: nat)
    requires r < |Run(fold, p, actions).audit|
    requires var s := Run(fold, p, actions);
             s.audit[r].call < |s.calls| && s.calls[s.audit[r].call].pc.Finished? && UpdateLost(r) !in s.log
    ensures Run(fold, p, actions).audit[r].status != Proposed
  {
    RunInv(fold, p, actions);
    hide Run, Lifecycle, History;
    var s := Run(fold, p, actions);
    assert RowOk(s, r) && CallOk(s, s.audit[r].call);
  }

  /** A call writes at most one row and executes at most one statement.  Its row is executed,
      with `n` rows affected, exactly when the executor answered it `n` (once the call is
      finished, and unless the store lost its update). */
  lemma ExecutedRowsAreRuns(fold: char -> char, p: Policies, actions: seq<Action>, c: nat)
    requires c < |Run(fold, p, actions).calls|
    ensures var s := Run(fold, p, actions);
            && |RunsOf(s.log, c)| <= 1
            && (forall q, r :: 0 <= q < |s.audit| && 0 <= r < |s.audit| && s.audit[q].call == c && s.audit[r].call == c
                  ==> q == r)
            && (forall r, n :: 0 <= r < |s.audit| && s.audit[r].call == c && s.audit[r].rowsAffected == Some(n)
                  ==> RunsOf(s.log, c) == [Some(n)])
            && (forall n :: s.calls[c].pc.Finished? && RunsOf(s.log, c) == [Some(n)] ==>
                  exists r :: 0 <= r < |s.audit| && s.audit[r].call == c
                    && (UpdateLost(r) in s.log || (s.audit[r].status == Executed
                        && s.audit[r].rowsAffected == Some(n))))
  {
    RunInv(fold, p, actions);
    hide Run, History, RunsOf;
    var s := Run(fold, p, actions);
    assert CallOk(s, c);
    forall r | 0 <= r < |s.audit| && s.audit[r].call == c ensures s.calls[c].trail.row == Some(r) && RowOk(s, r) {
      assert RowOk(s, r);
    }
  }

  // ---------- a write that is let through does happen ----------

  /** Both reads of a policy check let the declared write through. */
  predicate Allows(p: Policies, ses: Session, decl: Declaration) {
    ses.user in p.enabled && RowAllows(p, ses, decl)
  }

  /** Whatever the executor answers, a call that is admitted, allowed and accepted hands
      the declared statement to it, and its row tells how it went. */
  lemma AcceptedWriteRuns(fold: char -> char, p: Policies, ses: Session, decl: Declaration, pid: nat,
                          affected: Option<int>)
    requires Validate(fold, ses, decl) == Admitted && Allows(p, ses, decl) && ses.gateway && ses.executor
    ensures exists actions ::
              var s := Run(fold, p, actions);
              && RunsOf(s.log, 0) == [affected]
              && s.audit == [AuditRow(0, decl, if affected.Some? then Executed else Failed, affected)]
              && Ran(0, decl.sql, affected) in s.log
  {
    hide Validate, Apply, RunsOf, Result;
    var step := Advance(0, Answer(Faults(false, false), false, false, pid, false, affected, false));
    var first, second := [StartCall(ses, decl), step, step, step, step, step, step],
        [Decide(pid, true), step, step, step, step, step];
    Opening(fold, p, ses, decl, step.answer);
    RunFrom(fold, p, first, second);
    Settling(fold, p, Run(fold, p, first), ses, decl, step.answer);
  }

  function Continue(fold: char -> char, s: State, actions: seq<Action>): State
    decreases |actions|
  {
    if actions == [] then s else Continue(fold, Apply(fold, s, actions[0]), actions[1..])
  }

  lemma {:induction false} RunFrom(fold: char -> char, p: Policies, done: seq<Action>, more: seq<Action>)
    ensures Run(fold, p, done + more) == Continue(fold, Run(fold, p, done), more)
    decreases |more|
  {
    hide Apply;
    if more == [] {
      assert done + more == done;
    } else {
      assert (done + [more[0]]) + more[1..] == done + more;
      assert (done + [more[0]])[..|done|] == done;
      RunFrom(fold, p, done + [more[0]], more[1..]);
    }
  }

  lemma Opening(fold: char -> char, p: Policies, ses: Session, decl: Declaration, a: Answer)
    requires Validate(fold, ses, decl) == Admitted && Allows(p, ses, decl) && ses.gateway
    requires a.faults == Faults(false, false) && !a.writeFails && !a.sendFails
    ensures var step := Advance(0, a);
            var s := Run(fold, p, [StartCall(ses, decl), step, step, step, step, step, step]);
            && |s.calls| == 1 && s.calls[0].ses == ses && s.calls[0].decl == decl && s.calls[0].pc == Waiting
            && s.calls[0].trail.row == Some(0) && s.calls[0].trail.pid == a.pid
            && s.audit == [AuditRow(0, decl, Proposed, None)] && s.policies == p && s.cancelled == {}
            && s.pending == map[a.pid := Slot(0, None)] && RunsOf(s.log, 0) == []
  {
    hide Apply, Continue, RunsOf, Allows;
    var step := Advance(0, a);
    var actions := [StartCall(ses, decl), step, step, step, step, step, step];
    RunFrom(fold, p, [], actions);
    assert [] + actions == actions;
    SevenSteps(fold, Init(p), StartCall(ses, decl), step);
    Preparing(fold, p, ses, decl, a);
    var s3 := Apply(fold, Apply(fold, Apply(fold, Apply(fold, Init(p), StartCall(ses, decl)), step), step), step);
    Offering(fold, s3, a);
  }

  lemma Offering(fold: char -> char, s: State, a: Answer)
    requires |s.calls| == 1 && s.calls[0].pc == Probing && s.calls[0].ses.gateway && !a.writeFails && !a.sendFails
    requires s.audit == [] && a.pid !in s.usedPids && s.pending == map[] && RunsOf(s.log, 0) == []
    ensures var step := Advance(0, a);
            var s' := Apply(fold, Apply(fold, Apply(fold, s, step), step), step);
            && SameBut(s, s') && s'.calls[0].pc == Waiting
            && s'.calls[0].trail.row == Some(0) && s'.calls[0].trail.pid == a.pid
            && s'.audit == [AuditRow(0, s.calls[0].decl, Proposed, None)]
            && s'.pending == map[a.pid := Slot(0, None)] && RunsOf(s'.log, 0) == []
  {
    hide Apply, RunsOf;
    var s1 := Apply(fold, s, Advance(0, a));
    ProbedStep(fold, s, a);
    Appended(s.log, Probed(0), 0);
    var s2 := Apply(fold, s1, Advance(0, a));
    RowStep(fold, s1, a);
    Appended(s1.log, RowWritten(0, 0, Proposed), 0);
    OfferStep(fold, s2, a);
    Appended(s2.log, Offered(0, a.pid, s.calls[0].decl), 0);
  }

  /** The steps of a run with one call touch nothing else. */
  predicate SameBut(s: State, s': State) {
    && |s.calls| == 1 && |s'.calls| == 1 && s'.calls[0].ses == s.calls[0].ses && s'.calls[0].decl == s.calls[0].decl
    && s'.policies == s.policies && s'.cancelled == s.cancelled
  }

  lemma ProbedStep(fold: char -> char, s: State, a: Answer)
    requires |s.calls| == 1 && s.calls[0].pc == Probing
    ensures var s' := Apply(fold, s, Advance(0, a));
            && SameBut(s, s') && s'.calls[0].pc == WritingProposed
            && s'.audit == s.audit && s'.usedPids == s.usedPids && s'.pending == s.pending
            && (s'.log == s.log || s'.log == s.log + [Probed(0)])
  {
    hide Validate, SwitchRead, RowRead;
  }

  lemma RowStep(fold: char -> char, s: State, a: Answer)
    requires |s.calls| == 1 && s.calls[0].pc == WritingProposed && s.calls[0].ses.gateway && !a.writeFails
        && s.audit == []
    ensures var s' := Apply(fold, s, Advance(0, a));
            && SameBut(s, s') && s'.calls[0].pc == Proposing && s'.calls[0].trail.row == Some(0)
            && s'.audit == [AuditRow(0, s.calls[0].decl, Proposed, None)] && s'.usedPids == s.usedPids
                && s'.pending == s.pending
            && s'.log == s.log + [RowWritten(0, 0, Proposed)]
  {
    hide Validate, SwitchRead, RowRead;
  }

  lemma OfferStep(fold: char -> char, s: State, a: Answer)
    requires |s.calls| == 1 && s.calls[0].pc == Proposing && a.pid !in s.usedPids && !a.sendFails && s.pending == map[]
    ensures var s' := Apply(fold, s, Advance(0, a));
            && SameBut(s, s') && s'.calls[0].pc == Waiting
            && s'.calls[0].trail.row == s.calls[0].trail.row && s'.calls[0].trail.pid == a.pid
            && s'.audit == s.audit && s'.pending == map[a.pid := Slot(0, None)]
            && s'.log == s.log + [Offered(0, a.pid, s.calls[0].decl)]
  {
    hide Validate, SwitchRead, RowRead;
  }

  lemma Preparing(fold: char -> char, p: Policies, ses: Session, decl: Declaration, a: Answer)
    requires Validate(fold, ses, decl) == Admitted && Allows(p, ses, decl)
    requires a.faults == Faults(false, false)
    ensures var step := Advance(0, a);
            var s := Apply(fold, Apply(fold, Apply(fold, Apply(fold, Init(p), StartCall(ses, decl)), step), step),
                step);
            && |s.calls| == 1 && s.calls[0].ses == ses && s.calls[0].decl == decl && s.calls[0].pc == Probing
            && s.audit == [] && s.policies == p && s.cancelled == {} && s.usedPids == {}
            && s.pending == map[] && RunsOf(s.log, 0) == []
  {
    hide Apply, RunsOf, RowAllows, Validate;
    var step := Advance(0, a);
    var s1 := Apply(fold, Init(p), StartCall(ses, decl));
    var s2 := Apply(fold, s1, step);
    Validated(fold, p, ses, decl, a);
    SwitchStep(fold, s2, a);
    Appended(s2.log, Switched(0, true), 0);
    var s3 := Apply(fold, s2, step);
    RowReadStep(fold, s3, a);
    Appended(s3.log, Checked(0, true), 0);
  }

  lemma Validated(fold: char -> char, p: Policies, ses: Session, decl: Declaration, a: Answer)
    requires Validate(fold, ses, decl) == Admitted
    ensures var s := Apply(fold, Apply(fold, Init(p), StartCall(ses, decl)), Advance(0, a));
            && |s.calls| == 1 && s.calls[0].ses == ses && s.calls[0].decl == decl && s.calls[0].pc == Checking
            && s.audit == [] && s.policies == p && s.cancelled == {} && s.usedPids == {}
            && s.pending == map[] && RunsOf(s.log, 0) == []
  {
    hide Validate;
  }

  /** The parts of the state that the reads of a policy check leave alone. */
  predicate SameTables(s: State, s': State) {
    s'.audit == s.audit && s'.usedPids == s.usedPids && s'.pending == s.pending
  }

  lemma SwitchStep(fold: char -> char, s: State, a: Answer)
    requires |s.calls| == 1 && !a.faults.switch && s.calls[0].ses.user in s.policies.enabled
    requires s.calls[0].pc == Checking || s.calls[0].pc == Rechecking
    ensures var s' := Apply(fold, s, Advance(0, a));
            && SameBut(s, s') && SameTables(s, s') && s'.calls[0].trail.row == s.calls[0].trail.row
            && s'.calls[0].pc == (if s.calls[0].pc == Checking then CheckingRow else RecheckingRow)
            && s'.log == s.log + [Switched(0, true)]
  {
    hide Validate, RowAllows;
  }

  lemma RowReadStep(fold: char -> char, s: State, a: Answer)
    requires |s.calls| == 1 && !a.faults.row && RowAllows(s.policies, s.calls[0].ses, s.calls[0].decl)
    requires s.calls[0].pc == CheckingRow || (s.calls[0].pc == RecheckingRow && s.calls[0].ses.executor)
    ensures var s' := Apply(fold, s, Advance(0, a));
            && SameBut(s, s') && SameTables(s, s') && s'.calls[0].trail.row == s.calls[0].trail.row
            && s'.calls[0].pc == (if s.calls[0].pc == CheckingRow then Probing else Running)
            && s'.log == s.log + [Checked(0, true)]
  {
    hide Validate, RowAllows;
  }

  lemma Settling(fold: char -> char, p: Policies, s: State, ses: Session, decl: Declaration, a: Answer)
    requires Allows(p, ses, decl) && ses.executor && a.faults == Faults(false, false) && !a.preferCancel
        && !a.updateFails
    requires |s.calls| == 1 && s.calls[0].ses == ses && s.calls[0].decl == decl && s.calls[0].pc == Waiting
    requires s.calls[0].trail.row == Some(0) && s.calls[0].trail.pid == a.pid
    requires s.audit == [AuditRow(0, decl, Proposed, None)] && s.policies == p && s.cancelled == {}
    requires s.pending == map[a.pid := Slot(0, None)] && RunsOf(s.log, 0) == []
    ensures var step := Advance(0, a);
            var s' := Continue(fold, s, [Decide(a.pid, true), step, step, step, step, step]);
            && RunsOf(s'.log, 0) == [a.affected]
            && s'.audit == [AuditRow(0, decl, if a.affected.Some? then Executed else Failed, a.affected)]
            && Ran(0, decl.sql, a.affected) in s'.log
  {
    hide Apply, Continue, Allows, RunsOf;
    var step := Advance(0, a);
    SixSteps(fold, s, Decide(a.pid, true), step);
    Accepting(fold, s, a);
    Executing(fold, p, Apply(fold, Apply(fold, s, Decide(a.pid, true)), step), ses, decl, a);
  }

  lemma Accepting(fold: char -> char, s: State, a: Answer)
    requires |s.calls| == 1 && s.calls[0].pc == Waiting && s.calls[0].trail.pid == a.pid && s.cancelled == {}
    requires s.pending == map[a.pid := Slot(0, None)]
    ensures var s' := Apply(fold, Apply(fold, s, Decide(a.pid, true)), Advance(0, a));
            && |s'.calls| == 1 && s'.calls[0].ses == s.calls[0].ses && s'.calls[0].decl == s.calls[0].decl
            && s'.calls[0].pc == Rechecking && s'.calls[0].trail.row == s.calls[0].trail.row
            && s'.audit == s.audit && s'.policies == s.policies && RunsOf(s'.log, 0) == RunsOf(s.log, 0)
  {
    hide Validate, SwitchRead, RowRead;
    var s1 := Apply(fold, s, Decide(a.pid, true));
    assert s1.pending[a.pid] == Slot(0, Some((true, |s.log|)));
    Appended(s.log, UserDecided(a.pid, true), 0);
    Appended(s1.log, Received(0, a.pid, true), 0);
  }

  lemma Executing(fold: char -> char, p: Policies, s: State, ses: Session, decl: Declaration, a: Answer)
    requires Allows(p, ses, decl) && ses.executor && a.faults == Faults(false, false) && !a.updateFails
    requires |s.calls| == 1 && s.calls[0].ses == ses && s.calls[0].decl == decl && s.calls[0].pc == Rechecking
    requires s.calls[0].trail.row == Some(0)
    requires s.audit == [AuditRow(0, decl, Proposed, None)] && s.policies == p && RunsOf(s.log, 0) == []
    ensures var step := Advance(0, a);
            var s' := Apply(fold, Apply(fold, Apply(fold, Apply(fold, s, step), step), step), step);
            && RunsOf(s'.log, 0) == [a.affected]
            && s'.audit == [AuditRow(0, decl, if a.affected.Some? then Executed else Failed, a.affected)]
            && Ran(0, decl.sql, a.affected) in s'.log
  {
    hide Apply, RunsOf, RowAllows;
    var step := Advance(0, a);
    SwitchStep(fold, s, a);
    Appended(s.log, Switched(0, true), 0);
    var s0 := Apply(fold, s, step);
    RowReadStep(fold, s0, a);
    Appended(s0.log, Checked(0, true), 0);
    hide SameBut, SameTables;
    RunAndClose(fold, Apply(fold, s0, step), a);
  }

  lemma RunAndClose(fold: char -> char, s: State, a: Answer)
    requires |s.calls| == 1 && s.calls[0].pc == Running && s.calls[0].trail.row == Some(0) && |s.audit| == 1
        && !a.updateFails
    requires RunsOf(s.log, 0) == []
    ensures var s' := Apply(fold, Apply(fold, s, Advance(0, a)), Advance(0, a));
            && RunsOf(s'.log, 0) == [a.affected]
            && s'.audit == [s.audit[0].(status := if a.affected.Some? then Executed
                else Failed, rowsAffected := a.affected)]
            && Ran(0, s.calls[0].decl.sql, a.affected) in s'.log
  {
    hide Apply, RunsOf;
    var ran, status := Ran(0, s.calls[0].decl.sql, a.affected), if a.affected.Some? then Executed else Failed;
    Carried(fold, s, a);
    Appended(s.log, ran, 0);
    var s2 := Apply(fold, s, Advance(0, a));
    Closed(fold, s2, a, status, a.affected);
    Appended(s2.log, RowUpdated(0, status, a.affected), 0);
    assert s2.log[|s.log|] == ran;
  }

  lemma Carried(fold: char -> char, s: State, a: Answer)
    requires |s.calls| == 1 && s.calls[0].pc == Running
    ensures var s' := Apply(fold, s, Advance(0, a));
            && |s'.calls| == 1 && s'.calls[0].trail.row == s.calls[0].trail.row
            && s'.calls[0].pc == Closing(if a.affected.Some? then Executed else Failed, a.affected)
            && s'.audit == s.audit && s'.log == s.log + [Ran(0, s.calls[0].decl.sql, a.affected)]
  {
    hide Validate, SwitchRead, RowRead;
  }

  lemma Closed(fold: char -> char, s: State, a: Answer, status: Status, rows: Option<int>)
    requires |s.calls| == 1 && s.calls[0].pc == Closing(status, rows) && s.calls[0].trail.row == Some(0)
    requires |s.audit| == 1 && !a.updateFails
    ensures var s' := Apply(fold, s, Advance(0, a));
            && s'.audit == [s.audit[0].(status := status, rowsAffected := rows)]
            && s'.log == s.log + [RowUpdated(0, status, rows)]
  {
    hide Validate, SwitchRead, RowRead;
  }

  lemma ContinueOne(fold: char -> char, s: State, a: Action, rest: seq<Action>)
    ensures Continue(fold, s, [a] + rest) == Continue(fold, Apply(fold, s, a), rest) && Continue(fold, s, []) == s
  {
    hide Apply;
    assert ([a] + rest)[1..] == rest;
  }

  lemma SixSteps(fold: char -> char, s: State, a: Action, b: Action)
    ensures Continue(fold, s, [a, b, b, b, b, b])
         == Apply(fold, Apply(fold, Apply(fold, Apply(fold, Apply(fold, Apply(fold, s, a), b), b), b), b), b)
  {
    hide Apply, Continue;
    assert [a, b, b, b, b, b] == [a] + [b, b, b, b, b] && [b, b, b, b, b] == [b] + [b, b, b, b]
        && [b, b, b, b] == [b] + [b, b, b];
    assert [b, b, b] == [b] + [b, b] && [b, b] == [b] + [b] && [b] == [b] + [];
    var s1 := Apply(fold, s, a);
    var s2 := Apply(fold, s1, b);
    var s3 := Apply(fold, s2, b);
    var s4 := Apply(fold, s3, b);
    var s5 := Apply(fold, s4, b);
    ContinueOne(fold, s, a, [b, b, b, b, b]);
    ContinueOne(fold, s1, b, [b, b, b, b]);
    ContinueOne(fold, s2, b, [b, b, b]);
    ContinueOne(fold, s3, b, [b, b]);
    ContinueOne(fold, s4, b, [b]);
    ContinueOne(fold, s5, b, []);
    ContinueOne(fold, Apply(fold, s5, b), b, []);
  }

  lemma SevenSteps(fold: char -> char, s: State, a: Action, b: Action)
    ensures Continue(fold, s, [a, b, b, b, b, b, b])
         == Apply(fold, Apply(fold, Apply(fold, Apply(fold, Apply(fold, Apply(fold, Apply(fold, s, a), b), b), b), b),
             b), b)
  {
    hide Apply, Continue;
    assert [a, b, b, b, b, b, b] == [a] + [b, b, b, b, b, b];
    ContinueOne(fold, s, a, [b, b, b, b, b, b]);
    SixSteps(fold, Apply(fold, s, a), b, b);
  }
}
