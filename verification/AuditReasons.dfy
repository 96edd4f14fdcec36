/** Over all runs of the write protocol: why a row has the status that it has, and why a call
    answers what it answers. */
module AuditReasons {
  import opened Text
  import opened WriteProtocol
  import AuditLifecycle

  /** No acceptance has reached the call. */
  predicate Unaccepted(log: seq<Event>, c: nat) {
    forall i :: 0 <= i < |log| && log[i].Received? && log[i].call == c ==> !log[i].accept
  }

  /** A policy check has turned the call down. */
  predicate TurnedDown(log: seq<Event>, c: nat) { Switched(c, false) in log || Checked(c, false) in log }

  /** What must have happened for call `c` to have that status. */
  ghost predicate Reason(s: State, c: nat, status: Status)
    requires c < |s.calls|
  {
    var k := s.calls[c];
    match status
    case Proposed => true
    case Denied => TurnedDown(s.log, c)
    case Cancelled => Unaccepted(s.log, c)
    case Executed => exists n :: Ran(c, k.decl.sql, Some(n)) in s.log
    case Failed => Ran(c, k.decl.sql, None) in s.log || !k.ses.executor
  }

  ghost predicate ReplyTold(s: State, c: nat, reply: string)
    requires c < |s.calls|
  {
    && (reply == "executed" ==> Reason(s, c, Executed))
    && (reply == "failed" ==> Reason(s, c, Failed))
    && (reply == "cancelled" ==> Reason(s, c, Cancelled))
    && (reply == "policy_denied" ==> Reason(s, c, Denied))
  }

  ghost predicate PcTold(s: State, c: nat)
    requires c < |s.calls|
  {
    match s.calls[c].pc
    case WritingDenied(_) => TurnedDown(s.log, c)
    case Closing(status, _) => status != Proposed && Reason(s, c, status)
    case Finished(reply) => ReplyTold(s, c, reply)
    case Rechecking => true
    case RecheckingRow => true
    case Running => true
    case _ => Unaccepted(s.log, c)
  }

  ghost predicate RowTold(s: State, c: nat)
    requires c < |s.calls|
  {
    var row := s.calls[c].trail.row;
    row.Some? && row.value < |s.audit| ==> Reason(s, c, s.audit[row.value].status)
  }

  /** Decisions are received by calls that there are. */
  predicate Known(s: State) { forall i :: 0 <= i < |s.log| && s.log[i].Received? ==> s.log[i].call < |s.calls| }

  ghost predicate Told(s: State) {
    Known(s) && forall c :: 0 <= c < |s.calls| ==> PcTold(s, c) && RowTold(s, c)
  }

  // ---------- a call's own step ----------

  lemma ReplyIsTold(s: State, c: nat, status: Status)
    requires c < |s.calls| && status != Proposed && Reason(s, c, status)
    ensures ReplyTold(s, c, Reply(status))
  {
    hide Reason;
    assert "executed"[0] == 'e' && "failed"[0] == 'f' && "cancelled"[0] == 'c' && "policy_denied"[0] == 'p';
  }

  lemma OtherReplies(fold: char -> char, s: State, c: nat)
    requires c < |s.calls|
    ensures ReplyTold(s, c, "audit_unavailable")
    ensures var v := Validate(fold, s.calls[c].ses, s.calls[c].decl); v.Refused? ==> ReplyTold(s, c, v.reason)
  {
    hide Reason;
    assert "invalid_proposal"[0] == 'i' && "multi_statement"[0] == 'm' && "db_scope_denied"[0] == 'd'
        && "audit_unavailable"[0] == 'a';
  }

  lemma ReasonStays(s: State, s': State, c: nat, status: Status)
    requires c < |s.calls| && c < |s'.calls| && s'.calls[c].ses == s.calls[c].ses
        && s'.calls[c].decl == s.calls[c].decl
    requires |s.log| <= |s'.log| && s'.log[..|s.log|] == s.log
    requires forall i :: |s.log| <= i < |s'.log| && s'.log[i].Received? && s'.log[i].call == c ==> !s'.log[i].accept
    requires Reason(s, c, status)
    ensures Reason(s', c, status)
  {
    assert forall e :: e in s.log ==> e in s'.log by {
      forall e | e in s.log ensures e in s'.log {
        var i :| 0 <= i < |s.log| && s.log[i] == e;
        assert s'.log[i] == s'.log[..|s.log|][i];
      }
    }
    assert forall i :: 0 <= i < |s.log| ==> s'.log[i] == s'.log[..|s.log|][i];
    if status == Executed {
      var n :| Ran(c, s.calls[c].decl.sql, Some(n)) in s.log;
      assert Ran(c, s'.calls[c].decl.sql, Some(n)) in s'.log;
    }
  }

  /** The log and the call after a move. */
  lemma MadeLog(s: State, c: nat, m: Move)
    requires c < |s.calls|
    ensures var s' := Made(s, c, m);
            && |s'.calls| == |s.calls| && s'.calls[c].ses == s.calls[c].ses && s'.calls[c].decl == s.calls[c].decl
            && s'.calls[c].pc == m.pc && s'.calls[c].trail == m.trail
            && s'.log == s.log + (if m.event.Some? then [m.event.value] else [])
            && s'.log[..|s.log|] == s.log
            && (m.event.Some? ==> m.event.value in s'.log)
  {
  }

  /** Nobody's events but the call's own take its reasons away. */
  lemma KeptReasons(s: State, s': State, c: nat)
    requires c < |s.calls| && c < |s'.calls| && s'.calls[c].ses == s.calls[c].ses
        && s'.calls[c].decl == s.calls[c].decl
    requires |s.log| <= |s'.log| && s'.log[..|s.log|] == s.log
    requires forall i :: |s.log| <= i < |s'.log| && s'.log[i].Received? && s'.log[i].call == c ==> !s'.log[i].accept
    ensures forall status :: Reason(s, c, status) ==> Reason(s', c, status)
    ensures forall reply :: ReplyTold(s, c, reply) ==> ReplyTold(s', c, reply)
  {
    hide Reason;
    forall status | Reason(s, c, status) ensures Reason(s', c, status) {
      ReasonStays(s, s', c, status);
    }
  }

  /** Reading the policies. */
  lemma ReadTold(fold: char -> char, s: State, c: nat, a: Answer)
    requires c < |s.calls| && PcTold(s, c)
    requires var pc := s.calls[c].pc; pc.Checking? || pc.CheckingRow? || pc.Rechecking? || pc.RecheckingRow?
    ensures PcTold(StepCall(fold, s, c, a), c)
  {
    hide SwitchRead, RowRead;
    MadeLog(s, c, MoveOf(fold, s, c, a));
    hide Made;
    if s.calls[c].pc.Checking? || s.calls[c].pc.Rechecking? {
      assert MoveOf(fold, s, c, a) == ReadSwitch(s, c, s.calls[c], a);
    } else {
      assert MoveOf(fold, s, c, a) == ReadRow(s, c, s.calls[c], a);
    }
    hide MoveOf;
  }

  /** Writing the row. */
  lemma WriteTold(fold: char -> char, s: State, c: nat, a: Answer)
    requires c < |s.calls| && PcTold(s, c)
    requires s.calls[c].pc.WritingDenied? || s.calls[c].pc.WritingProposed?
    ensures PcTold(StepCall(fold, s, c, a), c)
  {
    hide PcTold, Reason, Made, ReplyTold, TurnedDown, Unaccepted;
    var m := MoveOf(fold, s, c, a);
    var s' := StepCall(fold, s, c, a);
    MadeLog(s, c, m);
    assert m == WriteRow(s, c, s.calls[c], a);
    hide MoveOf, StepCall;
    OtherReplies(fold, s', c);
    KeptReasons(s, s', c);
    RowReasons(s, s', c);
    WrittenTold(s, s', c);
  }

  lemma WrittenTold(s: State, s': State, c: nat)
    requires c < |s.calls| && c < |s'.calls| && PcTold(s, c)
    requires Unaccepted(s.log, c) ==> Unaccepted(s'.log, c) && Reason(s', c, Cancelled)
    requires TurnedDown(s.log, c) ==> ReplyTold(s', c, "policy_denied")
    requires ReplyTold(s', c, "audit_unavailable")
    requires var pc, pc' := s.calls[c].pc, s'.calls[c].pc;
             || (pc.WritingDenied? && pc' == Finished("policy_denied"))
             || (pc.WritingProposed? && pc' in {Finished("audit_unavailable"), Proposing, Closing(Cancelled, None)})
    ensures PcTold(s', c)
  {
    hide Reason, ReplyTold, TurnedDown, Unaccepted;
  }

  /** Closing it. */
  lemma CloseTold(fold: char -> char, s: State, c: nat, a: Answer)
    requires c < |s.calls| && PcTold(s, c) && s.calls[c].pc.Closing?
    ensures PcTold(StepCall(fold, s, c, a), c)
  {
    hide Reason, Made, ReplyTold, Reply;
    var k, m := s.calls[c], MoveOf(fold, s, c, a);
    MadeLog(s, c, m);
    assert m == Close(s, k, a);
    hide MoveOf;
    KeptReasons(s, StepCall(fold, s, c, a), c);
    ReplyIsTold(StepCall(fold, s, c, a), c, k.pc.status);
  }

  lemma RowReasons(s: State, s': State, c: nat)
    requires c < |s.calls| && c < |s'.calls|
    requires forall status :: Reason(s, c, status) ==> Reason(s', c, status)
    ensures Unaccepted(s.log, c) ==> Unaccepted(s'.log, c) && Reason(s', c, Cancelled)
    ensures TurnedDown(s.log, c) ==> ReplyTold(s', c, "policy_denied")
  {
    if Unaccepted(s.log, c) { assert Reason(s, c, Cancelled); }
    if TurnedDown(s.log, c) { assert Reason(s, c, Denied); }
    assert "executed"[0] == 'e' && "failed"[0] == 'f' && "cancelled"[0] == 'c' && "policy_denied"[0] == 'p';
  }

  /** The executor's answer. */
  lemma ExecuteTold(fold: char -> char, s: State, c: nat, a: Answer)
    requires c < |s.calls| && s.calls[c].pc.Running?
    ensures PcTold(StepCall(fold, s, c, a), c)
  {
    hide Made;
    var k, m := s.calls[c], MoveOf(fold, s, c, a);
    MadeLog(s, c, m);
    assert m == Execute(s, c, k, a);
    hide MoveOf;
    var s' := StepCall(fold, s, c, a);
    if a.affected.Some? {
      var n := a.affected.value;
      assert a.affected == Some(n) && Ran(c, s'.calls[c].decl.sql, Some(n)) in s'.log;
    } else {
      assert a.affected == None && Ran(c, s'.calls[c].decl.sql, None) in s'.log;
    }
  }

  /** A decision, or a cancelled context. */
  lemma WaitTold(fold: char -> char, s: State, c: nat, a: Answer)
    requires c < |s.calls| && PcTold(s, c) && s.calls[c].pc.Waiting?
    ensures PcTold(StepCall(fold, s, c, a), c)
  {
    hide Made, TurnedDown, ReplyTold;
    var k, m := s.calls[c], MoveOf(fold, s, c, a);
    MadeLog(s, c, m);
    assert m == Await(s, c, k, a);
    hide MoveOf;
  }

  /** All other steps. */
  lemma PlainTold(fold: char -> char, s: State, c: nat, a: Answer)
    requires c < |s.calls| && PcTold(s, c)
    requires var pc := s.calls[c].pc; pc.Validating? || pc.Probing? || pc.Proposing? || pc.Finished?
    ensures PcTold(StepCall(fold, s, c, a), c)
  {
    hide Validate, Made, ReplyTold, TurnedDown;
    var k, m := s.calls[c], MoveOf(fold, s, c, a);
    var s' := StepCall(fold, s, c, a);
    MadeLog(s, c, m);
    OtherReplies(fold, s', c);
    assert m.event.Some? ==> !m.event.value.Received?;
    KeptReasons(s, s', c);
  }

  lemma OwnPcTold(fold: char -> char, s: State, c: nat, a: Answer)
    requires c < |s.calls| && PcTold(s, c)
    ensures PcTold(StepCall(fold, s, c, a), c)
  {
    hide PcTold, StepCall;
    match s.calls[c].pc
    case Checking => ReadTold(fold, s, c, a);
    case CheckingRow => ReadTold(fold, s, c, a);
    case Rechecking => ReadTold(fold, s, c, a);
    case RecheckingRow => ReadTold(fold, s, c, a);
    case WritingDenied(_) => WriteTold(fold, s, c, a);
    case WritingProposed => WriteTold(fold, s, c, a);
    case Closing(_, _) => CloseTold(fold, s, c, a);
    case Running => ExecuteTold(fold, s, c, a);
    case Waiting => WaitTold(fold, s, c, a);
    case _ => PlainTold(fold, s, c, a);
  }

  // ---------- the rows ----------

  /** A call that is not finished has a row that is proposed, if it has one. */
  lemma StillProposed(s: State, c: nat)
    requires AuditLifecycle.Inv(s) && c < |s.calls| && !s.calls[c].pc.Finished?
    ensures RowTold(s, c)
  {
    hide AuditLifecycle.History, AuditLifecycle.RunsOf, AuditLifecycle.Fits;
    assert AuditLifecycle.CallOk(s, c);
    if s.calls[c].trail.row.Some? { assert AuditLifecycle.RowOk(s, s.calls[c].trail.row.value); }
  }

  /** One that finishes leaves its row with the status that it closes with. */
  lemma ClosedRow(fold: char -> char, s: State, c: nat, a: Answer)
    requires AuditLifecycle.Inv(s) && c < |s.calls| && PcTold(s, c) && s.calls[c].pc.Closing?
    ensures RowTold(StepCall(fold, s, c, a), c)
  {
    hide AuditLifecycle.History, AuditLifecycle.RunsOf, AuditLifecycle.Fits, Reason, ReplyTold, Reply;
    var k, m := s.calls[c], MoveOf(fold, s, c, a);
    assert m == Close(s, k, a);
    hide MoveOf;
    StillProposed(s, c);
    assert AuditLifecycle.CallOk(s, c);
    MadeLog(s, c, m);
    KeptReasons(s, StepCall(fold, s, c, a), c);
  }

  lemma DeniedRow(fold: char -> char, s: State, c: nat, a: Answer)
    requires AuditLifecycle.Inv(s) && c < |s.calls| && PcTold(s, c) && s.calls[c].pc.WritingDenied?
    ensures RowTold(StepCall(fold, s, c, a), c)
  {
    hide AuditLifecycle.History, AuditLifecycle.RunsOf, AuditLifecycle.Fits, ReplyTold;
    var m := MoveOf(fold, s, c, a);
    assert m == WriteRow(s, c, s.calls[c], a);
    hide MoveOf;
    assert AuditLifecycle.CallOk(s, c);
    MadeLog(s, c, m);
    assert Reason(s, c, Denied);
    KeptReasons(s, StepCall(fold, s, c, a), c);
  }

  /** A call that was finished, or that finishes without a row, keeps what it has. */
  lemma OldRow(fold: char -> char, s: State, c: nat, a: Answer)
    requires AuditLifecycle.Inv(s) && c < |s.calls| && RowTold(s, c)
    requires var pc := s.calls[c].pc; pc.Finished? || pc.Validating? || pc.WritingProposed?
    requires StepCall(fold, s, c, a).calls[c].pc.Finished?
    ensures RowTold(StepCall(fold, s, c, a), c)
  {
    hide AuditLifecycle.History, AuditLifecycle.RunsOf, AuditLifecycle.Fits, Reason, Validate;
    assert AuditLifecycle.CallOk(s, c);
    var m := MoveOf(fold, s, c, a);
    assert m.event.None? && m.rows.NoChange? && m.trail == s.calls[c].trail;
    hide MoveOf;
    MadeLog(s, c, m);
    KeptReasons(s, StepCall(fold, s, c, a), c);
  }

  /** Which steps finish a call. */
  lemma Finishing(fold: char -> char, s: State, c: nat, a: Answer)
    requires c < |s.calls| && StepCall(fold, s, c, a).calls[c].pc.Finished?
    ensures var pc := s.calls[c].pc;
            pc.Finished? || pc.Validating? || pc.WritingProposed? || pc.WritingDenied? || pc.Closing?
  {
    hide Validate, SwitchRead, RowRead;
  }

  lemma OwnRowTold(fold: char -> char, s: State, c: nat, a: Answer)
    requires AuditLifecycle.Inv(s) && c < |s.calls| && PcTold(s, c) && RowTold(s, c)
    requires c < |StepCall(fold, s, c, a).calls| && AuditLifecycle.Inv(StepCall(fold, s, c, a))
    ensures RowTold(StepCall(fold, s, c, a), c)
  {
    hide StepCall, PcTold, RowTold, AuditLifecycle.Inv;
    if StepCall(fold, s, c, a).calls[c].pc.Finished? {
      Finishing(fold, s, c, a);
      match s.calls[c].pc
      case Closing(_, _) => ClosedRow(fold, s, c, a);
      case WritingDenied(_) => DeniedRow(fold, s, c, a);
      case _ => OldRow(fold, s, c, a);
    } else {
      StillProposed(StepCall(fold, s, c, a), c);
    }
  }

  // ---------- the steps of others ----------

  /** What a call is told of stays, if its place and its row do, and nothing is accepted. */
  lemma StillTold(s: State, s': State, c: nat)
    requires c < |s.calls| && c < |s'.calls| && s'.calls[c] == s.calls[c] && PcTold(s, c) && RowTold(s, c)
    requires |s.log| <= |s'.log| && s'.log[..|s.log|] == s.log
    requires forall i :: |s.log| <= i < |s'.log| && s'.log[i].Received? ==> s'.log[i].call != c
    requires var row := s.calls[c].trail.row;
             row.Some? && row.value < |s'.audit| ==> row.value < |s.audit| && s'.audit[row.value] == s.audit[row.value]
    ensures PcTold(s', c) && RowTold(s', c)
  {
    KeptReasons(s, s', c);
    assert Reason(s, c, Cancelled) <==> Unaccepted(s.log, c);
    assert Reason(s, c, Denied) <==> TurnedDown(s.log, c);
    assert Reason(s', c, Cancelled) <==> Unaccepted(s'.log, c);
    assert Reason(s', c, Denied) <==> TurnedDown(s'.log, c);
    hide Reason;
  }

  /** Only a call itself receives its decision. */
  lemma OwnEvents(fold: char -> char, s: State, c: nat, a: Answer)
    requires c < |s.calls|
    ensures var m := MoveOf(fold, s, c, a); m.event.Some? && m.event.value.Received? ==> m.event.value.call == c
  {
    hide Validate, SwitchRead, RowRead;
  }

  lemma OtherTold(fold: char -> char, s: State, e: nat, a: Answer, c: nat)
    requires AuditLifecycle.Inv(s) && Told(s) && e < |s.calls| && c < |s.calls| && c != e
    ensures var s' := StepCall(fold, s, e, a); c < |s'.calls| && PcTold(s', c) && RowTold(s', c)
  {
    hide MoveOf, PcTold, RowTold, AuditLifecycle.History, AuditLifecycle.RunsOf, AuditLifecycle.Fits,
        AuditLifecycle.RowOk;
    var s' := StepCall(fold, s, e, a);
    MadeLog(s, e, MoveOf(fold, s, e, a));
    OwnEvents(fold, s, e, a);
    assert AuditLifecycle.CallOk(s, c);
    if s.calls[c].trail.row.Some? {
      AuditLifecycle.OtherRow(fold, s, e, a, s.calls[c].trail.row.value);
    }
    StillTold(s, s', c);
  }

  lemma AdvanceTold(fold: char -> char, s: State, e: nat, a: Answer)
    requires AuditLifecycle.Inv(s) && Told(s) && e < |s.calls|
    ensures Told(StepCall(fold, s, e, a))
  {
    hide PcTold, RowTold, AuditLifecycle.Inv, Made;
    var s' := StepCall(fold, s, e, a);
    AuditLifecycle.AdvanceInv(fold, s, e, a);
    MadeLog(s, e, MoveOf(fold, s, e, a));
    OwnEvents(fold, s, e, a);
    hide MoveOf;
    forall c | 0 <= c < |s'.calls| ensures PcTold(s', c) && RowTold(s', c) {
      if c == e {
        OwnPcTold(fold, s, c, a);
        OwnRowTold(fold, s, c, a);
      } else {
        OtherTold(fold, s, e, a, c);
      }
    }
  }

  lemma NewTold(s: State, c: nat)
    requires c < |s.calls| && s.calls[c].pc.Validating? && s.calls[c].trail.row.None?
    requires forall i :: 0 <= i < |s.log| && s.log[i].Received? ==> s.log[i].call < c
    ensures PcTold(s, c) && RowTold(s, c)
  {
  }

  lemma EnvironmentTold(fold: char -> char, s: State, act: Action)
    requires Told(s) && !act.Advance?
    ensures Told(Apply(fold, s, act))
  {
    hide PcTold, RowTold;
    var s' := Apply(fold, s, act);
    assert s'.log[..|s.log|] == s.log && s'.audit == s.audit;
    assert forall i :: 0 <= i < |s'.log| && s'.log[i].Received? ==> s'.log[i].call < |s.calls| by {
      assert forall i :: 0 <= i < |s.log| ==> s'.log[i] == s.log[i];
    }
    forall c | 0 <= c < |s'.calls| ensures PcTold(s', c) && RowTold(s', c) {
      if c < |s.calls| {
        StillTold(s, s', c);
      } else {
        NewTold(s', c);
      }
    }
  }

  lemma {:induction false} RunTold(fold: char -> char, p: Policies, actions: seq<Action>)
    ensures Told(Run(fold, p, actions))
  {
    if actions != [] {
      var s := Run(fold, p, actions[..|actions| - 1]);
      RunTold(fold, p, actions[..|actions| - 1]);
      AuditLifecycle.RunInv(fold, p, actions[..|actions| - 1]);
      var act := actions[|actions| - 1];
      hide Told, StepCall, AuditLifecycle.Inv;
      if act.Advance? {
        if act.call < |s.calls| { AdvanceTold(fold, s, act.call, act.answer); }
      } else {
        EnvironmentTold(fold, s, act);
      }
    }
  }

  /** In every run a row's status tells what happened to its call: executed, the executor ran
      the declared statement; failed, it ran it and failed, or there was none to run it;
      denied, a policy check turned it down; cancelled, no acceptance ever reached it.  And
      a call answers with that word only for that reason. */
  lemma StatusTells(fold: char -> char, p: Policies, actions: seq<Action>)
    ensures var s := Run(fold, p, actions);
            && (forall r :: 0 <= r < |s.audit| ==>
                  s.audit[r].call < |s.calls| && Reason(s, s.audit[r].call, s.audit[r].status))
            && (forall c :: 0 <= c < |s.calls| && s.calls[c].pc.Finished? ==> ReplyTold(s, c, s.calls[c].pc.reply))
  {
    hide Run, Reason, ReplyTold, AuditLifecycle.History, AuditLifecycle.RunsOf, AuditLifecycle.CallOk;
    var s := Run(fold, p, actions);
    RunTold(fold, p, actions);
    AuditLifecycle.RunInv(fold, p, actions);
    forall r | 0 <= r < |s.audit|
      ensures s.audit[r].call < |s.calls| && Reason(s, s.audit[r].call, s.audit[r].status)
    {
      assert AuditLifecycle.RowOk(s, r);
      assert RowTold(s, s.audit[r].call);
    }
    forall c | 0 <= c < |s.calls| && s.calls[c].pc.Finished? ensures ReplyTold(s, c, s.calls[c].pc.reply) {
      assert PcTold(s, c);
    }
  }
}
