/** Over all runs of the write protocol: which flag of the policies lets which operation
    through, and what becomes of a call that has none. */
module PolicyFlags {
  import opened Text
  import opened MysqlClassifier
  import opened WriteProtocol
  import opened WriteSafety
  import AuditLifecycle

  /** The policy row of this user, connection, database and table. */
  function KeyOf(ses: Session, decl: Declaration): PolicyKey {
    PolicyKey(ses.user, ses.conn, decl.database, decl.table)
  }

  /** The user's writes were switched on when that was read at `i`, and when the row was read
      at `j` it was there, with the flag of the operation set. */
  predicate GrantedAt(p: Policies, log: seq<Event>, key: PolicyKey, op: Op, i: nat, j: nat) {
    && i <= |log| && j <= |log|
    && key.user in PolicyAt(p, log, i).enabled
    && key in PolicyAt(p, log, j).rows
    && var row := PolicyAt(p, log, j).rows[key];
       match op
       case OpInsert => row.insert
       case OpUpdate => row.update
       case OpDelete => row.delete
       case OpTruncate => row.delete
       case OpDDL => row.ddl
       case _ => false
  }

  lemma AllowedIsGranted(fold: char -> char, p: Policies, log: seq<Event>, ses: Session, decl: Declaration, c: nat,
                         i: nat, j: nat)
    requires Validate(fold, ses, decl) == Admitted && AllowedAt(p, log, ses, decl, c, i, j)
    ensures Classify(decl.sql).Ok? && GrantedAt(p, log, KeyOf(ses, decl), Classify(decl.sql).c.op, i, j)
  {
    hide PolicyAt, Classify;
    AdmittedMeans(fold, ses, decl);
  }

  /** In every run a statement that is executed had the flag of what the classifier says it
      does, on the row of its own user, connection, database and table, with the user's
      writes switched on: before it was proposed, and again after it was accepted. */
  lemma ExecutedWasGranted(fold: char -> char, p: Policies, actions: seq<Action>, k: nat)
    requires var log := Run(fold, p, actions).log; k < |log| && log[k].Ran?
    ensures var s := Run(fold, p, actions);
            && s.log[k].call < |s.calls| && Classify(s.log[k].sql).Ok?
            && var call := s.calls[s.log[k].call];
               var op := Classify(s.log[k].sql).c.op;
               exists t ::
                 && Cleared(fold, p, s.log, call.ses, call.decl, s.log[k].call, t, k)
                 && GrantedAt(p, s.log, KeyOf(call.ses, call.decl), op, t.switched, t.checked)
                 && GrantedAt(p, s.log, KeyOf(call.ses, call.decl), op, t.reswitched, t.rechecked)
                 && t.checked < t.offered < t.decided < t.reswitched && t.rechecked < k
  {
    hide Run, PolicyAt, Validate, AllowedAt, OfferedOnlyAt, Classify, GrantedAt, At;
    WriteSafe(fold, p, actions, k);
    var s := Run(fold, p, actions);
    var c := s.log[k].call;
    var ses, decl := s.calls[c].ses, s.calls[c].decl;
    var t :| Cleared(fold, p, s.log, ses, decl, c, t, k) && OfferedOnlyAt(s.log, t.pid, t.offered);
    AllowedIsGranted(fold, p, s.log, ses, decl, c, t.switched, t.checked);
    AllowedIsGranted(fold, p, s.log, ses, decl, c, t.reswitched, t.rechecked);
  }

  // ---------- without the flag ----------

  /** The call is about to read what does not let it through. */
  predicate Off(s: State, c: nat)
    requires c < |s.calls|
  {
    var k := s.calls[c];
    var key := KeyOf(k.ses, k.decl);
    || ((k.pc.Checking? || k.pc.Rechecking?) && k.ses.user !in s.policies.enabled)
    || ((k.pc.CheckingRow? || k.pc.RecheckingRow?) && Classify(k.decl.sql).Ok?
        && (key !in s.policies.rows
            || var row := s.policies.rows[key];
               match Classify(k.decl.sql).c.op
               case OpInsert => !row.insert
               case OpUpdate => !row.update
               case OpDelete => !row.delete
               case OpTruncate => !row.delete
               case OpDDL => !row.ddl
               case _ => true))
  }

  /** On its way to the answer `policy_denied`, or there, its row denied. */
  predicate Refusing(s: State, c: nat) {
    && c < |s.calls|
    && var k := s.calls[c];
       || k.pc.WritingDenied?
       || (k.pc.Closing? && k.pc.status == Denied)
       || (&& k.pc == Finished("policy_denied")
           && (k.trail.row.Some? ==>
                 && k.trail.row.value < |s.audit|
                 && (s.audit[k.trail.row.value].status == Denied || UpdateLost(k.trail.row.value) in s.log)))
  }

  lemma OffRefuses(fold: char -> char, p: Policies, s: State, c: nat, a: Answer)
    requires WriteSafety.Inv(fold, p, s) && c < |s.calls| && Off(s, c)
    ensures Refusing(StepCall(fold, s, c, a), c)
    ensures AuditLifecycle.RunsOf(StepCall(fold, s, c, a).log, c) == AuditLifecycle.RunsOf(s.log, c)
  {
    hide PolicyAt, Classify, Validate, AuditLifecycle.RunsOf, HasRow, HasOffer, HasAcceptance, AllowedAt, SwitchedAt,
        SlotsOk, RunsOk, MoveOf, Refusing;
    assert CallOk(fold, p, s, c);
    AdmittedMeans(fold, s.calls[c].ses, s.calls[c].decl);
    OffMove(fold, s, c, a);
    RefusingMove(fold, s, c, a);
  }

  lemma OffMove(fold: char -> char, s: State, c: nat, a: Answer)
    requires c < |s.calls| && Off(s, c) && Validate(fold, s.calls[c].ses, s.calls[c].decl) == Admitted
    ensures var m := MoveOf(fold, s, c, a);
            && (m.pc.WritingDenied? || m.pc == Closing(Denied, None))
            && m.event.Some? && !m.event.value.Ran?
  {
    hide Classify;
    AdmittedMeans(fold, s.calls[c].ses, s.calls[c].decl);
    hide Validate;
  }

  lemma RefusingMove(fold: char -> char, s: State, c: nat, a: Answer)
    requires c < |s.calls|
    requires var m := MoveOf(fold, s, c, a); m.pc.WritingDenied? || m.pc == Closing(Denied, None)
    ensures Refusing(StepCall(fold, s, c, a), c)
    ensures var m := MoveOf(fold, s, c, a);
            m.event.Some? && !m.event.value.Ran? ==>
              AuditLifecycle.RunsOf(StepCall(fold, s, c, a).log, c) == AuditLifecycle.RunsOf(s.log, c)
  {
    hide MoveOf, AuditLifecycle.RunsOf;
    var m := MoveOf(fold, s, c, a);
    if m.event.Some? { AuditLifecycle.Appended(s.log, m.event.value, c); }
  }

  /** A step of the call itself. */
  lemma OwnStepRefuses(fold: char -> char, s: State, c: nat, a: Answer)
    requires AuditLifecycle.Inv(s) && Refusing(s, c)
    ensures Refusing(StepCall(fold, s, c, a), c)
    ensures AuditLifecycle.RunsOf(StepCall(fold, s, c, a).log, c) == AuditLifecycle.RunsOf(s.log, c)
  {
    hide Validate, ReadSwitch, ReadRow, Offer, Await, Execute, AuditLifecycle.RunsOf, AuditLifecycle.History,
        AuditLifecycle.RowOk, AuditLifecycle.Fits;
    assert AuditLifecycle.CallOk(s, c);
    AuditLifecycle.StepLog(fold, s, c, a, c);
  }

  /** A step of another call. */
  lemma OtherStepRefuses(fold: char -> char, s: State, e: nat, a: Answer, c: nat)
    requires AuditLifecycle.Inv(s) && Refusing(s, c) && e < |s.calls| && e != c
    ensures Refusing(StepCall(fold, s, e, a), c)
    ensures AuditLifecycle.RunsOf(StepCall(fold, s, e, a).log, c) == AuditLifecycle.RunsOf(s.log, c)
  {
    hide MoveOf, AuditLifecycle.RunsOf, AuditLifecycle.History, AuditLifecycle.RowOk, AuditLifecycle.Fits;
    AuditLifecycle.OtherRuns(fold, s, e, a, c);
    assert AuditLifecycle.CallOk(s, c);
    if s.calls[c].trail.row.Some? {
      AuditLifecycle.OtherRow(fold, s, e, a, s.calls[c].trail.row.value);
    }
  }

  lemma ActionRefuses(fold: char -> char, s: State, act: Action, c: nat)
    requires AuditLifecycle.Inv(s) && Refusing(s, c)
    ensures Refusing(Apply(fold, s, act), c) && AuditLifecycle.Inv(Apply(fold, s, act))
    ensures AuditLifecycle.RunsOf(Apply(fold, s, act).log, c) == AuditLifecycle.RunsOf(s.log, c)
  {
    hide StepCall, AuditLifecycle.RunsOf, AuditLifecycle.Inv;
    if act.Advance? {
      if act.call < |s.calls| {
        AuditLifecycle.AdvanceInv(fold, s, act.call, act.answer);
        if act.call == c {
          OwnStepRefuses(fold, s, c, act.answer);
        } else {
          OtherStepRefuses(fold, s, act.call, act.answer, c);
        }
      }
    } else {
      AuditLifecycle.EnvironmentInv(fold, s, act);
      AuditLifecycle.EnvironmentLog(fold, s, act, c);
    }
  }

  lemma {:induction false} StaysRefusing(fold: char -> char, s: State, more: seq<Action>, c: nat)
    requires AuditLifecycle.Inv(s) && Refusing(s, c)
    ensures var s' := AuditLifecycle.Continue(fold, s, more);
            && Refusing(s', c) && AuditLifecycle.Inv(s')
            && AuditLifecycle.RunsOf(s'.log, c) == AuditLifecycle.RunsOf(s.log, c)
    decreases |more|
  {
    hide Apply, Refusing, AuditLifecycle.Inv, AuditLifecycle.RunsOf;
    if more != [] {
      ActionRefuses(fold, s, more[0], c);
      StaysRefusing(fold, Apply(fold, s, more[0]), more[1..], c);
    }
  }

  /** Before it runs its statement, a call has run nothing. */
  lemma NothingRun(s: State, c: nat)
    requires AuditLifecycle.Inv(s) && c < |s.calls| && Off(s, c)
    ensures AuditLifecycle.RunsOf(s.log, c) == []
  {
    hide Classify, AuditLifecycle.RunsOf, AuditLifecycle.History, AuditLifecycle.RowOk, AuditLifecycle.Fits;
    assert AuditLifecycle.CallOk(s, c);
  }

  /** In every run a call that reads a switched-off user, a missing row, or a row without the
      flag of its operation, before the proposal or after it, executes nothing, then or
      later; the only answer it can come to is `policy_denied`, and its row, if it has one, is
      denied, unless the store lost the update. */
  lemma OffEndsDenied(fold: char -> char, p: Policies, actions: seq<Action>, c: nat, a: Answer, more: seq<Action>)
    requires c < |Run(fold, p, actions).calls| && Off(Run(fold, p, actions), c)
    ensures var s := Run(fold, p, actions + ([Advance(c, a)] + more));
            && c < |s.calls| && AuditLifecycle.RunsOf(s.log, c) == []
            && (s.calls[c].pc.Finished? ==> s.calls[c].pc.reply == "policy_denied")
            && (s.calls[c].pc.WritingDenied? || s.calls[c].pc.Closing? || s.calls[c].pc.Finished?)
            && forall r :: 0 <= r < |s.audit| && s.audit[r].call == c && s.calls[c].pc.Finished? ==>
                 s.audit[r].status == Denied || UpdateLost(r) in s.log
  {
    hide Run, Off, WriteSafety.Inv, AuditLifecycle.Inv, AuditLifecycle.RunsOf, StepCall, AuditLifecycle.Continue;
    var s := Run(fold, p, actions);
    WriteSafety.RunInv(fold, p, actions);
    AuditLifecycle.RunInv(fold, p, actions);
    NothingRun(s, c);
    OffRefuses(fold, p, s, c, a);
    AuditLifecycle.AdvanceInv(fold, s, c, a);
    StaysRefusing(fold, StepCall(fold, s, c, a), more, c);
    AuditLifecycle.RunFrom(fold, p, actions, [Advance(c, a)] + more);
    OneMore(fold, s, c, a, more);
    RowsAreOwn(Run(fold, p, actions + ([Advance(c, a)] + more)), c);
  }

  lemma OneMore(fold: char -> char, s: State, c: nat, a: Answer, more: seq<Action>)
    requires c < |s.calls|
    ensures AuditLifecycle.Continue(fold, s, [Advance(c, a)] + more)
         == AuditLifecycle.Continue(fold, StepCall(fold, s, c, a), more)
  {
    hide StepCall;
    assert ([Advance(c, a)] + more)[1..] == more;
  }

  lemma RowsAreOwn(s: State, c: nat)
    requires AuditLifecycle.Inv(s) && c < |s.calls|
    ensures forall r :: 0 <= r < |s.audit| && s.audit[r].call == c ==> s.calls[c].trail.row == Some(r)
  {
    hide AuditLifecycle.History, AuditLifecycle.RunsOf, AuditLifecycle.CallOk;
    forall r | 0 <= r < |s.audit| && s.audit[r].call == c ensures s.calls[c].trail.row == Some(r) {
      assert AuditLifecycle.RowOk(s, r);
    }
  }

  // ---------- what else the calls do ----------

  /** A call with a proposal has a gateway to send it to, and one that runs its statement an
      executor. */
  predicate CallFits(ses: Session, pc: Pc) {
    && (pc.Proposing? || pc.Waiting? || pc.Rechecking? || pc.RecheckingRow? || pc.Running? ==> ses.gateway)
    && (pc.Running? ==> ses.executor)
  }

  ghost predicate EventFits(fold: char -> char, p: Policies, s: State, i: nat)
    requires i < |s.log|
  {
    match s.log[i]
    case Probed(c) =>
      && c < |s.calls|
      && var k := s.calls[c];
         && Validate(fold, k.ses, k.decl) == Admitted
         && k.decl.operation in {"UPDATE", "DELETE"} && k.ses.executor
         && exists a: nat, b: nat :: a < b < i && AllowedAt(p, s.log, k.ses, k.decl, c, a, b)
    case Offered(c, _, _) => c < |s.calls| && s.calls[c].ses.gateway
    case Ran(c, _, _) => c < |s.calls| && s.calls[c].ses.executor
    case _ => true
  }

  ghost predicate Fit(fold: char -> char, p: Policies, s: State) {
    && (forall c :: 0 <= c < |s.calls| ==> CallFits(s.calls[c].ses, s.calls[c].pc))
    && forall i :: 0 <= i < |s.log| ==> EventFits(fold, p, s, i)
  }

  lemma MoveFits(fold: char -> char, s: State, c: nat, a: Answer)
    requires c < |s.calls| && CallFits(s.calls[c].ses, s.calls[c].pc)
    ensures var k, m := s.calls[c], MoveOf(fold, s, c, a);
            && CallFits(k.ses, m.pc)
            && (m.event.Some? ==>
                  match m.event.value
                  case Probed(e) =>
                    e == c && k.pc.Probing? && k.ses.executor && k.decl.operation in {"UPDATE", "DELETE"}
                  case Offered(e, _, _) => e == c && k.ses.gateway
                  case Ran(e, _, _) => e == c && k.ses.executor
                  case _ => true)
  {
    hide Validate, SwitchRead, RowRead, OpFromDecl;
    OperationNames(s.calls[c].decl.operation);
  }

  lemma EventStays(fold: char -> char, p: Policies, s: State, s': State, i: nat)
    requires Grows(s, s') && i < |s.log| && EventFits(fold, p, s, i)
    ensures EventFits(fold, p, s', i)
  {
    hide Validate, AllowedAt;
    assert s'.log[i] == s'.log[..|s.log|][i] == s.log[i];
    if s.log[i].Probed? {
      var k := s.calls[s.log[i].call];
      var a: nat, b: nat :| a < b < i && AllowedAt(p, s.log, k.ses, k.decl, s.log[i].call, a, b);
      AllowedAtPrefix(p, s.log, s'.log, k.ses, k.decl, s.log[i].call, a, b);
    }
  }

  lemma NewEventFits(fold: char -> char, p: Policies, s: State, c: nat, a: Answer)
    requires WriteSafety.Inv(fold, p, s) && Fit(fold, p, s) && c < |s.calls|
    ensures var s' := StepCall(fold, s, c, a); forall i :: |s.log| <= i < |s'.log| ==> EventFits(fold, p, s', i)
  {
    hide Validate, MoveOf, PolicyAt, RowAllows, SlotsOk, RunsOk, HasRow, HasOffer, HasAcceptance, EventFits;
    var m := MoveOf(fold, s, c, a);
    var s' := StepCall(fold, s, c, a);
    var k, t := s.calls[c], s.calls[c].trail;
    MoveFits(fold, s, c, a);
    assert CallOk(fold, p, s, c);
    if m.event.Some? {
      assert s'.log[|s.log|] == m.event.value;
      if m.event.value.Probed? {
        assert AllowedAt(p, s.log, k.ses, k.decl, c, t.switched, t.checked);
        assert s'.log[..|s.log|] == s.log;
        AllowedAtPrefix(p, s.log, s'.log, k.ses, k.decl, c, t.switched, t.checked);
        ProbeFits(fold, p, s', |s.log|, t.switched, t.checked);
      } else {
        PlainFits(fold, p, s', |s.log|);
      }
    }
  }

  lemma ProbeFits(fold: char -> char, p: Policies, s: State, i: nat, a: nat, b: nat)
    requires i < |s.log| && s.log[i].Probed? && s.log[i].call < |s.calls| && a < b < i
    requires var c, k := s.log[i].call, s.calls[s.log[i].call];
             && Validate(fold, k.ses, k.decl) == Admitted && k.decl.operation in {"UPDATE", "DELETE"} && k.ses.executor
             && AllowedAt(p, s.log, k.ses, k.decl, c, a, b)
    ensures EventFits(fold, p, s, i)
  {
    hide Validate, AllowedAt;
  }

  lemma PlainFits(fold: char -> char, p: Policies, s: State, i: nat)
    requires i < |s.log| && !s.log[i].Probed?
    requires s.log[i].Offered? ==> s.log[i].call < |s.calls| && s.calls[s.log[i].call].ses.gateway
    requires s.log[i].Ran? ==> s.log[i].call < |s.calls| && s.calls[s.log[i].call].ses.executor
    ensures EventFits(fold, p, s, i)
  {
  }

  lemma ActionFits(fold: char -> char, p: Policies, s: State, act: Action)
    requires WriteSafety.Inv(fold, p, s) && Fit(fold, p, s)
    ensures Fit(fold, p, Apply(fold, s, act))
  {
    hide MoveOf, EventFits, CallFits, WriteSafety.Inv;
    var s' := Apply(fold, s, act);
    if act.Advance? {
      if act.call < |s.calls| {
        MoveFits(fold, s, act.call, act.answer);
        StepGrows(fold, s, act.call, act.answer);
        NewEventFits(fold, p, s, act.call, act.answer);
        forall i | 0 <= i < |s.log| ensures EventFits(fold, p, s', i) { EventStays(fold, p, s, s', i); }
      }
    } else {
      EnvironmentGrows(fold, s, act);
      forall i | 0 <= i < |s'.log| ensures EventFits(fold, p, s', i) {
        if i < |s.log| { EventStays(fold, p, s, s', i); } else { PlainFits(fold, p, s', i); }
      }
      forall c | 0 <= c < |s'.calls| ensures CallFits(s'.calls[c].ses, s'.calls[c].pc) {
        if c >= |s.calls| { NewFits(s'.calls[c].ses); }
      }
    }
  }

  lemma NewFits(ses: Session)
    ensures CallFits(ses, Validating)
  {
  }

  lemma {:induction false} RunFits(fold: char -> char, p: Policies, actions: seq<Action>)
    ensures Fit(fold, p, Run(fold, p, actions))
  {
    hide Apply, WriteSafety.Inv, EventFits;
    if actions != [] {
      RunFits(fold, p, actions[..|actions| - 1]);
      WriteSafety.RunInv(fold, p, actions[..|actions| - 1]);
      ActionFits(fold, p, Run(fold, p, actions[..|actions| - 1]), actions[|actions| - 1]);
    }
  }

  /** In every run: a statement is explained only if it is an admitted UPDATE or DELETE whose
      flag was set when that was read before; a proposal is sent only where there is a
      gateway; and a statement is executed only where there is an executor. */
  lemma EventsFit(fold: char -> char, p: Policies, actions: seq<Action>, i: nat)
    requires i < |Run(fold, p, actions).log|
    ensures var s := Run(fold, p, actions);
            match s.log[i]
            case Probed(c) =>
              && c < |s.calls| && Classify(s.calls[c].decl.sql).Ok?
              && var k, op := s.calls[c], Classify(s.calls[c].decl.sql).c.op;
                 && op in {OpUpdate, OpDelete} && k.ses.executor
                 && exists a: nat, b: nat :: a < b < i && GrantedAt(p, s.log, KeyOf(k.ses, k.decl), op, a, b)
            case Offered(c, _, _) => c < |s.calls| && s.calls[c].ses.gateway
            case Ran(c, _, _) => c < |s.calls| && s.calls[c].ses.executor
            case _ => true
  {
    hide Run, Validate, AllowedAt, GrantedAt, Classify;
    RunFits(fold, p, actions);
    var s := Run(fold, p, actions);
    assert EventFits(fold, p, s, i);
    if s.log[i].Probed? {
      var c := s.log[i].call;
      var k := s.calls[c];
      var a: nat, b: nat :| a < b < i && AllowedAt(p, s.log, k.ses, k.decl, c, a, b);
      AllowedIsGranted(fold, p, s.log, k.ses, k.decl, c, a, b);
      AdmittedMeans(fold, k.ses, k.decl);
      TwoNames(k.decl.operation);
    }
  }

  lemma TwoNames(s: string)
    requires s in {"UPDATE", "DELETE"}
    ensures s != "INSERT" && s != "TRUNCATE" && s != "DDL"
  {
    assert s[0] == 'U' || s[0] == 'D';
    assert |s| == 6;
  }
}
