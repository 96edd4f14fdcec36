/** Over all runs of the write protocol: what has to have happened before a proposed
    statement is executed. */
module WriteSafety {
  import opened Text
  import opened MysqlClassifier
  import opened WriteProtocol
  import SqlLexer
  import ScannerAgreement
  import ClassifierLaws

  /** The policies in force before the event at `i`. */
  function PolicyAt(p: Policies, log: seq<Event>, i: nat): Policies
    requires i <= |log|
  {
    if i == 0 then p
    else if log[i - 1].PoliciesEdited? then log[i - 1].policies
    else PolicyAt(p, log, i - 1)
  }

  // ---------- the stages of one call, read off the log ----------

  predicate At(log: seq<Event>, i: nat, e: Event) { i < |log| && log[i] == e }

  /** The master switch was on when it was read at `i`. */
  predicate SwitchedAt(p: Policies, log: seq<Event>, ses: Session, c: nat, i: nat) {
    At(log, i, Switched(c, true)) && ses.user in PolicyAt(p, log, i).enabled
  }

  /** A policy check reads twice, and the policies may be edited in between: the switch was
      on when it was read at `i`, and after that the row allowed the declared write when it
      was read at `j`. */
  predicate AllowedAt(p: Policies, log: seq<Event>, ses: Session, decl: Declaration, c: nat, i: nat, j: nat) {
    && SwitchedAt(p, log, ses, c, i) && i < j
    && At(log, j, Checked(c, true)) && RowAllows(PolicyAt(p, log, j), ses, decl)
  }

  predicate HasRow(p: Policies, log: seq<Event>, ses: Session, decl: Declaration, c: nat, t: Trail) {
    AllowedAt(p, log, ses, decl, c, t.switched, t.checked) && t.checked < t.written && t.row.Some?
    && At(log, t.written, RowWritten(c, t.row.value, Proposed))
  }

  predicate HasOffer(log: seq<Event>, decl: Declaration, c: nat, t: Trail) {
    t.written < t.offered && At(log, t.offered, Offered(c, t.pid, decl))
  }

  predicate HasAcceptance(log: seq<Event>, c: nat, t: Trail) {
    && t.offered < t.decided < t.received
    && At(log, t.decided, UserDecided(t.pid, true)) && At(log, t.received, Received(c, t.pid, true))
  }

  /** Everything that must lie behind the execution that the log shows at `k`: the
      statement was admitted, the policies let it through, a proposed row was written, the
      proposal was offered with that statement, the user accepted that proposal, and after
      the acceptance reached the call the policies were read again and let it through still. */
  predicate Cleared(fold: char -> char, p: Policies, log: seq<Event>, ses: Session, decl: Declaration,
                    c: nat, t: Trail, k: nat) {
    && Validate(fold, ses, decl) == Admitted
    && HasRow(p, log, ses, decl, c, t)
    && HasOffer(log, decl, c, t)
    && HasAcceptance(log, c, t)
    && AllowedAt(p, log, ses, decl, c, t.reswitched, t.rechecked)
    && t.received < t.reswitched && t.rechecked < k
  }

  // ---------- the invariant ----------

  predicate OwnsRow(s: State, c: nat, row: nat) {
    c < |s.calls| && row < |s.audit| && s.audit[row].call == c && s.audit[row].decl == s.calls[c].decl
  }

  predicate CallOk(fold: char -> char, p: Policies, s: State, c: nat)
    requires c < |s.calls|
  {
    var k := s.calls[c];
    var t := k.trail;
    && (!k.pc.Validating? && !k.pc.Finished? ==> Validate(fold, k.ses, k.decl) == Admitted)
    && (k.pc.CheckingRow? ==> SwitchedAt(p, s.log, k.ses, c, t.switched))
    && (k.pc.Probing? || k.pc.WritingProposed? ==> AllowedAt(p, s.log, k.ses, k.decl, c, t.switched, t.checked))
    && (k.pc.Proposing? || k.pc.Waiting? || k.pc.Rechecking? || k.pc.RecheckingRow? || k.pc.Running? || k.pc.Closing?
        ==>
        HasRow(p, s.log, k.ses, k.decl, c, t) && OwnsRow(s, c, t.row.value))
    && (k.pc.Waiting? ==>
          HasOffer(s.log, k.decl, c, t) && t.pid in s.usedPids && t.pid in s.pending && s.pending[t.pid].call == c)
    && (k.pc.Rechecking? || k.pc.RecheckingRow? || k.pc.Running? ==>
          HasOffer(s.log, k.decl, c, t) && HasAcceptance(s.log, c, t))
    && (k.pc.RecheckingRow? ==> SwitchedAt(p, s.log, k.ses, c, t.reswitched) && t.received < t.reswitched)
    && (k.pc.Running? ==> AllowedAt(p, s.log, k.ses, k.decl, c, t.reswitched, t.rechecked) && t.received < t.reswitched)
  }

  predicate SlotOk(s: State, pid: nat)
    requires pid in s.pending
  {
    var slot := s.pending[pid];
    && slot.call < |s.calls| && s.calls[slot.call].pc.Waiting? && s.calls[slot.call].trail.pid == pid
    && match slot.decision
       case None => true
       case Some((accept, at)) => s.calls[slot.call].trail.offered < at && At(s.log, at, UserDecided(pid, accept))
  }

  ghost predicate RunOk(fold: char -> char, p: Policies, s: State, k: nat)
    requires k < |s.log| && s.log[k].Ran?
  {
    var c := s.log[k].call;
    && c < |s.calls| && s.log[k].sql == s.calls[c].decl.sql
    && exists t :: Cleared(fold, p, s.log, s.calls[c].ses, s.calls[c].decl, c, t, k)
  }

  ghost predicate CallsOk(fold: char -> char, p: Policies, s: State) {
    forall c :: 0 <= c < |s.calls| ==> CallOk(fold, p, s, c)
  }

  ghost predicate SlotsOk(s: State) {
    forall pid :: pid in s.pending ==> SlotOk(s, pid)
  }

  ghost predicate RunsOk(fold: char -> char, p: Policies, s: State) {
    forall k :: 0 <= k < |s.log| && s.log[k].Ran? ==> RunOk(fold, p, s, k)
  }

  ghost predicate Inv(fold: char -> char, p: Policies, s: State) {
    && s.policies == PolicyAt(p, s.log, |s.log|)
    && CallsOk(fold, p, s)
    && SlotsOk(s)
    && RunsOk(fold, p, s)
  }

  // ---------- what a step leaves alone ----------

  /** `s'` adds to `s`: to its log, its rows and its proposal ids; calls keep their input. */
  ghost predicate Grows(s: State, s': State) {
    && |s.log| <= |s'.log| && s'.log[..|s.log|] == s.log
    && |s.audit| <= |s'.audit|
    && (forall i :: 0 <= i < |s.audit| ==> s'.audit[i].call == s.audit[i].call && s'.audit[i].decl == s.audit[i].decl)
    && s.usedPids <= s'.usedPids
    && |s.calls| <= |s'.calls|
    && forall c :: 0 <= c < |s.calls| ==> s'.calls[c].ses == s.calls[c].ses && s'.calls[c].decl == s.calls[c].decl
  }

  lemma {:induction false} PolicyAtPrefix(p: Policies, log: seq<Event>, log': seq<Event>, i: nat)
    requires i <= |log| <= |log'| && log'[..|log|] == log
    ensures PolicyAt(p, log', i) == PolicyAt(p, log, i)
  {
    if i > 0 {
      assert log'[i - 1] == log'[..|log|][i - 1];
      PolicyAtPrefix(p, log, log', i - 1);
    }
  }

  lemma AtPrefix(log: seq<Event>, log': seq<Event>, i: nat, e: Event)
    requires |log| <= |log'| && log'[..|log|] == log && At(log, i, e)
    ensures At(log', i, e)
  {
    assert log'[i] == log'[..|log|][i];
  }

  lemma SwitchedAtPrefix(p: Policies, log: seq<Event>, log': seq<Event>, ses: Session, c: nat, i: nat)
    requires |log| <= |log'| && log'[..|log|] == log && SwitchedAt(p, log, ses, c, i)
    ensures SwitchedAt(p, log', ses, c, i)
  {
    AtPrefix(log, log', i, Switched(c, true));
    PolicyAtPrefix(p, log, log', i);
  }

  lemma AllowedAtPrefix(p: Policies, log: seq<Event>, log': seq<Event>, ses: Session, decl: Declaration, c: nat,
                        i: nat, j: nat)
    requires |log| <= |log'| && log'[..|log|] == log && AllowedAt(p, log, ses, decl, c, i, j)
    ensures AllowedAt(p, log', ses, decl, c, i, j)
  {
    hide PolicyAt, RowAllows;
    SwitchedAtPrefix(p, log, log', ses, c, i);
    AtPrefix(log, log', j, Checked(c, true));
    PolicyAtPrefix(p, log, log', j);
  }

  /** The stages of a call, once in the log, stay there. */
  lemma StagesStay(p: Policies, log: seq<Event>, log': seq<Event>, ses: Session, decl: Declaration, c: nat, t: Trail)
    requires |log| <= |log'| && log'[..|log|] == log
    ensures SwitchedAt(p, log, ses, c, t.switched) ==> SwitchedAt(p, log', ses, c, t.switched)
    ensures SwitchedAt(p, log, ses, c, t.reswitched) ==> SwitchedAt(p, log', ses, c, t.reswitched)
    ensures HasRow(p, log, ses, decl, c, t) ==> HasRow(p, log', ses, decl, c, t)
    ensures HasOffer(log, decl, c, t) ==> HasOffer(log', decl, c, t)
    ensures HasAcceptance(log, c, t) ==> HasAcceptance(log', c, t)
    ensures AllowedAt(p, log, ses, decl, c, t.switched, t.checked) ==>
        AllowedAt(p, log', ses, decl, c, t.switched, t.checked)
    ensures AllowedAt(p, log, ses, decl, c, t.reswitched, t.rechecked) ==>
        AllowedAt(p, log', ses, decl, c, t.reswitched, t.rechecked)
  {
    hide RowAllows, PolicyAt;
    if SwitchedAt(p, log, ses, c, t.switched) { SwitchedAtPrefix(p, log, log', ses, c, t.switched); }
    if SwitchedAt(p, log, ses, c, t.reswitched) { SwitchedAtPrefix(p, log, log', ses, c, t.reswitched); }
    if AllowedAt(p, log, ses, decl, c, t.switched, t.checked) {
      AllowedAtPrefix(p, log, log', ses, decl, c, t.switched, t.checked);
    }
    if AllowedAt(p, log, ses, decl, c, t.reswitched, t.rechecked) {
      AllowedAtPrefix(p, log, log', ses, decl, c, t.reswitched, t.rechecked);
    }
    if HasRow(p, log, ses, decl, c, t) { AtPrefix(log, log', t.written, RowWritten(c, t.row.value, Proposed)); }
    if HasOffer(log, decl, c, t) { AtPrefix(log, log', t.offered, Offered(c, t.pid, decl)); }
    if HasAcceptance(log, c, t) {
      AtPrefix(log, log', t.decided, UserDecided(t.pid, true));
      AtPrefix(log, log', t.received, Received(c, t.pid, true));
    }
  }

  /** The stages of a call do not depend on what its trail says of later ones. */
  lemma LaterTrail(p: Policies, log: seq<Event>, ses: Session, decl: Declaration, c: nat, t: Trail, t': Trail)
    requires t' == t.(decided := t'.decided, received := t'.received, reswitched := t'.reswitched,
                      rechecked := t'.rechecked, ran := t'.ran)
    ensures HasRow(p, log, ses, decl, c, t) ==> HasRow(p, log, ses, decl, c, t')
    ensures HasOffer(log, decl, c, t) ==> HasOffer(log, decl, c, t')
    ensures HasAcceptance(log, c, t) && t'.decided == t.decided && t'.received == t.received ==>
        HasAcceptance(log, c, t')
  {
    hide AllowedAt;
  }

  lemma CallStays(fold: char -> char, p: Policies, s: State, s': State, c: nat)
    requires c < |s.calls| && CallOk(fold, p, s, c) && Grows(s, s') && s'.calls[c] == s.calls[c]
    requires s.calls[c].pc.Waiting? ==>
               var pid := s.calls[c].trail.pid; pid in s'.pending && s'.pending[pid].call == c
    ensures CallOk(fold, p, s', c)
  {
    hide Validate, RowAllows, AllowedAt, HasOffer, HasAcceptance;
    StagesStay(p, s.log, s'.log, s.calls[c].ses, s.calls[c].decl, c, s.calls[c].trail);
  }

  lemma RunsStay(fold: char -> char, p: Policies, s: State, s': State, k: nat)
    requires Grows(s, s') && k < |s.log| && s.log[k].Ran? && RunOk(fold, p, s, k)
    ensures s'.log[k] == s.log[k] && RunOk(fold, p, s', k)
  {
    hide Validate, AllowedAt, HasRow, HasOffer, HasAcceptance;
    assert s'.log[k] == s'.log[..|s.log|][k];
    var c := s.log[k].call;
    var t :| Cleared(fold, p, s.log, s.calls[c].ses, s.calls[c].decl, c, t, k);
    StagesStay(p, s.log, s'.log, s.calls[c].ses, s.calls[c].decl, c, t);
    assert Cleared(fold, p, s'.log, s'.calls[c].ses, s'.calls[c].decl, c, t, k);
  }

  /** A step that adds no execution keeps what is known of the executions. */
  lemma RunsKept(fold: char -> char, p: Policies, s: State, s': State)
    requires Grows(s, s') && RunsOk(fold, p, s)
    requires forall k :: |s.log| <= k < |s'.log| ==> !s'.log[k].Ran?
    ensures RunsOk(fold, p, s')
  {
    hide RunOk;
    forall k | 0 <= k < |s'.log| && s'.log[k].Ran? ensures RunOk(fold, p, s', k) {
      assert k < |s.log|;
      assert s'.log[k] == s'.log[..|s.log|][k];
      RunsStay(fold, p, s, s', k);
    }
  }

  // ---------- every step keeps the invariant ----------

  /** A step logs no edit of the policies, and an execution only where the call runs. */
  lemma MoveEvent(fold: char -> char, s: State, c: nat, a: Answer)
    requires c < |s.calls|
    ensures var e := MoveOf(fold, s, c, a).event;
            e.Some? ==> !e.value.PoliciesEdited? && (e.value.Ran? ==> s.calls[c].pc.Running?)
  {
    hide Validate, SwitchRead, RowRead;
  }

  lemma StepGrowsLog(fold: char -> char, s: State, c: nat, a: Answer)
    requires c < |s.calls|
    ensures var s' := StepCall(fold, s, c, a);
            && s'.policies == s.policies
            && (s'.log == s.log || exists e: Event ::
                  !e.PoliciesEdited? && (e.Ran? ==> s.calls[c].pc.Running?) && s'.log == s.log + [e])
  {
    MoveEvent(fold, s, c, a);
    hide MoveOf;
  }

  lemma StepGrowsRows(fold: char -> char, s: State, c: nat, a: Answer)
    requires c < |s.calls|
    ensures var s' := StepCall(fold, s, c, a);
            && |s.audit| <= |s'.audit|
            && (forall i :: 0 <= i < |s.audit| ==>
                  s'.audit[i].call == s.audit[i].call && s'.audit[i].decl == s.audit[i].decl)
            && s.usedPids <= s'.usedPids
  {
    hide MoveOf;
  }

  lemma StepGrows(fold: char -> char, s: State, c: nat, a: Answer)
    requires c < |s.calls|
    ensures Grows(s, StepCall(fold, s, c, a))
  {
    StepGrowsLog(fold, s, c, a);
    StepGrowsRows(fold, s, c, a);
    StepMoves(fold, s, c, a);
    StepInput(fold, s, c, a);
    hide StepCall;
    var s' := StepCall(fold, s, c, a);
    if s'.log != s.log {
      var e: Event :| !e.PoliciesEdited? && s'.log == s.log + [e] && (e.Ran? ==> s.calls[c].pc.Running?);
      assert s'.log[..|s.log|] == s.log;
    } else {
      assert s'.log[..|s.log|] == s.log;
    }
  }

  lemma StepInput(fold: char -> char, s: State, c: nat, a: Answer)
    requires c < |s.calls|
    ensures var s' := StepCall(fold, s, c, a);
            |s'.calls| == |s.calls| && s'.calls[c].ses == s.calls[c].ses && s'.calls[c].decl == s.calls[c].decl
  {
    hide MoveOf;
  }

  /** A step moves its own call only. */
  lemma StepMoves(fold: char -> char, s: State, c: nat, a: Answer)
    requires c < |s.calls|
    ensures var s' := StepCall(fold, s, c, a);
            && |s'.calls| == |s.calls|
            && forall e :: 0 <= e < |s.calls| && e != c ==> s'.calls[e] == s.calls[e]
  {
    hide MoveOf;
  }

  /** The step's event is half of a policy check, made against the policies in force. */
  lemma CheckLogged(p: Policies, s: State, s': State, e: Event)
    requires s.policies == PolicyAt(p, s.log, |s.log|) && s'.log == s.log + [e]
    ensures PolicyAt(p, s'.log, |s.log|) == s.policies && At(s'.log, |s.log|, e)
  {
    assert s'.log[..|s.log|] == s.log;
    PolicyAtPrefix(p, s.log, s'.log, |s.log|);
  }

  predicate ReadsPolicies(pc: Pc) { pc.Checking? || pc.CheckingRow? || pc.Rechecking? || pc.RecheckingRow? }

  lemma MovedCallOk(fold: char -> char, p: Policies, s: State, c: nat, a: Answer)
    requires Inv(fold, p, s) && c < |s.calls|
    ensures c < |StepCall(fold, s, c, a).calls| && CallOk(fold, p, StepCall(fold, s, c, a), c)
  {
    hide StepCall, CallOk, SlotOk, RunsOk;
    StepMoves(fold, s, c, a);
    if ReadsPolicies(s.calls[c].pc) {
      CheckMoved(fold, p, s, c, a);
    } else if s.calls[c].pc.Waiting? {
      WaitingMoved(fold, p, s, c, a);
    } else if s.calls[c].pc.Proposing? {
      OfferMoved(fold, p, s, c, a);
    } else if s.calls[c].pc.WritingProposed? {
      WriteMoved(fold, p, s, c, a);
    } else {
      PlainMoved(fold, p, s, c, a);
    }
  }

  lemma CheckMoved(fold: char -> char, p: Policies, s: State, c: nat, a: Answer)
    requires Inv(fold, p, s) && c < |s.calls| && ReadsPolicies(s.calls[c].pc)
    ensures CallOk(fold, p, StepCall(fold, s, c, a), c)
  {
    hide StepCall, CallOk, SlotOk, RunsOk;
    StepMoves(fold, s, c, a);
    if s.calls[c].pc.Checking? || s.calls[c].pc.Rechecking? {
      SwitchMoved(fold, p, s, c, a);
    } else {
      RowMoved(fold, p, s, c, a);
    }
  }

  lemma SwitchMoved(fold: char -> char, p: Policies, s: State, c: nat, a: Answer)
    requires Inv(fold, p, s) && c < |s.calls| && (s.calls[c].pc.Checking? || s.calls[c].pc.Rechecking?)
    ensures CallOk(fold, p, StepCall(fold, s, c, a), c)
  {
    hide Validate, AllowedAt, PolicyAt, RunsOk, SlotOk, RowRead, HasRow, HasOffer;
    var s', k := StepCall(fold, s, c, a), s.calls[c];
    StepGrows(fold, s, c, a);
    assert CallOk(fold, p, s, c);
    StagesStay(p, s.log, s'.log, k.ses, k.decl, c, k.trail);
    if k.pc.Rechecking? {
      LaterTrail(p, s'.log, k.ses, k.decl, c, k.trail, s'.calls[c].trail);
    }
    CheckLogged(p, s, s', Switched(c, SwitchRead(s.policies, a.faults.switch, k.ses)));
  }

  lemma RowMoved(fold: char -> char, p: Policies, s: State, c: nat, a: Answer)
    requires Inv(fold, p, s) && c < |s.calls| && (s.calls[c].pc.CheckingRow? || s.calls[c].pc.RecheckingRow?)
    ensures CallOk(fold, p, StepCall(fold, s, c, a), c)
  {
    hide Validate, RowAllows, PolicyAt, RunsOk, SlotOk, SwitchRead, HasRow, HasOffer, HasAcceptance;
    var s', k := StepCall(fold, s, c, a), s.calls[c];
    StepGrows(fold, s, c, a);
    assert CallOk(fold, p, s, c);
    StagesStay(p, s.log, s'.log, k.ses, k.decl, c, k.trail);
    if k.pc.RecheckingRow? {
      LaterTrail(p, s'.log, k.ses, k.decl, c, k.trail, s'.calls[c].trail);
    }
    CheckLogged(p, s, s', Checked(c, RowRead(s.policies, a.faults.row, k.ses, k.decl)));
  }

  lemma OfferMoved(fold: char -> char, p: Policies, s: State, c: nat, a: Answer)
    requires Inv(fold, p, s) && c < |s.calls| && s.calls[c].pc.Proposing?
    ensures CallOk(fold, p, StepCall(fold, s, c, a), c)
  {
    hide Validate, AllowedAt, RunsOk, SlotOk, SwitchRead, RowRead, HasAcceptance;
    var s', k := StepCall(fold, s, c, a), s.calls[c];
    StepGrows(fold, s, c, a);
    assert CallOk(fold, p, s, c);
    StagesStay(p, s.log, s'.log, k.ses, k.decl, c, k.trail);
  }

  lemma WriteMoved(fold: char -> char, p: Policies, s: State, c: nat, a: Answer)
    requires Inv(fold, p, s) && c < |s.calls| && s.calls[c].pc.WritingProposed?
    ensures CallOk(fold, p, StepCall(fold, s, c, a), c)
  {
    hide Validate, AllowedAt, RunsOk, SlotOk, HasOffer, HasAcceptance;
    var s', k := StepCall(fold, s, c, a), s.calls[c];
    StepGrows(fold, s, c, a);
    assert CallOk(fold, p, s, c);
    AllowedBefore(p, s.log, k.ses, k.decl, c, k.trail.switched, k.trail.checked);
    StagesStay(p, s.log, s'.log, k.ses, k.decl, c, k.trail);
  }

  lemma PlainMoved(fold: char -> char, p: Policies, s: State, c: nat, a: Answer)
    requires Inv(fold, p, s) && c < |s.calls| && !ReadsPolicies(s.calls[c].pc)
    requires !s.calls[c].pc.Waiting? && !s.calls[c].pc.Proposing? && !s.calls[c].pc.WritingProposed?
    ensures CallOk(fold, p, StepCall(fold, s, c, a), c)
  {
    hide Validate, AllowedAt, RunsOk, SlotOk, HasRow, HasOffer, HasAcceptance;
    var s', k := StepCall(fold, s, c, a), s.calls[c];
    StepGrows(fold, s, c, a);
    assert CallOk(fold, p, s, c);
    StagesStay(p, s.log, s'.log, k.ses, k.decl, c, k.trail);
    if k.pc.Running? {
      LaterTrail(p, s'.log, k.ses, k.decl, c, k.trail, s'.calls[c].trail);
    }
  }

  /** What the select comes to when there is a decision: it is taken, or the call is
      cancelled. */
  lemma AwaitIs(fold: char -> char, s: State, c: nat, a: Answer)
    requires c < |s.calls| && s.calls[c].pc.Waiting?
    ensures var k, m := s.calls[c], MoveOf(fold, s, c, a);
            || m == To(k, Waiting)
            || m == To(k, Closing(Cancelled, None)).(slots := Dropped(k.trail.pid))
            || (&& k.trail.pid in s.pending && s.pending[k.trail.pid].decision.Some?
                && m == Taken(s, c, k, s.pending[k.trail.pid].decision.value))
  {
  }

  lemma WaitingMoved(fold: char -> char, p: Policies, s: State, c: nat, a: Answer)
    requires Inv(fold, p, s) && c < |s.calls| && s.calls[c].pc.Waiting?
    ensures CallOk(fold, p, StepCall(fold, s, c, a), c)
  {
    hide MoveOf, Validate, AllowedAt, RunsOk, PolicyAt, HasRow, HasOffer, HasAcceptance;
    var k, m := s.calls[c], MoveOf(fold, s, c, a);
    AwaitIs(fold, s, c, a);
    assert CallOk(fold, p, s, c);
    StepGrows(fold, s, c, a);
    StagesStay(p, s.log, StepCall(fold, s, c, a).log, k.ses, k.decl, c, k.trail);
    if m.event.Some? {
      hide StepCall, CallOk, SlotOk;
      DecisionTaken(fold, p, s, c, m);
    }
  }

  lemma DecisionTaken(fold: char -> char, p: Policies, s: State, c: nat, m: Move)
    requires c < |s.calls| && s.calls[c].pc.Waiting? && CallOk(fold, p, s, c)
    requires s.calls[c].trail.pid in s.pending && SlotOk(s, s.calls[c].trail.pid)
    requires s.pending[s.calls[c].trail.pid].call == c && s.pending[s.calls[c].trail.pid].decision.Some?
    requires m == Taken(s, c, s.calls[c], s.pending[s.calls[c].trail.pid].decision.value)
    ensures CallOk(fold, p, Made(s, c, m), c)
  {
    hide Validate, AllowedAt, PolicyAt, HasRow, HasOffer, SwitchedAt;
    var s', k := Made(s, c, m), s.calls[c];
    var (accept, at) := s.pending[k.trail.pid].decision.value;
    assert s'.log[..|s.log|] == s.log;
    StagesStay(p, s.log, s'.log, k.ses, k.decl, c, k.trail);
    LaterTrail(p, s'.log, k.ses, k.decl, c, k.trail, s'.calls[c].trail);
    AtPrefix(s.log, s'.log, at, UserDecided(k.trail.pid, accept));
  }

  /** The proposals of other waiting calls are not touched. */
  lemma OtherSlots(fold: char -> char, p: Policies, s: State, c: nat, a: Answer, pid: nat)
    requires Inv(fold, p, s) && c < |s.calls| && pid in s.pending && s.pending[pid].call != c
    ensures var s' := StepCall(fold, s, c, a); pid in s'.pending && s'.pending[pid] == s.pending[pid]
  {
    hide Validate, RowAllows, PolicyAt, RunsOk, HasRow, HasAcceptance, AllowedAt;
    assert SlotOk(s, pid);
    assert CallOk(fold, p, s, s.pending[pid].call);
    assert CallOk(fold, p, s, c);
  }

  lemma OtherCallOk(fold: char -> char, p: Policies, s: State, c: nat, a: Answer, e: nat)
    requires Inv(fold, p, s) && c < |s.calls| && e < |s.calls| && e != c
    ensures CallOk(fold, p, StepCall(fold, s, c, a), e)
  {
    var s' := StepCall(fold, s, c, a);
    StepGrows(fold, s, c, a);
    StepMoves(fold, s, c, a);
    assert CallOk(fold, p, s, e);
    if s.calls[e].pc.Waiting? {
      OtherSlots(fold, p, s, c, a, s.calls[e].trail.pid);
    }
    hide StepCall, Grows, Inv;
    CallStays(fold, p, s, s', e);
  }

  lemma SlotsStay(fold: char -> char, p: Policies, s: State, c: nat, a: Answer, pid: nat)
    requires Inv(fold, p, s) && c < |s.calls| && pid in StepCall(fold, s, c, a).pending
    ensures SlotOk(StepCall(fold, s, c, a), pid)
  {
    hide StepCall, SlotOk, CallOk, RunsOk;
    if pid !in s.pending {
      NewSlot(fold, p, s, c, a, pid);
    } else if s.pending[pid].call == c {
      OwnSlot(fold, p, s, c, a, pid);
    } else {
      OtherSlot(fold, p, s, c, a, pid);
    }
  }

  lemma NewSlot(fold: char -> char, p: Policies, s: State, c: nat, a: Answer, pid: nat)
    requires c < |s.calls| && pid in StepCall(fold, s, c, a).pending && pid !in s.pending
    ensures SlotOk(StepCall(fold, s, c, a), pid)
  {
    hide Validate, ReadSwitch, ReadRow, WriteRow, Execute, Close;
    assert MoveOf(fold, s, c, a).slots == Opened(pid);
    SlotMoves(fold, s, c, a);
  }

  /** Only a proposal is a new entry among the pending ones. */
  lemma SlotMoves(fold: char -> char, s: State, c: nat, a: Answer)
    requires c < |s.calls|
    ensures var m := MoveOf(fold, s, c, a);
            && (m.slots.Opened? ==> s.calls[c].pc.Proposing? && m == Offer(s, c, s.calls[c], a))
            && (s.calls[c].pc.Waiting? && m.slots.Kept? ==> m == To(s.calls[c], Waiting))
  {
    hide Validate, SwitchRead, RowRead;
  }

  lemma OwnSlot(fold: char -> char, p: Policies, s: State, c: nat, a: Answer, pid: nat)
    requires Inv(fold, p, s) && c < |s.calls| && pid in StepCall(fold, s, c, a).pending
    requires pid in s.pending && s.pending[pid].call == c
    ensures SlotOk(StepCall(fold, s, c, a), pid)
  {
    SlotMoves(fold, s, c, a);
    hide MoveOf, CallOk, RunsOk;
    assert SlotOk(s, pid);
  }

  lemma OtherSlot(fold: char -> char, p: Policies, s: State, c: nat, a: Answer, pid: nat)
    requires Inv(fold, p, s) && c < |s.calls| && pid in s.pending && s.pending[pid].call != c
    ensures var s' := StepCall(fold, s, c, a); pid in s'.pending && SlotOk(s', pid)
  {
    hide StepCall, CallOk, RunsOk;
    var s', slot := StepCall(fold, s, c, a), s.pending[pid];
    assert SlotOk(s, pid);
    StepGrows(fold, s, c, a);
    StepMoves(fold, s, c, a);
    OtherSlots(fold, p, s, c, a, pid);
    if slot.decision.Some? {
      AtPrefix(s.log, s'.log, slot.decision.value.1, UserDecided(pid, slot.decision.value.0));
    }
  }

  lemma StepRunsOk(fold: char -> char, p: Policies, s: State, c: nat, a: Answer)
    requires Inv(fold, p, s) && c < |s.calls|
    ensures RunsOk(fold, p, StepCall(fold, s, c, a))
  {
    hide StepCall, CallOk, SlotOk, RunOk;
    if s.calls[c].pc.Running? {
      RunningRunsOk(fold, p, s, c, a);
    } else {
      StepGrows(fold, s, c, a);
      StepGrowsLog(fold, s, c, a);
      RunsKept(fold, p, s, StepCall(fold, s, c, a));
    }
  }

  lemma RunningRunsOk(fold: char -> char, p: Policies, s: State, c: nat, a: Answer)
    requires Inv(fold, p, s) && c < |s.calls| && s.calls[c].pc.Running?
    ensures RunsOk(fold, p, StepCall(fold, s, c, a))
  {
    hide Validate, RowAllows, PolicyAt, AllowedAt, HasRow, HasOffer, HasAcceptance;
    var s', k, n := StepCall(fold, s, c, a), s.calls[c], |s.log|;
    StepGrows(fold, s, c, a);
    assert CallOk(fold, p, s, c);
    StagesStay(p, s.log, s'.log, k.ses, k.decl, c, k.trail);
    AllowedBefore(p, s.log, k.ses, k.decl, c, k.trail.reswitched, k.trail.rechecked);
    assert Cleared(fold, p, s'.log, k.ses, k.decl, c, k.trail, n);
    assert RunOk(fold, p, s', n);
    hide StepCall, Grows, RunOk;
    forall i | 0 <= i < |s'.log| && s'.log[i].Ran? ensures RunOk(fold, p, s', i) {
      if i < n {
        assert s'.log[i] == s.log[i];
        RunsStay(fold, p, s, s', i);
      }
    }
  }

  lemma AllowedBefore(p: Policies, log: seq<Event>, ses: Session, decl: Declaration, c: nat, i: nat, j: nat)
    requires AllowedAt(p, log, ses, decl, c, i, j)
    ensures i < j < |log|
  {
  }

  lemma StepPolicies(fold: char -> char, p: Policies, s: State, c: nat, a: Answer)
    requires c < |s.calls| && s.policies == PolicyAt(p, s.log, |s.log|)
    ensures var s' := StepCall(fold, s, c, a); s'.policies == PolicyAt(p, s'.log, |s'.log|)
  {
    StepGrowsLog(fold, s, c, a);
    hide StepCall;
    var s' := StepCall(fold, s, c, a);
    if s'.log != s.log {
      var e: Event :| !e.PoliciesEdited? && s'.log == s.log + [e] && (e.Ran? ==> s.calls[c].pc.Running?);
      assert s'.log[..|s.log|] == s.log;
      PolicyAtPrefix(p, s.log, s'.log, |s.log|);
    }
  }

  lemma AdvanceInv(fold: char -> char, p: Policies, s: State, c: nat, a: Answer)
    requires Inv(fold, p, s) && c < |s.calls|
    ensures Inv(fold, p, StepCall(fold, s, c, a))
  {
    hide StepCall, CallOk, SlotOk, RunsOk, PolicyAt;
    var s' := StepCall(fold, s, c, a);
    StepPolicies(fold, p, s, c, a);
    StepMoves(fold, s, c, a);
    forall e | 0 <= e < |s'.calls| ensures CallOk(fold, p, s', e) {
      if e == c {
        MovedCallOk(fold, p, s, c, a);
      } else {
        OtherCallOk(fold, p, s, c, a, e);
      }
    }
    forall pid | pid in s'.pending ensures SlotOk(s', pid) {
      SlotsStay(fold, p, s, c, a, pid);
    }
    StepRunsOk(fold, p, s, c, a);
  }

  /** Steps that are not a call's own. */
  lemma EnvironmentInv(fold: char -> char, p: Policies, s: State, act: Action)
    requires Inv(fold, p, s) && !act.Advance?
    ensures Inv(fold, p, Apply(fold, s, act))
  {
    var s' := Apply(fold, s, act);
    EnvironmentGrows(fold, s, act);
    assert s'.policies == PolicyAt(p, s'.log, |s'.log|) by {
      if !act.EditPolicies? {
        PolicyAtPrefix(p, s.log, s'.log, |s.log|);
      }
    }
    hide PolicyAt, CallOk, SlotOk, RunOk;
    forall c | 0 <= c < |s'.calls| ensures CallOk(fold, p, s', c) {
      EnvironmentCall(fold, p, s, act, c);
    }
    forall pid | pid in s'.pending ensures SlotOk(s', pid) {
      EnvironmentSlot(fold, p, s, act, pid);
    }
    RunsKept(fold, p, s, s');
  }

  lemma EnvironmentCall(fold: char -> char, p: Policies, s: State, act: Action, c: nat)
    requires Inv(fold, p, s) && !act.Advance? && c < |Apply(fold, s, act).calls|
    ensures CallOk(fold, p, Apply(fold, s, act), c)
  {
    hide Validate, RowAllows, PolicyAt, AllowedAt, HasRow, HasOffer, HasAcceptance, SlotOk, RunsOk, Grows;
    EnvironmentGrows(fold, s, act);
    if c < |s.calls| {
      assert CallOk(fold, p, s, c);
      CallStays(fold, p, s, Apply(fold, s, act), c);
    }
  }

  lemma EnvironmentGrows(fold: char -> char, s: State, act: Action)
    requires !act.Advance?
    ensures var s' := Apply(fold, s, act);
            && Grows(s, s') && |s.calls| <= |s'.calls| && s'.calls[..|s.calls|] == s.calls
            && (forall k :: |s.log| <= k < |s'.log| ==> !s'.log[k].Ran?)
            && forall c :: 0 <= c < |s.calls| ==> s'.calls[c] == s.calls[c]
  {
    var s' := Apply(fold, s, act);
    assert s'.log[..|s.log|] == s.log;
  }

  lemma EnvironmentSlot(fold: char -> char, p: Policies, s: State, act: Action, pid: nat)
    requires Inv(fold, p, s) && !act.Advance? && pid in Apply(fold, s, act).pending
    ensures SlotOk(Apply(fold, s, act), pid)
  {
    hide Validate, RowAllows, PolicyAt, AllowedAt, HasRow, HasAcceptance, RunsOk;
    var s' := Apply(fold, s, act);
    assert pid in s.pending && SlotOk(s, pid);
    assert CallOk(fold, p, s, s.pending[pid].call);
    EnvironmentGrows(fold, s, act);
    var slot := s.pending[pid];
    if slot.decision.Some? {
      AtPrefix(s.log, s'.log, slot.decision.value.1, UserDecided(pid, slot.decision.value.0));
    }
  }

  lemma ApplyInv(fold: char -> char, p: Policies, s: State, act: Action)
    requires Inv(fold, p, s)
    ensures Inv(fold, p, Apply(fold, s, act))
  {
    if act.Advance? {
      hide StepCall, Inv;
      if act.call < |s.calls| {
        AdvanceInv(fold, p, s, act.call, act.answer);
      }
    } else {
      hide Inv, Apply;
      EnvironmentInv(fold, p, s, act);
    }
  }

  lemma {:induction false} RunInv(fold: char -> char, p: Policies, actions: seq<Action>)
    ensures Inv(fold, p, Run(fold, p, actions))
  {
    if actions != [] {
      hide Inv, Apply;
      RunInv(fold, p, actions[..|actions| - 1]);
      ApplyInv(fold, p, Run(fold, p, actions[..|actions| - 1]), actions[|actions| - 1]);
    }
  }

  // ---------- a proposal is offered once ----------

  /** The id was offered at `i` and nowhere else: it stands for one proposal of one call. */
  predicate OfferedOnlyAt(log: seq<Event>, pid: nat, i: nat) {
    forall j :: 0 <= j < |log| && log[j].Offered? && log[j].pid == pid ==> j == i
  }

  ghost predicate OffersOk(s: State) {
    forall i :: 0 <= i < |s.log| && s.log[i].Offered? ==>
      s.log[i].pid in s.usedPids && OfferedOnlyAt(s.log, s.log[i].pid, i)
  }

  lemma MoveOffers(fold: char -> char, s: State, c: nat, a: Answer)
    requires c < |s.calls|
    ensures var m := MoveOf(fold, s, c, a);
            m.event.Some? && m.event.value.Offered? ==>
              m.event.value.pid !in s.usedPids && m.used == {m.event.value.pid}
  {
    hide Validate, SwitchRead, RowRead;
  }

  lemma OffersKept(fold: char -> char, s: State, act: Action)
    requires OffersOk(s)
    ensures OffersOk(Apply(fold, s, act))
  {
    hide MoveOf;
    if act.Advance? && act.call < |s.calls| {
      MoveOffers(fold, s, act.call, act.answer);
    }
    var s' := Apply(fold, s, act);
    assert forall i :: 0 <= i < |s.log| ==> s'.log[i] == s.log[i];
  }

  lemma {:induction false} OffersInv(fold: char -> char, p: Policies, actions: seq<Action>)
    ensures OffersOk(Run(fold, p, actions))
  {
    hide Apply, OffersOk;
    if actions == [] {
      NoOffers(p);
    } else {
      OffersInv(fold, p, actions[..|actions| - 1]);
      OffersKept(fold, Run(fold, p, actions[..|actions| - 1]), actions[|actions| - 1]);
    }
  }

  lemma NoOffers(p: Policies)
    ensures OffersOk(Init(p))
  {
  }

  /** In every run, whatever policies are edited, proposals decided and calls cancelled in
      between: a statement that reaches the executor is the declared one of its call, that
      call was cleared, and the proposal that the user accepted is no other call's. */
  lemma WriteSafe(fold: char -> char, p: Policies, actions: seq<Action>, k: nat)
    requires var log := Run(fold, p, actions).log; k < |log| && log[k].Ran?
    ensures var s := Run(fold, p, actions);
            var c := s.log[k].call;
            && c < |s.calls| && s.log[k].sql == s.calls[c].decl.sql
            && exists t :: Cleared(fold, p, s.log, s.calls[c].ses, s.calls[c].decl, c, t, k)
                           && OfferedOnlyAt(s.log, t.pid, t.offered)
  {
    hide CallsOk, SlotsOk, PolicyAt, Apply, Validate, AllowedAt, OfferedOnlyAt;
    RunInv(fold, p, actions);
    OffersInv(fold, p, actions);
    var s := Run(fold, p, actions);
    assert RunOk(fold, p, s, k);
    var c := s.log[k].call;
    var t :| Cleared(fold, p, s.log, s.calls[c].ses, s.calls[c].decl, c, t, k);
    assert s.log[t.offered] == Offered(c, t.pid, s.calls[c].decl);
    assert OfferedOnlyAt(s.log, t.pid, t.offered);
  }

  // ---------- what being admitted means ----------

  /** A declaration is admitted exactly when no field is missing, its SQL is one statement,
      classified as the declared operation on the declared table and database (where the
      SQL names one), and the database is the one the session is pinned to, if any. */
  lemma AdmittedMeans(fold: char -> char, ses: Session, decl: Declaration)
    ensures Validate(fold, ses, decl) == Admitted <==>
            && decl.database != "" && decl.table != "" && decl.sql != ""
            && Classify(decl.sql).Ok?
            && var c := Classify(decl.sql).c;
               var db := if c.db != "" then c.db else decl.database;
               && !c.multi
               && (|| (c.op == OpInsert && decl.operation == "INSERT")
                   || (c.op == OpUpdate && decl.operation == "UPDATE")
                   || (c.op == OpDelete && decl.operation == "DELETE")
                   || (c.op == OpTruncate && decl.operation == "TRUNCATE")
                   || (c.op == OpDDL && decl.operation == "DDL"))
               && c.table != "" && Folded(fold, c.table) == Folded(fold, decl.table)
               && (c.db != "" ==> Folded(fold, c.db) == Folded(fold, decl.database))
               && (ses.defaultDB != "" ==> Folded(fold, db) == Folded(fold, ses.defaultDB))
  {
    hide Classify, EqualFold, Folded;
    if Classify(decl.sql).Ok? {
      var c := Classify(decl.sql).c;
      var db := if c.db != "" then c.db else decl.database;
      EqualFoldMeans(fold, db, decl.database);
      EqualFoldMeans(fold, c.table, decl.table);
      EqualFoldMeans(fold, db, ses.defaultDB);
      OperationNames(decl.operation);
    }
  }

  /** The operation that is declared is the one that the classifier found. */
  predicate Declares(operation: string, op: Op) {
    || (op == OpInsert && operation == "INSERT") || (op == OpUpdate && operation == "UPDATE")
    || (op == OpDelete && operation == "DELETE") || (op == OpTruncate && operation == "TRUNCATE")
    || (op == OpDDL && operation == "DDL")
  }

  /** No field is missing, and there is a statement. */
  predicate Complete(decl: Declaration) {
    && decl.database != "" && decl.table != "" && decl.operation != "" && decl.sql != ""
    && Classify(decl.sql).Ok?
  }

  /** The statement names the declared table, and the declared database where it names one. */
  predicate OnTarget(fold: char -> char, c: Classified, decl: Declaration) {
    && c.table != "" && Folded(fold, c.table) == Folded(fold, decl.table)
    && (c.db != "" ==> Folded(fold, c.db) == Folded(fold, decl.database))
  }

  /** What is refused is told why: several statements; or, where all else fits, another
      database than the pinned one; or that the proposal is not valid. */
  lemma RefusalTells(fold: char -> char, ses: Session, decl: Declaration)
    requires Validate(fold, ses, decl) != Admitted
    ensures Validate(fold, ses, decl).reason
         == if Complete(decl) && Classify(decl.sql).c.multi then "multi_statement"
            else if Complete(decl) && Declares(decl.operation, Classify(decl.sql).c.op)
                && OnTarget(fold, Classify(decl.sql).c, decl) then "db_scope_denied"
            else "invalid_proposal"
  {
    hide Classify, EqualFold, Folded;
    if Classify(decl.sql).Ok? {
      var c := Classify(decl.sql).c;
      EqualFoldMeans(fold, if c.db != "" then c.db else decl.database, decl.database);
      EqualFoldMeans(fold, c.table, decl.table);
      OperationNames(decl.operation);
    }
  }

  lemma OperationNames(s: string)
    ensures OpFromDecl(s) == OpInsert <==> s == "INSERT"
    ensures OpFromDecl(s) == OpUpdate <==> s == "UPDATE"
    ensures OpFromDecl(s) == OpDelete <==> s == "DELETE"
    ensures OpFromDecl(s) == OpTruncate <==> s == "TRUNCATE"
    ensures OpFromDecl(s) == OpDDL <==> s == "DDL"
  {
    assert "INSERT"[0] != "UPDATE"[0];
  }

  /** What reaches the executor is one statement for `splitSQL` too: cut there, exactly one
      of its statements is more than comments (in a text where both scanners read the same
      comments). */
  lemma OneStatementRuns(fold: char -> char, p: Policies, actions: seq<Action>, k: nat)
    requires var log := Run(fold, p, actions).log;
             k < |log| && log[k].Ran? && ScannerAgreement.Careful(SqlLexer.Normal, log[k].sql)
    ensures |ClassifierLaws.WithCode(SqlLexer.Statements(SqlLexer.IMPORT, SqlSpaces,
        Run(fold, p, actions).log[k].sql))| == 1
  {
    hide Run, Validate, HasRow, HasOffer, HasAcceptance, AllowedAt, Classify, ScannerAgreement.Careful,
        SqlLexer.Statements, ClassifierLaws.WithCode;
    WriteSafe(fold, p, actions, k);
    var s := Run(fold, p, actions);
    var call := s.calls[s.log[k].call];
    AdmittedMeans(fold, call.ses, call.decl);
    ClassifierLaws.MultiAgrees(call.decl.sql);
  }
}
