/** `handleProposeWrite` of `internal/chat/propose.go`, with the policy check of
    `internal/policy/policy.go`, the audit rows of `internal/store/ai_audit.go` and the
    pending decisions of `wsGateway.Propose` in `internal/api/chat.go`.

    Any number of calls are under way at once.  One action is one access to shared state:
    a call's own next step, an edit of the policies, a decision of the user, or a
    cancellation.  A run is any list of actions, so every interleaving is a run. */
module WriteProtocol {
  import opened Text
  import opened MysqlClassifier

  // ---------- what a call is given ----------

  /** The fields of the tool input; one that is missing or not a string is empty. */
  datatype Declaration = Declaration(database: string, table: string, operation: string, sql: string)

  datatype Session = Session(user: int, conn: int, defaultDB: string, gateway: bool, executor: bool)

  function OpFromDecl(s: string): Op {
    if s == "INSERT" then OpInsert
    else if s == "UPDATE" then OpUpdate
    else if s == "DELETE" then OpDelete
    else if s == "TRUNCATE" then OpTruncate
    else if s == "DDL" then OpDDL
    else OpUnknown
  }

  predicate ClassifiedMatches(c: Classified, declared: Op) {
    declared in {OpInsert, OpUpdate, OpDelete, OpTruncate, OpDDL} && c.op == declared
  }

  datatype Verdict = Admitted | Refused(reason: string)

  /** Steps 1 to 5b: everything that is decided before the policies are read. */
  function Validate(fold: char -> char, ses: Session, decl: Declaration): Verdict {
    if decl.database == "" || decl.table == "" || decl.operation == "" || decl.sql == "" then
      Refused("invalid_proposal")
    else
      match Classify(decl.sql)
      case EmptySQL => Refused("invalid_proposal")
      case Ok(c) =>
        if c.multi then Refused("multi_statement")
        else if !ClassifiedMatches(c, OpFromDecl(decl.operation)) then Refused("invalid_proposal")
        else
          var named := if c.db != "" then c.db else decl.database;
          var db := if named != "" then named else ses.defaultDB;
          if c.table == "" || db == "" then Refused("invalid_proposal")
          else if !EqualFold(fold, db, decl.database) || !EqualFold(fold, c.table, decl.table) then
            Refused("invalid_proposal")
          else if ses.defaultDB != "" && !EqualFold(fold, db, ses.defaultDB) then Refused("db_scope_denied")
          else Admitted
  }

  // ---------- policies ----------

  datatype PolicyKey = PolicyKey(user: int, conn: int, db: string, table: string)
  datatype Flags = Flags(insert: bool, update: bool, delete: bool, ddl: bool)

  /** The master switch per user and the rows of scope `ai`. */
  datatype Policies = Policies(enabled: set<int>, rows: map<PolicyKey, Flags>)

  /** Which of the two reads of a check fails, if any. */
  datatype Faults = Faults(switch: bool, row: bool)

  predicate FlagAllows(f: Flags, op: Op) {
    match op
    case OpInsert => f.insert
    case OpUpdate => f.update
    case OpDelete => f.delete
    case OpTruncate => f.delete
    case OpDDL => f.ddl
    case _ => false
  }

  /** The row for the declared table allows the declared operation. */
  predicate RowAllows(p: Policies, ses: Session, decl: Declaration) {
    var key := PolicyKey(ses.user, ses.conn, decl.database, decl.table);
    key in p.rows && FlagAllows(p.rows[key], OpFromDecl(decl.operation))
  }

  /** The first half of a policy check: the master switch is read, and is on. */
  predicate SwitchRead(p: Policies, fault: bool, ses: Session) { !fault && ses.user in p.enabled }

  /** The second half: the row is read, and allows the write. */
  predicate RowRead(p: Policies, fault: bool, ses: Session, decl: Declaration) { !fault && RowAllows(p, ses, decl) }

  // ---------- state ----------

  datatype Status = Proposed | Executed | Denied | Cancelled | Failed

  /** `call` is the call that wrote the row. */
  datatype AuditRow = AuditRow(call: nat, decl: Declaration, status: Status, rowsAffected: Option<int>)

  datatype Pc =
    | Validating
    | Checking
    | CheckingRow
    | WritingDenied(reason: string)
    | Probing
    | WritingProposed
    | Proposing
    | Waiting
    | Rechecking
    | RecheckingRow
    | Running
    | Closing(status: Status, rows: Option<int>)
    | Finished(reply: string)

  /** Where in the log the call's own events stand, once they are there. */
  datatype Trail = Trail(switched: nat, checked: nat, row: Option<nat>, written: nat, pid: nat, offered: nat,
                         decided: nat, received: nat, reswitched: nat, rechecked: nat, ran: Option<nat>)

  datatype Call = Call(ses: Session, decl: Declaration, pc: Pc, trail: Trail)

  /** The buffered channel of one proposal; a decision comes with its place in the log. */
  datatype Slot = Slot(call: nat, decision: Option<(bool, nat)>)

  datatype Event =
    | PoliciesEdited(policies: Policies)
    | Switched(call: nat, on: bool)
    | Checked(call: nat, allowed: bool)
    | Probed(call: nat)
    | RowWritten(call: nat, row: nat, status: Status)
    | Offered(call: nat, pid: nat, decl: Declaration)
    | UserDecided(pid: nat, accept: bool)
    | Received(call: nat, pid: nat, accept: bool)
    | Ran(call: nat, sql: string, affected: Option<int>)
    | RowUpdated(row: nat, status: Status, rows: Option<int>)
    | UpdateLost(row: nat)

  datatype State = State(policies: Policies, audit: seq<AuditRow>, calls: seq<Call>,
                         pending: map<nat, Slot>, usedPids: set<nat>, cancelled: set<nat>, log: seq<Event>)

  /** What the world answers to one step of a call: failing reads, writes and updates, the
      random proposal id, the select's choice, and the executor's result. */
  datatype Answer = Answer(faults: Faults, writeFails: bool, sendFails: bool, pid: nat,
                           preferCancel: bool, affected: Option<int>, updateFails: bool)

  datatype Action =
    | StartCall(ses: Session, decl: Declaration)
    | Advance(call: nat, answer: Answer)
    | EditPolicies(policies: Policies)
    | Decide(pid: nat, accept: bool)
    | Cancel(call: nat)

  function Init(p: Policies): State { State(p, [], [], map[], {}, {}, []) }

  const NO_TRAIL := Trail(0, 0, None, 0, 0, 0, 0, 0, 0, 0, None)

  function Log(s: State, e: Event): State { s.(log := s.log + [e]) }

  /** The status or error that the tool result reports when a proposed write is closed. */
  function Reply(status: Status): string {
    match status
    case Executed => "executed"
    case Denied => "policy_denied"
    case Failed => "failed"
    case Cancelled => "cancelled"
    case Proposed => "proposed"
  }

  // ---------- one step of a call ----------

  datatype RowChange = NoChange | Insert(status: Status) | Update(row: nat, status: Status, rows: Option<int>)
  datatype SlotChange = Kept | Opened(pid: nat) | Dropped(pid: nat)

  /** What a step does: where the call goes, what the log tells of it, and what it changes
      in the audit table, among the pending proposals and of the used ids. */
  datatype Move = Move(pc: Pc, trail: Trail, event: Option<Event>, rows: RowChange, slots: SlotChange, used: set<nat>)

  function To(k: Call, pc: Pc): Move { Move(pc, k.trail, None, NoChange, Kept, {}) }

  function Made(s: State, c: nat, m: Move): State
    requires c < |s.calls|
  {
    var k := s.calls[c];
    s.(calls := s.calls[c := k.(pc := m.pc, trail := m.trail)],
       audit := match m.rows
                case NoChange => s.audit
                case Insert(status) => s.audit + [AuditRow(c, k.decl, status, None)]
                case Update(row, status, rows) =>
                  if row < |s.audit| then s.audit[row := s.audit[row].(status := status, rowsAffected := rows)]
                  else s.audit,
       pending := match m.slots
                  case Kept => s.pending
                  case Opened(pid) => s.pending[pid := Slot(c, None)]
                  case Dropped(pid) => s.pending - {pid},
       usedPids := s.usedPids + m.used,
       log := if m.event.Some? then s.log + [m.event.value] else s.log)
  }

  /** The first half of a policy check, before the proposal and after it. */
  function ReadSwitch(s: State, c: nat, k: Call, a: Answer): Move {
    var on := SwitchRead(s.policies, a.faults.switch, k.ses);
    var m := To(k, k.pc).(event := Some(Switched(c, on)));
    if k.pc.Checking? then
      if on then m.(pc := CheckingRow, trail := k.trail.(switched := |s.log|))
          else m.(pc := WritingDenied("master_disabled"))
    else
      m.(pc := if on then RecheckingRow else Closing(Denied, None), trail := k.trail.(reswitched := |s.log|))
  }

  /** The second half. */
  function ReadRow(s: State, c: nat, k: Call, a: Answer): Move {
    var allowed := RowRead(s.policies, a.faults.row, k.ses, k.decl);
    var m := To(k, k.pc).(event := Some(Checked(c, allowed)));
    if k.pc.CheckingRow? then
      if allowed then m.(pc := Probing, trail := k.trail.(checked := |s.log|))
          else m.(pc := WritingDenied("policy_denied"))
    else
      var pc := if !allowed then Closing(Denied, None) else if k.ses.executor then Running else Closing(Failed, None);
      m.(pc := pc, trail := k.trail.(rechecked := |s.log|))
  }

  /** The audit row is written, denied or proposed. */
  function WriteRow(s: State, c: nat, k: Call, a: Answer): Move {
    var denied := k.pc.WritingDenied?;
    if a.writeFails then To(k, Finished(if denied then "policy_denied" else "audit_unavailable"))
    else
      var status := if denied then Denied else Proposed;
      var pc := if denied then Finished("policy_denied") else if k.ses.gateway then Proposing
          else Closing(Cancelled, None);
      To(k, pc).(trail := k.trail.(row := Some(|s.audit|), written := |s.log|),
                 event := Some(RowWritten(c, |s.audit|, status)), rows := Insert(status))
  }

  /** The proposal is sent to the user. */
  function Offer(s: State, c: nat, k: Call, a: Answer): Move {
    if a.pid in s.usedPids then To(k, k.pc)  // ids are random; one in use is never drawn again
    else if a.sendFails then To(k, Closing(Cancelled, None)).(used := {a.pid})
    else
      To(k, Waiting).(trail := k.trail.(pid := a.pid, offered := |s.log|),
                      event := Some(Offered(c, a.pid, k.decl)), slots := Opened(a.pid), used := {a.pid})
  }

  /** The select on the decision and the context. */
  function Await(s: State, c: nat, k: Call, a: Answer): Move {
    var pid := k.trail.pid;
    var slot := if pid in s.pending then s.pending[pid].decision else None;
    if c in s.cancelled && (a.preferCancel || slot.None?) then To(k, Closing(Cancelled, None)).(slots := Dropped(pid))
    else if slot.Some? then Taken(s, c, k, slot.value)
    else To(k, k.pc)  // blocked
  }

  /** A decision, which comes with its place in the log. */
  function Taken(s: State, c: nat, k: Call, decision: (bool, nat)): Move {
    To(k, if decision.0 then Rechecking else Closing(Cancelled, None)).(
      trail := k.trail.(decided := decision.1, received := |s.log|),
      event := Some(Received(c, k.trail.pid, decision.0)), slots := Dropped(k.trail.pid))
  }

  /** The executor runs the statement. */
  function Execute(s: State, c: nat, k: Call, a: Answer): Move {
    var pc := if a.affected.Some? then Closing(Executed, a.affected) else Closing(Failed, None);
    To(k, pc).(trail := k.trail.(ran := Some(|s.log|)), event := Some(Ran(c, k.decl.sql, a.affected)))
  }

  /** The row is given its last status. */
  function Close(s: State, k: Call, a: Answer): Move
    requires k.pc.Closing?
  {
    var row := k.trail.row.GetOr(0);
    var m := To(k, Finished(Reply(k.pc.status)));
    if a.updateFails || row >= |s.audit| then m.(event := Some(UpdateLost(row)))
    else m.(event := Some(RowUpdated(row, k.pc.status, k.pc.rows)), rows := Update(row, k.pc.status, k.pc.rows))
  }

  function MoveOf(fold: char -> char, s: State, c: nat, a: Answer): Move
    requires c < |s.calls|
  {
    var k := s.calls[c];
    match k.pc
    case Validating =>
      var v := Validate(fold, k.ses, k.decl);
      To(k, if v.Admitted? then Checking else Finished(v.reason))
    case Checking => ReadSwitch(s, c, k, a)
    case CheckingRow => ReadRow(s, c, k, a)
    case WritingDenied(_) => WriteRow(s, c, k, a)
    case Probing =>
      var probes := OpFromDecl(k.decl.operation) in {OpUpdate, OpDelete} && k.ses.executor;
      To(k, WritingProposed).(event := if probes then Some(Probed(c)) else None)
    case WritingProposed => WriteRow(s, c, k, a)
    case Proposing => Offer(s, c, k, a)
    case Waiting => Await(s, c, k, a)
    case Rechecking => ReadSwitch(s, c, k, a)
    case RecheckingRow => ReadRow(s, c, k, a)
    case Running => Execute(s, c, k, a)
    case Closing(_, _) => Close(s, k, a)
    case Finished(_) => To(k, k.pc)
  }

  /** The call's next step. */
  function StepCall(fold: char -> char, s: State, c: nat, a: Answer): State
    requires c < |s.calls|
  {
    Made(s, c, MoveOf(fold, s, c, a))
  }

  function Apply(fold: char -> char, s: State, a: Action): State {
    match a
    case StartCall(ses, decl) => s.(calls := s.calls + [Call(ses, decl, Validating, NO_TRAIL)])
    case Advance(c, answer) => if c < |s.calls| then StepCall(fold, s, c, answer) else s
    case EditPolicies(p) => Log(s.(policies := p), PoliciesEdited(p))
    case Decide(pid, accept) =>
      // the channel holds one decision; a reader with a second one waits
      if pid in s.pending && s.pending[pid].decision.None? then
        Log(s.(pending := s.pending[pid := s.pending[pid].(decision := Some((accept, |s.log|)))]),
            UserDecided(pid, accept))
      else s
    case Cancel(c) => s.(cancelled := s.cancelled + {c})
  }

  function Run(fold: char -> char, p: Policies, actions: seq<Action>): State {
    if actions == [] then Init(p) else Apply(fold, Run(fold, p, actions[..|actions| - 1]), actions[|actions| - 1])
  }
}
