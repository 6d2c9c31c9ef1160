/** The gateway over its whole life, serving any number of requests at once: every audit append and
    every HSM command is a sequence of steps, the steps of different requests and connections
    interleave freely, and at any moment the process may end and be started again. */
module Machine {
  import opened Wrappers
  import opened Bytes
  import opened Protocol
  import opened Token
  import opened World
  import opened Pipeline
  import Chain
  import Config
  import A = Appends
  import M = HsmMachine

  type Tid = nat

  /** What stays fixed: the HSM's primitives and token objects, SHA-256, the label of the gateway's
      own key, and the signatures made before or outside. */
  datatype Env = Env(c: Crypto, sha: Chain.Sha, integrity: string, token: Store, outside: Signed)

  /** One request under the settings it arrived at: where it stands, and the events of its course so
      far. Whether its intent and its closing entry have been written, whether writing the closing
      entry failed, and whether the process ended before it was answered. */
  datatype Task = Task(g: Settings, cn: string, req: Request, pc: Pc, evs: seq<Event>,
                       began: bool, ended: bool, lost: bool, cut: bool)

  /** An entry about a connection, and whether its append is over. */
  datatype Notice = Notice(cn: string, outcome: Chain.Outcome, detail: string, over: bool)

  /** What a line of the log is to a request. */
  datatype Role = Opening | Closing | Other

  /** A line of the log: who wrote it and when its append was over. */
  datatype Line = Line(entry: Chain.Entry, owner: Tid, role: Role, published: Option<nat>)

  /** An HSM command that was started; the log's clock and the number of key uses then. */
  datatype Started = Started(tid: Tid, cmd: Cmd, at: nat, used: nat)

  /** `table` is that of the running process, and `log` its log. `lines` and `started` remember what
      happened in all processes so far. */
  datatype State = State(table: Config.Table, log: A.Log, hsm: M.Hsm, tasks: map<Tid, Task>,
                         notices: map<Tid, Notice>, lines: seq<Line>, started: seq<Started>)

  datatype Step =
    | Arrive(tid: Tid, cn: string, req: Request)
    | Notify(tid: Tid, cn: string, outcome: Chain.Outcome, detail: string)
    | LogStep(logStep: A.Step)
    | HsmStep(hsmStep: M.Step)
    | Restart(table: Config.Table)

  /** The gateway right after its first start on a log. */
  function Start(e: Env, table: Config.Table, base: seq<Chain.Entry>): State {
    State(table, A.Opened(base), M.Ready(e.token, e.outside), map[], map[], [], [])
  }

  // ---------------------------------------------------------- Log steps

  function RoleOf(pc: Pc): Role {
    match pc case Refuse(_) => Other case Open => Opening case _ => Closing
  }

  predicate TaskLogs(s: State, tid: Tid) {
    tid in s.tasks && !s.tasks[tid].cut && Logging(s.tasks[tid].pc)
  }

  predicate NoticeLogs(s: State, tid: Tid) {
    tid in s.notices && !s.notices[tid].over
  }

  /** A request or a connection that is about to append an entry, or doing so. */
  predicate Logs(s: State, tid: Tid) {
    TaskLogs(s, tid) || NoticeLogs(s, tid)
  }

  /** The entry a request is about to append, at time `ts`. */
  function DueBody(t: Task, ts: string): Chain.Body
    requires Logging(t.pc)
  {
    Chain.Body(ts, t.cn, OpName(t.req.Op()), t.req.keyLabel, Due(t.pc).0, Due(t.pc).1)
  }

  function NoticeBody(n: Notice, ts: string): Chain.Body {
    Chain.Body(ts, n.cn, "connect", "", n.outcome, n.detail)
  }

  predicate IsDue(s: State, tid: Tid, b: Chain.Body)
    requires Logs(s, tid)
  {
    b == if TaskLogs(s, tid) then DueBody(s.tasks[tid], b.ts) else NoticeBody(s.notices[tid], b.ts)
  }

  function RoleFor(s: State, tid: Tid): Role {
    if TaskLogs(s, tid) then RoleOf(s.tasks[tid].pc) else Other
  }

  function SetTask(s: State, tid: Tid, t: Task): State {
    s.(tasks := s.tasks[tid := t])
  }

  /** The event of an append that is over. */
  function AppendEvent(t: Task, ok: bool): Event
    requires Logging(t.pc)
  {
    Appended(t.cn, OpName(t.req.Op()), t.req.keyLabel, Due(t.pc).0, Due(t.pc).1, ok)
  }

  /** A request whose line has been written. */
  function TaskWrote(t: Task): Task {
    t.(began := t.began || t.pc.Open?, ended := t.ended || t.pc.Close?)
  }

  /** A request whose append is over moves on. */
  function TaskAppended(t: Task, ok: bool): Task
    requires Logging(t.pc)
  {
    t.(pc := AfterAppend(t.g, t.req, t.pc, ok), evs := t.evs + [AppendEvent(t, ok)], lost := !ok && t.pc.Close?)
  }

  /** The request, or the connection, after its log step. */
  function Moved(s: State, st: A.Step): State
    requires Logs(s, st.tid)
  {
    var tid := st.tid;
    if TaskLogs(s, tid) then
      var t := s.tasks[tid];
      match st
      case Read(_, _) => s
      case Write(_) => SetTask(s, tid, TaskWrote(t))
      case Publish(_) => SetTask(s, tid, TaskAppended(t, true))
      case Fail(_) => SetTask(s, tid, TaskAppended(t, false))
    else if st.Publish? || st.Fail? then s.(notices := s.notices[tid := s.notices[tid].(over := true)])
    else s
  }

  /** Where line `i` of the running process's log stands among all lines. */
  function Place(s: State, i: int): int {
    |s.lines| - |s.log.slots| + i
  }

  /** All lines, when the log becomes `log`. */
  function LinesAfter(s: State, st: A.Step, log: A.Log): seq<Line> {
    if st.Write? && |log.slots| > 0 then
      s.lines + [Line(log.slots[|log.slots| - 1].entry, st.tid, RoleFor(s, st.tid), None)]
    else if st.Publish? && 0 <= Place(s, log.headIs) < |s.lines| then
      var k := Place(s, log.headIs);
      s.lines[k := s.lines[k].(published := Some(s.log.clock))]
    else s.lines
  }

  function NextLog(e: Env, s: State, st: A.Step): Option<State> {
    if !Logs(s, st.tid) || (st.Read? && !IsDue(s, st.tid, st.body)) then None
    else
      match A.Next(e.sha, s.log, st)
      case None => None
      case Some(log) => Some(Moved(s, st).(log := log, lines := LinesAfter(s, st, log)))
  }

  // ---------------------------------------------------------- HSM steps

  /** A request whose HSM call answered moves on. */
  function Resume(t: Task, ans: Answer): Task
    requires t.pc.Call?
  {
    t.(pc := AfterCall(t.g, t.req, PeerOf(t.req), t.pc.cmd, t.pc.why, ans),
       evs := t.evs + [Called(t.pc.cmd, ans)])
  }

  predicate TaskCalls(s: State, tid: Tid) {
    tid in s.tasks && !s.tasks[tid].cut && s.tasks[tid].pc.Call?
  }

  ghost function NextHsm(e: Env, s: State, st: M.Step): Option<State> {
    var tid := st.tid;
    if !TaskCalls(s, tid) then None
    else
      var t := s.tasks[tid];
      match M.Next(e.c, s.hsm, st)
      case None => None
      case Some(hsm) =>
        match st
        case Enter(_, cmd) =>
          if cmd == t.pc.cmd
          then Some(s.(hsm := hsm, started := s.started + [Started(tid, cmd, s.log.clock, |s.hsm.uses|)])) else None
        case Finish(_) =>
          if tid in s.hsm.calls && s.hsm.calls[tid].Answered?
          then Some(SetTask(s, tid, Resume(t, s.hsm.calls[tid].ans)).(hsm := hsm)) else None
        case _ => Some(s.(hsm := hsm))
  }

  // ------------------------------------------------------ Whole runs

  /** No Rust string is 2^64 bytes long. */
  predicate RequestFits(req: Request) {
    && |Utf8(req.keyLabel)| < U64
    && |req.dataB64| < U64
    && (req.IntegrityInput().Some? ==> |req.ivB64| < U64 && |req.integrityB64| < U64)
  }

  /** The two entries a connection may give rise to. */
  predicate NoticeOk(outcome: Chain.Outcome, detail: string) {
    outcome == Chain.CertExpiringSoon
    || (outcome == Chain.Denied && detail == "cert_policy_violation: validity exceeds maximum")
  }

  /** What the end of the process leaves of its requests: those not answered never will be. */
  function CutOff(tasks: map<Tid, Task>): map<Tid, Task> {
    map t | t in tasks :: if tasks[t].pc.Done? then tasks[t] else tasks[t].(cut := true)
  }

  function AllOver(notices: map<Tid, Notice>): map<Tid, Notice> {
    map t | t in notices :: notices[t].(over := true)
  }

  /** A new process: the log is opened again, which takes a file that verifies, a configuration is
      loaded, the device's sessions are gone, and its keys and what they signed are still there. */
  ghost function Restarted(e: Env, s: State, table: Config.Table): Option<State> {
    if Chain.Chained(e.sha, A.Entries(s.log)) && Config.TableOk(table, e.integrity)
    then Some(s.(table := table, log := A.Reopened(s.log), hsm := M.Restarted(e.token, s.hsm),
                 tasks := CutOff(s.tasks), notices := AllOver(s.notices)))
    else None
  }

  ghost function Next(e: Env, s: State, st: Step): Option<State> {
    match st
    case Arrive(tid, cn, req) =>
      if tid in s.tasks || tid in s.notices || !RequestFits(req) then None
      else
        var g := Settings(s.table, e.integrity);
        Some(SetTask(s, tid, Task(g, cn, req, Begin(g, cn, Some(req)), [], false, false, false, false)))
    case Notify(tid, cn, outcome, detail) =>
      if tid in s.tasks || tid in s.notices || !NoticeOk(outcome, detail) then None
      else Some(s.(notices := s.notices[tid := Notice(cn, outcome, detail, false)]))
    case LogStep(l) => NextLog(e, s, l)
    case HsmStep(h) => NextHsm(e, s, h)
    case Restart(table) => Restarted(e, s, table)
  }

  ghost function Run(e: Env, s: State, steps: seq<Step>): Option<State>
    decreases |steps|
  {
    if steps == [] then Some(s)
    else match Next(e, s, steps[0])
      case None => None
      case Some(r) => Run(e, r, steps[1..])
  }

  /** Some steps lead from `s` to `s'`. */
  ghost predicate Leads(e: Env, s: State, s': State) {
    exists steps :: Run(e, s, steps) == Some(s')
  }

  /** `s` is a state of the gateway some time after its first start on the log `base`. */
  ghost predicate Reached(e: Env, base: seq<Chain.Entry>, s: State) {
    exists table, steps :: Config.TableOk(table, e.integrity) && Run(e, Start(e, table, base), steps) == Some(s)
  }

  /** What holds now and survives every step holds at the end of a run. */
  lemma {:induction false} HoldsOfRun(e: Env, s: State, steps: seq<Step>, s': State, inv: State -> bool)
    requires Run(e, s, steps) == Some(s') && inv(s)
    requires forall r, st :: st in steps && inv(r) && Next(e, r, st).Some? ==> inv(Next(e, r, st).value)
    ensures inv(s')
    decreases |steps|
  {
    hide Next;
    if steps != [] {
      assert steps[0] in steps;
      HoldsOfRun(e, Next(e, s, steps[0]).value, steps[1..], s', inv);
    }
  }

  lemma HoldsLater(e: Env, s: State, s': State, inv: State -> bool)
    requires Leads(e, s, s') && inv(s)
    requires forall r, st :: inv(r) && Next(e, r, st).Some? ==> inv(Next(e, r, st).value)
    ensures inv(s')
  {
    hide Next, Run;
    var steps :| Run(e, s, steps) == Some(s');
    HoldsOfRun(e, s, steps, s', inv);
  }

  lemma HoldsOfReached(e: Env, base: seq<Chain.Entry>, s: State, inv: State -> bool)
    requires Reached(e, base, s)
    requires forall table :: Config.TableOk(table, e.integrity) ==> inv(Start(e, table, base))
    requires forall r, st :: inv(r) && Next(e, r, st).Some? ==> inv(Next(e, r, st).value)
    ensures inv(s)
  {
    hide Next, Run, Config.TableOk;
    var table, steps :| Config.TableOk(table, e.integrity) && Run(e, Start(e, table, base), steps) == Some(s);
    HoldsOfRun(e, Start(e, table, base), steps, s, inv);
  }

  // -------------------------------------------------- Setting and ties

  /** This is the key pair behind the gateway's label. */
  ghost predicate IntegrityKey(e: Env, key: seq<byte>) {
    exists q :: q in e.token && e.token[q].kind == PublicKey && e.token[q].keyLabel == e.integrity && e.token[q].key == key
  }

  /** The integrity label's public key verifies exactly what private keys of that label sign, and
      these have been used by the gateway only. */
  ghost predicate DedicatedKey(e: Env) {
    && (forall p | p in e.token && e.token[p].kind == PrivateKey ::
          IntegrityKey(e, e.token[p].key) ==> e.token[p].keyLabel == e.integrity)
    && (forall p, q | p in e.token && q in e.token && e.token[p].kind == PrivateKey && e.token[q].kind == PublicKey
                      && e.token[p].keyLabel == e.integrity && e.token[q].keyLabel == e.integrity ::
          e.token[p].key == e.token[q].key)
    && (forall x :: x in e.outside ==> !IntegrityKey(e, x.0))
  }

  ghost predicate EnvOk(e: Env) {
    M.IsToken(e.token) && DedicatedKey(e)
  }

  ghost predicate SettingsOk(e: Env, g: Settings) {
    g.integrity == e.integrity && Config.TableOk(g.table, e.integrity)
  }

  /** A main command names the request's own label; the gateway's label is only ever used to check
      and to seal. */
  predicate CommandOk(e: Env, req: Request, cmd: Cmd, why: Why) {
    match why
    case Main => cmd.keyLabel == req.keyLabel
    case Checking => cmd.VerifyCmd? && cmd.keyLabel == e.integrity
    case Sealing(_, _) => cmd.SignCmd? && cmd.keyLabel == e.integrity
  }

  /** Which lines a request has written at each point of its course; `wrote` says that it is in the
      middle of an append that has written its line. */
  predicate Course(e: Env, t: Task, wrote: bool) {
    match t.pc
    case Refuse(_) => !t.began && !t.lost
    case Open => (t.began <==> wrote) && !t.ended && !t.lost
    case Call(cmd, why) => t.began && !t.ended && !t.lost && CommandOk(e, t.req, cmd, why)
    case Close(_) => t.began && (t.ended <==> wrote) && !t.lost
    case Done(_) => !t.cut && if t.began then t.ended <==> !t.lost else !t.lost
  }

  predicate Wrote(s: State, tid: Tid) {
    tid in s.log.pending && s.log.pending[tid].HasWritten?
  }

  ghost predicate TaskOk(e: Env, s: State, tid: Tid)
    requires tid in s.tasks
  {
    var t := s.tasks[tid];
    && RequestFits(t.req) && SettingsOk(e, t.g)
    && (tid in s.log.pending ==> TaskLogs(s, tid))
    && (t.ended ==> t.began)
    && (t.began || t.pc.Open? ==> Permitted(t.g, t.cn, t.req))
    && if t.cut then Course(e, t, false) || Course(e, t, true) else Course(e, t, Wrote(s, tid))
  }

  ghost predicate PendingOk(s: State, tid: Tid)
    requires tid in s.log.pending
  {
    && Logs(s, tid)
    && match s.log.pending[tid]
       case HasRead(body, _, _, _) => IsDue(s, tid, body)
       case HasWritten(i) =>
         && i < |s.log.slots| && s.log.slots[i].owner == tid && s.log.slots[i].published.None?
         && 0 <= Place(s, i) < |s.lines| && s.lines[Place(s, i)].role == RoleFor(s, tid)
         && LineIs(s.log.slots[i].entry, s, tid)
  }

  /** The line says what is due. */
  predicate LineIs(line: Chain.Entry, s: State, tid: Tid)
    requires Logs(s, tid)
  {
    IsDue(s, tid, Chain.Body(line.ts, line.cn, line.operation, line.keyLabel, line.outcome, line.detail))
  }

  predicate IsFor(line: Chain.Entry, t: Task) {
    line.cn == t.cn && line.operation == OpName(t.req.Op()) && line.keyLabel == t.req.keyLabel
  }

  /** The running process's lines are the last of all lines. */
  ghost predicate LinesTied(s: State) {
    && |s.log.slots| <= |s.lines|
    && forall i :: 0 <= i < |s.log.slots| ==> SameLine(s.log.slots[i], s.lines[Place(s, i)])
  }

  predicate SameLine(slot: A.Slot, line: Line) {
    line.entry == slot.entry && line.owner == slot.owner && line.published == slot.published
  }

  ghost predicate CallTied(s: State, tid: Tid)
    requires tid in s.hsm.calls
  {
    TaskCalls(s, tid) && s.tasks[tid].pc.cmd == s.hsm.calls[tid].cmd
  }

  ghost predicate Ties(e: Env, s: State) {
    && EnvOk(e) && Config.TableOk(s.table, e.integrity)
    && M.Inv(e.c, e.token, s.hsm)
    && LinesTied(s)
    && (forall t :: t in s.tasks ==> t !in s.notices)
    && (forall t {:trigger TaskOk(e, s, t)} :: t in s.tasks ==> TaskOk(e, s, t))
    && (forall t {:trigger PendingOk(s, t)} :: t in s.log.pending ==> PendingOk(s, t))
    && (forall t {:trigger CallTied(s, t)} :: t in s.hsm.calls ==> CallTied(s, t))
  }

  lemma StartTies(e: Env, table: Config.Table, base: seq<Chain.Entry>)
    requires EnvOk(e) && Config.TableOk(table, e.integrity)
    ensures Ties(e, Start(e, table, base))
  {
    M.ReadyInv(e.c, e.token, e.outside);
  }

  lemma TiesLines(e: Env, s: State)
    requires Ties(e, s)
    ensures LinesTied(s)
  {
    hide M.Inv, TaskOk, PendingOk, CallTied, EnvOk, LinesTied, Config.TableOk;
  }

  /** A step of one request or connection does not move another. */
  lemma OthersTied(e: Env, s: State, s': State, tid: Tid)
    requires Ties(e, s)
    requires forall u :: u != tid ==> (u in s'.tasks <==> u in s.tasks) && (u in s'.notices <==> u in s.notices)
    requires forall u :: u != tid && u in s.tasks ==> s'.tasks[u] == s.tasks[u]
    requires forall u :: u != tid && u in s.notices ==> s'.notices[u] == s.notices[u]
    requires forall u :: u != tid ==> (u in s'.log.pending <==> u in s.log.pending)
    requires forall u :: u != tid && u in s.log.pending ==> s'.log.pending[u] == s.log.pending[u]
    requires forall u :: u != tid ==> (u in s'.hsm.calls <==> u in s.hsm.calls)
    requires forall u :: u != tid && u in s.hsm.calls ==> s'.hsm.calls[u].cmd == s.hsm.calls[u].cmd
    requires |s.log.slots| <= |s'.log.slots| && |s'.lines| - |s'.log.slots| == |s.lines| - |s.log.slots|
    requires forall i :: 0 <= i < |s.log.slots| ==>
      && s'.log.slots[i].entry == s.log.slots[i].entry && s'.log.slots[i].owner == s.log.slots[i].owner
      && (s.log.slots[i].owner != tid ==> s'.log.slots[i].published == s.log.slots[i].published)
    requires forall k :: 0 <= k < |s.lines| ==> s'.lines[k].role == s.lines[k].role
    ensures forall u :: u != tid && u in s'.tasks ==> u !in s'.notices && TaskOk(e, s', u)
    ensures forall u :: u != tid && u in s'.log.pending ==> PendingOk(s', u)
    ensures forall u :: u != tid && u in s'.hsm.calls ==> CallTied(s', u)
  {
    hide M.Inv, EnvOk, Config.TableOk, LinesTied, TaskOk, PendingOk, CallTied, Place;
    forall u | u != tid && u in s'.tasks ensures u !in s'.notices && TaskOk(e, s', u) {
      OtherTaskOk(e, s, s', u);
    }
    forall u | u != tid && u in s'.log.pending ensures PendingOk(s', u) {
      OtherPendingOk(s, s', u);
    }
    forall u | u != tid && u in s'.hsm.calls ensures CallTied(s', u) {
      OtherCallTied(s, s', u);
    }
  }

  lemma OtherTaskOk(e: Env, s: State, s': State, u: Tid)
    requires u in s.tasks && TaskOk(e, s, u) && u in s'.tasks && s'.tasks[u] == s.tasks[u]
    requires u in s'.log.pending <==> u in s.log.pending
    requires u in s.log.pending ==> s'.log.pending[u] == s.log.pending[u]
    ensures TaskOk(e, s', u)
  {
    hide RequestFits, Permitted, SettingsOk, Course, Logging;
  }

  lemma OtherPendingOk(s: State, s': State, u: Tid)
    requires u in s.log.pending && PendingOk(s, u) && u in s'.log.pending && s'.log.pending[u] == s.log.pending[u]
    requires (u in s'.tasks <==> u in s.tasks) && (u in s'.notices <==> u in s.notices)
    requires (u in s.tasks ==> s'.tasks[u] == s.tasks[u]) && (u in s.notices ==> s'.notices[u] == s.notices[u])
    requires |s.log.slots| <= |s'.log.slots| && |s'.lines| - |s'.log.slots| == |s.lines| - |s.log.slots|
    requires forall i :: 0 <= i < |s.log.slots| ==>
      && s'.log.slots[i].entry == s.log.slots[i].entry && s'.log.slots[i].owner == s.log.slots[i].owner
      && (s.log.slots[i].owner == u ==> s'.log.slots[i].published == s.log.slots[i].published)
    requires forall k :: 0 <= k < |s.lines| ==> s'.lines[k].role == s.lines[k].role
    ensures PendingOk(s', u)
  {
    hide Due, OpName, DueBody, NoticeBody, Logging, RoleOf;
  }

  lemma OtherCallTied(s: State, s': State, u: Tid)
    requires u in s.hsm.calls && CallTied(s, u) && u in s'.hsm.calls && s'.hsm.calls[u].cmd == s.hsm.calls[u].cmd
    requires u in s.tasks ==> u in s'.tasks && s'.tasks[u] == s.tasks[u]
    ensures CallTied(s', u)
  {
  }

  /** What a permitted request asks of the HSM names a label that is neither empty nor the
      gateway's own. */
  lemma GrantedLabel(e: Env, g: Settings, cn: string, req: Request)
    requires SettingsOk(e, g) && Permitted(g, cn, req)
    ensures req.keyLabel != "" && req.keyLabel != e.integrity
    ensures Config.Authorized(g.table, cn, req.Op(), req.keyLabel)
  {
    assert Config.Grant(cn, req.Op(), req.keyLabel) in g.table.grants;
  }

  lemma CommandShapes(e: Env, g: Settings, req: Request, cmd: Cmd, why: Why, ans: Answer)
    requires g.integrity == e.integrity
    requires why == Main ==> cmd.keyLabel == req.keyLabel
    ensures var pc := Pipeline.Start(g, req, PeerOf(req)); pc.Call? ==> CommandOk(e, req, pc.cmd, pc.why)
    ensures var pc := AfterCall(g, req, PeerOf(req), cmd, why, ans); pc.Call? ==> CommandOk(e, req, pc.cmd, pc.why)
  {
    hide IntegrityPayload;
  }

  // --------------------------------------------- Every step keeps the ties

  /** What a log step leaves alone. */
  lemma LogStepFrame(e: Env, s: State, st: A.Step, s': State)
    requires NextLog(e, s, st) == Some(s')
    ensures Logs(s, st.tid)
    ensures s'.hsm == s.hsm && s'.table == s.table && s'.started == s.started
    ensures forall u :: u in s'.tasks <==> u in s.tasks
    ensures forall u :: u in s'.notices <==> u in s.notices
    ensures forall u :: u != st.tid && u in s.tasks ==> s'.tasks[u] == s.tasks[u]
    ensures forall u :: u != st.tid && u in s.notices ==> s'.notices[u] == s.notices[u]
    ensures forall u :: u != st.tid ==> (u in s'.log.pending <==> u in s.log.pending)
    ensures forall u :: u != st.tid && u in s.log.pending ==> s'.log.pending[u] == s.log.pending[u]
    ensures |s.log.slots| <= |s'.log.slots|
    ensures st.Publish? || st.Fail? ==> st.tid !in s'.log.pending && st.tid in s.log.pending
    ensures st.Publish? || st.Fail? ==> s.log.pending[st.tid].HasWritten? == st.Publish?
    ensures st.Write? ==> st.tid in s.log.pending && s.log.pending[st.tid].HasRead?
  {
    hide Chain.EntryHash, IsDue, AfterAppend, Due, OpName, LinesAfter;
  }

  lemma ArriveKeepsTies(e: Env, s: State, st: Step, s': State)
    requires Ties(e, s) && (st.Arrive? || st.Notify?) && Next(e, s, st) == Some(s')
    ensures Ties(e, s')
  {
    hide RequestFits, Begin, M.Inv, EnvOk, Config.TableOk, NoticeOk, TaskOk, PendingOk, CallTied, LinesTied;
    assert LinesTied(s') by { SameLines(s, s'); }
    NewcomerIsNew(e, s, st.tid);
    OthersTied(e, s, s', st.tid);
    if st.Arrive? {
      NewTaskOk(e, s', st.tid);
    }
  }

  lemma SameLines(s: State, s': State)
    requires LinesTied(s) && s'.log == s.log && s'.lines == s.lines
    ensures LinesTied(s')
  {
  }

  lemma NewcomerIsNew(e: Env, s: State, tid: Tid)
    requires Ties(e, s) && tid !in s.tasks && tid !in s.notices
    ensures tid !in s.log.pending && tid !in s.hsm.calls
  {
    hide TaskOk, M.Inv, LinesTied, EnvOk;
    assert tid in s.log.pending ==> PendingOk(s, tid);
    assert tid in s.hsm.calls ==> CallTied(s, tid);
  }

  lemma NewTaskOk(e: Env, s: State, tid: Tid)
    requires tid in s.tasks && tid !in s.log.pending && RequestFits(s.tasks[tid].req) && SettingsOk(e, s.tasks[tid].g)
    requires var t := s.tasks[tid];
      t == Task(t.g, t.cn, t.req, Begin(t.g, t.cn, Some(t.req)), [], false, false, false, false)
    ensures TaskOk(e, s, tid)
  {
    hide RequestFits, SettingsOk, Begin;
    BeginShape(s.tasks[tid].g, s.tasks[tid].cn, Some(s.tasks[tid].req));
  }

  lemma ReadKeepsTies(e: Env, s: State, tid: Tid, body: Chain.Body, s': State)
    requires Ties(e, s) && NextLog(e, s, A.Read(tid, body)) == Some(s')
    ensures Ties(e, s')
  {
    hide RequestFits, Permitted, Due, M.Inv, EnvOk, SettingsOk, OpName, Course, DueBody, NoticeBody, Config.TableOk;
    assert tid in s.tasks ==> TaskOk(e, s, tid);
    assert tid in s.hsm.calls ==> CallTied(s, tid);
    OthersTied(e, s, s', tid);
  }

  lemma WriteKeepsTies(e: Env, s: State, tid: Tid, s': State)
    requires Ties(e, s) && NextLog(e, s, A.Write(tid)) == Some(s')
    ensures Ties(e, s')
  {
    hide M.Inv, EnvOk, Config.TableOk, TaskOk, NextLog, LinesTied, Logs, CallTied;
    LogStepFrame(e, s, A.Write(tid), s');
    assert PendingOk(s, tid);
    WrittenTied(e, s, tid, s');
    LoggerCallsNot(e, s, tid);
    OthersTied(e, s, s', tid);
  }

  lemma LoggerCallsNot(e: Env, s: State, tid: Tid)
    requires Ties(e, s) && Logs(s, tid)
    ensures tid !in s.hsm.calls
  {
    hide M.Inv, EnvOk, Config.TableOk, PendingOk, LinesTied, TaskOk;
    assert tid in s.hsm.calls ==> CallTied(s, tid);
  }

  lemma WrittenTied(e: Env, s: State, tid: Tid, s': State)
    requires LinesTied(s) && tid in s.log.pending && PendingOk(s, tid) && (tid in s.tasks ==> tid !in s.notices && TaskOk(e, s, tid))
    requires NextLog(e, s, A.Write(tid)) == Some(s')
    ensures tid in s.tasks ==> TaskOk(e, s', tid)
    ensures tid in s'.log.pending && PendingOk(s', tid)
    ensures LinesTied(s') && |s'.lines| - |s'.log.slots| == |s.lines| - |s.log.slots|
    ensures forall i :: 0 <= i < |s.log.slots| ==> s'.log.slots[i] == s.log.slots[i]
    ensures forall k :: 0 <= k < |s.lines| ==> s'.lines[k] == s.lines[k]
  {
    hide RequestFits, Permitted, Due, OpName, Chain.EntryHash, CommandOk, SettingsOk;
    var n := |s.log.slots|;
    assert s'.log.slots[..n] == s.log.slots;
    forall i | 0 <= i < |s'.log.slots| ensures SameLine(s'.log.slots[i], s'.lines[Place(s', i)]) {
      if i < n {
        assert SameLine(s.log.slots[i], s.lines[Place(s, i)]);
      }
    }
  }

  /** An append that is over, one way or the other, moves its request on. */
  lemma AppendedKeepsTies(e: Env, s: State, st: A.Step, s': State)
    requires Ties(e, s) && (st.Publish? || st.Fail?) && NextLog(e, s, st) == Some(s')
    ensures Ties(e, s')
  {
    hide M.Inv, EnvOk, Config.TableOk, TaskOk, NextLog, LinesTied, Logs, CallTied, PendingOk;
    LogStepFrame(e, s, st, s');
    assert PendingOk(s, st.tid);
    AppendedLines(e, s, st, s');
    LoggerCallsNot(e, s, st.tid);
    OthersTied(e, s, s', st.tid);
    if st.tid in s.tasks {
      TaskMoves(e, s, st, s');
      MovedOnOk(e, s, s', st.tid, st.Publish?);
    }
  }

  lemma TaskMoves(e: Env, s: State, st: A.Step, s': State)
    requires (st.Publish? || st.Fail?) && NextLog(e, s, st) == Some(s') && st.tid in s.tasks && st.tid !in s.notices
    ensures TaskLogs(s, st.tid) && s'.tasks[st.tid] == TaskAppended(s.tasks[st.tid], st.Publish?)
  {
    hide A.Next, LinesAfter, TaskAppended;
  }

  lemma AppendedLines(e: Env, s: State, st: A.Step, s': State)
    requires LinesTied(s) && (st.Publish? || st.Fail?) && NextLog(e, s, st) == Some(s')
    requires st.tid in s.log.pending && PendingOk(s, st.tid)
    ensures LinesTied(s') && |s'.lines| == |s.lines| && |s'.log.slots| == |s.log.slots|
    ensures forall i :: 0 <= i < |s.log.slots| ==>
      && s'.log.slots[i].entry == s.log.slots[i].entry && s'.log.slots[i].owner == s.log.slots[i].owner
      && (s.log.slots[i].owner != st.tid ==> s'.log.slots[i].published == s.log.slots[i].published)
    ensures forall k :: 0 <= k < |s.lines| ==> s'.lines[k].role == s.lines[k].role
  {
    hide Due, OpName, AfterAppend, LineIs, IsDue, Moved, Logs;
    assert s'.log == A.Next(e.sha, s.log, st).value && s'.lines == LinesAfter(s, st, s'.log) by { LogOf(e, s, st, s'); }
    forall i | 0 <= i < |s'.log.slots| ensures SameLine(s'.log.slots[i], s'.lines[Place(s', i)]) {
      assert SameLine(s.log.slots[i], s.lines[Place(s, i)]);
    }
  }

  lemma LogOf(e: Env, s: State, st: A.Step, s': State)
    requires NextLog(e, s, st) == Some(s')
    ensures A.Next(e.sha, s.log, st) == Some(s'.log) && s'.lines == LinesAfter(s, st, s'.log)
  {
    hide A.Next, LinesAfter, Moved, IsDue;
  }

  lemma MovedOnOk(e: Env, s: State, s': State, tid: Tid, ok: bool)
    requires tid in s.tasks && TaskOk(e, s, tid) && TaskLogs(s, tid)
    requires tid in s.log.pending && s.log.pending[tid].HasWritten? == ok
    requires tid in s'.tasks && s'.tasks[tid] == TaskAppended(s.tasks[tid], ok) && tid !in s'.log.pending
    ensures TaskOk(e, s', tid)
  {
    hide RequestFits, Permitted, Due, OpName, Pipeline.Start, CommandOk, Config.TableOk;
    var t := s.tasks[tid];
    Shapes(t.g, t.req, PeerOf(t.req), SignCmd("", []), Checking, Failed);
    CommandShapes(e, t.g, t.req, SignCmd("", []), Checking, Failed);
  }

  lemma EnterIsNamed(e: Env, s: State, tid: Tid)
    requires Ties(e, s) && TaskCalls(s, tid)
    ensures M.Named(s.tasks[tid].pc.cmd)
  {
    hide M.Inv, RequestFits, Permitted, EnvOk, SettingsOk, PendingOk, Config.TableOk, LinesTied;
    assert TaskOk(e, s, tid);
    GrantedLabel(e, s.tasks[tid].g, s.tasks[tid].cn, s.tasks[tid].req);
  }

  lemma CallStepKeepsCommand(e: Env, s: State, st: M.Step, hsm: M.Hsm)
    requires M.Next(e.c, s.hsm, st) == Some(hsm)
    ensures forall u :: u != st.tid ==> (u in hsm.calls <==> u in s.hsm.calls)
    ensures forall u :: u != st.tid && u in s.hsm.calls ==> hsm.calls[u] == s.hsm.calls[u]
    ensures !st.Enter? ==> st.tid in s.hsm.calls
    ensures st.tid in hsm.calls ==> hsm.calls[st.tid].cmd == if st.Enter? then st.cmd else s.hsm.calls[st.tid].cmd
    ensures st.Finish? ==> st.tid !in hsm.calls
  {
  }

  lemma HsmKeepsTies(e: Env, s: State, st: M.Step, s': State)
    requires Ties(e, s) && NextHsm(e, s, st) == Some(s')
    ensures Ties(e, s')
  {
    hide M.Inv, M.Next, EnvOk, PendingOk, Config.TableOk, TaskOk, LinesTied, TaskLogs, Resume;
    var tid := st.tid;
    assert LinesTied(s') by { SameLines(s, s'); }
    assert TaskOk(e, s, tid);
    assert tid in s.hsm.calls ==> CallTied(s, tid);
    CallIsNotLog(s, tid);
    assert tid !in s.log.pending by { NotPending(e, s, tid); }
    CallStepKeepsCommand(e, s, st, s'.hsm);
    EnterIsNamed(e, s, tid);
    HsmInvKept(e, s, st, s'.hsm);
    OthersTied(e, s, s', tid);
    assert TaskOk(e, s', tid) by { HsmTaskOk(e, s, st, s'); }
  }

  lemma HsmTaskOk(e: Env, s: State, st: M.Step, s': State)
    requires st.tid in s.tasks && TaskOk(e, s, st.tid) && NextHsm(e, s, st) == Some(s')
    ensures TaskOk(e, s', st.tid)
  {
    hide TaskOk, M.Next, Resume;
    if st.Finish? {
      ResumedOk(e, s, s', st.tid);
    } else {
      SameTaskOk(e, s, s', st.tid);
    }
  }

  lemma NotPending(e: Env, s: State, tid: Tid)
    requires tid in s.tasks && TaskOk(e, s, tid) && !TaskLogs(s, tid)
    ensures tid !in s.log.pending
  {
    hide Course, Permitted, SettingsOk, RequestFits;
  }

  lemma SameTaskOk(e: Env, s: State, s': State, tid: Tid)
    requires tid in s.tasks && TaskOk(e, s, tid) && s'.tasks == s.tasks && s'.log == s.log
    ensures TaskOk(e, s', tid)
  {
    hide Course, Permitted, SettingsOk, RequestFits;
  }

  lemma CallIsNotLog(s: State, tid: Tid)
    requires TaskCalls(s, tid)
    ensures !TaskLogs(s, tid)
  {
  }

  lemma ResumedOk(e: Env, s: State, s': State, tid: Tid)
    requires tid in s.tasks && TaskOk(e, s, tid) && TaskCalls(s, tid) && tid in s.hsm.calls && s.hsm.calls[tid].Answered?
    requires s'.log == s.log && tid in s'.tasks && s'.tasks[tid] == Resume(s.tasks[tid], s.hsm.calls[tid].ans)
    ensures TaskOk(e, s', tid)
  {
    hide RequestFits, Permitted, AfterCall, CommandOk, Config.TableOk;
    var t, ans := s.tasks[tid], s.hsm.calls[tid].ans;
    Shapes(t.g, t.req, PeerOf(t.req), t.pc.cmd, t.pc.why, ans);
    MainLabel(e, t.req, t.pc.cmd, t.pc.why);
    CommandShapes(e, t.g, t.req, t.pc.cmd, t.pc.why, ans);
  }

  lemma MainLabel(e: Env, req: Request, cmd: Cmd, why: Why)
    requires CommandOk(e, req, cmd, why)
    ensures why == Main ==> cmd.keyLabel == req.keyLabel
  {
  }

  lemma HsmInvKept(e: Env, s: State, st: M.Step, hsm: M.Hsm)
    requires M.Inv(e.c, e.token, s.hsm) && M.Next(e.c, s.hsm, st) == Some(hsm)
    requires st.Enter? ==> M.Named(st.cmd)
    ensures M.Inv(e.c, e.token, hsm)
  {
    M.NextKeepsInv(e.c, e.token, s.hsm, st, hsm);
  }

  /** Nothing is under way after a restart. */
  lemma RestartKeepsTies(e: Env, s: State, table: Config.Table, s': State)
    requires Ties(e, s) && Restarted(e, s, table) == Some(s')
    ensures Ties(e, s')
  {
    hide RequestFits, Permitted, M.Inv, DedicatedKey, Config.TableOk, CommandOk, PendingOk;
    M.RestartedInv(e.c, e.token, s.hsm);
    forall t | t in s'.tasks ensures t !in s'.notices && TaskOk(e, s', t) {
      assert TaskOk(e, s, t);
    }
  }

  lemma NextKeepsTies(e: Env, s: State, st: Step, s': State)
    requires Ties(e, s) && Next(e, s, st) == Some(s')
    ensures Ties(e, s')
  {
    hide Ties, NextHsm, NextLog, Restarted;
    match st
    case Arrive(_, _, _) => ArriveKeepsTies(e, s, st, s');
    case Notify(_, _, _, _) => ArriveKeepsTies(e, s, st, s');
    case HsmStep(h) => HsmKeepsTies(e, s, h, s');
    case Restart(table) => RestartKeepsTies(e, s, table, s');
    case LogStep(l) =>
      match l
      case Read(tid, body) => ReadKeepsTies(e, s, tid, body, s');
      case Write(tid) => WriteKeepsTies(e, s, tid, s');
      case Publish(_) => AppendedKeepsTies(e, s, l, s');
      case Fail(_) => AppendedKeepsTies(e, s, l, s');
  }

  lemma ReachedTies(e: Env, base: seq<Chain.Entry>, s: State)
    requires EnvOk(e) && Reached(e, base, s)
    ensures Ties(e, s)
  {
    hide Ties, Next, Reached;
    forall table | Config.TableOk(table, e.integrity) ensures Ties(e, Start(e, table, base)) {
      StartTies(e, table, base);
    }
    forall r: State, st | Ties(e, r) && Next(e, r, st).Some? ensures Ties(e, Next(e, r, st).value) {
      NextKeepsTies(e, r, st, Next(e, r, st).value);
    }
    HoldsOfReached(e, base, s, (r: State) => Ties(e, r));
  }

  // -------------------------------------------------- What is never undone

  /** What was requested, written, started and signed stays so. */
  ghost predicate Grows(s: State, s': State) {
    && (forall t :: t in s.tasks ==> t in s'.tasks && SameRequest(s.tasks[t], s'.tasks[t]))
    && s.started <= s'.started && s.hsm.uses <= s'.hsm.uses && s.hsm.signed <= s'.hsm.signed
    && s.log.clock <= s'.log.clock && LinesGrow(s.lines, s'.lines)
  }

  predicate SameRequest(t: Task, t': Task) {
    t'.g == t.g && t'.cn == t.cn && t'.req == t.req
  }

  ghost predicate LinesGrow(lines: seq<Line>, lines': seq<Line>) {
    && |lines| <= |lines'|
    && forall i :: 0 <= i < |lines| ==> LineStays(lines[i], lines'[i])
  }

  predicate LineStays(line: Line, line': Line) {
    line' == line || (line.published.None? && line' == line.(published := line'.published))
  }

  lemma HsmGrows(e: Env, s: M.Hsm, st: M.Step, s': M.Hsm)
    requires M.Next(e.c, s, st) == Some(s')
    ensures s.uses <= s'.uses && s.signed <= s'.signed
  {
  }

  lemma HsmStepGrows(e: Env, s: State, st: M.Step, s': State)
    requires NextHsm(e, s, st) == Some(s')
    ensures Grows(s, s')
  {
    hide M.Next, AfterCall;
    HsmGrows(e, s.hsm, st, s'.hsm);
  }

  lemma LogStepGrows(e: Env, s: State, st: A.Step, s': State)
    requires LinesTied(s) && (st.tid in s.log.pending ==> PendingOk(s, st.tid))
    requires NextLog(e, s, st) == Some(s')
    ensures Grows(s, s')
  {
    hide LinesTied, PendingOk, LinesAfter, LinesGrow, Chain.EntryHash, IsDue, AfterAppend, Due, OpName;
    LogStepLines(e, s, st, s');
  }

  lemma LogStepLines(e: Env, s: State, st: A.Step, s': State)
    requires LinesTied(s) && (st.tid in s.log.pending ==> PendingOk(s, st.tid))
    requires NextLog(e, s, st) == Some(s')
    ensures LinesGrow(s.lines, s'.lines)
  {
    hide Moved, Logs, Chain.EntryHash, IsDue, LineIs;
    if st.Publish? {
      var i := s.log.pending[st.tid].index;
      assert SameLine(s.log.slots[i], s.lines[Place(s, i)]);
    }
  }

  lemma NextGrows(e: Env, s: State, st: Step, s': State)
    requires Ties(e, s) && Next(e, s, st) == Some(s')
    ensures Grows(s, s')
  {
    hide NextLog, NextHsm, M.Inv, EnvOk, TaskOk, PendingOk, CallTied, RequestFits, Begin, LinesTied, Config.TableOk, NoticeOk;
    match st
    case Arrive(_, _, _) =>
    case Notify(_, _, _, _) =>
    case Restart(_) =>
    case HsmStep(h) => HsmStepGrows(e, s, h, s');
    case LogStep(l) => LogStepGrows(e, s, l, s');
  }
}
