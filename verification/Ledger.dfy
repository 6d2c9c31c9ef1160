/** What the audit log says about the requests, in every interleaving and across restarts: intents
    and closing entries balance, and the file verifies exactly when the appends did not overlap. */
module Ledger {
  import opened Wrappers
  import opened Machine
  import P = Pipeline
  import Protocol
  import Chain
  import Config
  import LogFile
  import Token
  import A = Appends
  import M = HsmMachine

  // ------------------------------------------ The log of a run of the gateway

  function LogSteps(steps: seq<Step>): seq<A.Step> {
    if steps == [] then [] else (if steps[0].LogStep? then [steps[0].logStep] else []) + LogSteps(steps[1..])
  }

  lemma NextIsLogStep(e: Env, s: State, st: Step, s': State)
    requires Next(e, s, st) == Some(s')
    ensures st.LogStep? ==> A.Next(e.sha, s.log, st.logStep) == Some(s'.log)
    ensures st.Restart? ==> Chain.Chained(e.sha, A.Entries(s.log)) && s'.log == A.Reopened(s.log)
    ensures !st.LogStep? && !st.Restart? ==> s'.log == s.log
  {
    hide A.Next, M.Next, RequestFits, P.Begin, Moved, LinesAfter, P.AfterCall, IsDue, Config.TableOk, NoticeOk;
  }

  /** Between two starts a run of the gateway is, for its log, a run of interleaved appends. */
  lemma {:induction false} RunIsLogRun(e: Env, s: State, steps: seq<Step>, s': State)
    requires Run(e, s, steps) == Some(s') && forall st :: st in steps ==> !st.Restart?
    ensures A.Run(e.sha, s.log, LogSteps(steps)) == Some(s'.log)
    decreases |steps|
  {
    hide Next, A.Next;
    if steps != [] {
      var r, rest := Next(e, s, steps[0]).value, LogSteps(steps[1..]);
      NextIsLogStep(e, s, steps[0], r);
      RunIsLogRun(e, r, steps[1..], s');
      if steps[0].LogStep? {
        var all := LogSteps(steps);
        assert all[0] == steps[0].logStep && all[1..] == rest;
      } else {
        assert LogSteps(steps) == rest;
      }
    }
  }

  /** The lines written since the first start. */
  function Written(s: State): (r: seq<Chain.Entry>)
    ensures |r| == |s.lines|
    ensures forall i :: 0 <= i < |r| ==> r[i] == s.lines[i].entry
  {
    seq(|s.lines|, i requires 0 <= i < |s.lines| => s.lines[i].entry)
  }

  /** The file holds what was there at the first start and every line written since. */
  ghost predicate Filed(e: Env, base: seq<Chain.Entry>, s: State) {
    A.Inv(e.sha, s.log) && A.Entries(s.log) == base + Written(s)
  }

  lemma StartFiled(e: Env, table: Config.Table, base: seq<Chain.Entry>)
    requires Chain.Chained(e.sha, base)
    ensures Filed(e, base, Machine.Start(e, table, base))
  {
    A.OpenedInv(e.sha, base);
  }

  lemma NextFiled(e: Env, base: seq<Chain.Entry>, s: State, st: Step, s': State)
    requires LinesTied(s) && Filed(e, base, s) && Next(e, s, st) == Some(s')
    ensures Filed(e, base, s')
  {
    hide A.Inv, A.Next, Next, LinesTied, LinesAfter;
    NextIsLogStep(e, s, st, s');
    NextLines(e, s, st, s');
    if st.LogStep? {
      A.NextKeepsInv(e.sha, s.log, st.logStep, s'.log);
      LogEntries(e, s, st.logStep, s');
      if st.logStep.Write? {
        assert Written(s') == Written(s) + [s'.lines[|s.lines|].entry];
      } else {
        assert Written(s') == Written(s);
      }
    } else {
      assert Written(s') == Written(s);
      if st.Restart? {
        A.ReopenedInv(e.sha, s.log);
      }
    }
  }

  /** A step that writes no line leaves all lines, and one that does adds it at the end. */
  lemma NextLines(e: Env, s: State, st: Step, s': State)
    requires LinesTied(s) && Next(e, s, st) == Some(s')
    ensures |s'.lines| == |s.lines| + if st.LogStep? && st.logStep.Write? then 1 else 0
    ensures forall i :: 0 <= i < |s.lines| ==>
      s'.lines[i].entry == s.lines[i].entry && s'.lines[i].owner == s.lines[i].owner && s'.lines[i].role == s.lines[i].role
  {
    hide M.Next, RequestFits, P.Begin, Moved, P.AfterCall, IsDue, Config.TableOk, NoticeOk, Chain.EntryHash, Logs;
  }

  lemma LogEntries(e: Env, s: State, st: A.Step, s': State)
    requires LinesTied(s) && Next(e, s, LogStep(st)) == Some(s')
    ensures A.Entries(s'.log) == if st.Write? then A.Entries(s.log) + [s'.lines[|s.lines|].entry] else A.Entries(s.log)
  {
    hide Moved, IsDue, Logs, Chain.EntryHash;
  }

  /** In every run, with requests, connection entries and restarts in any order, the next start accepts
      the file exactly if since the last start no append read the head inside another one's window. */
  lemma FileVerifiesIffSerial(e: Env, base: seq<Chain.Entry>, s: State)
    requires EnvOk(e) && Chain.Chained(e.sha, base) && Reached(e, base, s)
    requires Chain.NoCollision(e.sha, A.Entries(s.log)) && Chain.AllFit(A.Entries(s.log))
    ensures A.Entries(s.log) == base + Written(s)
    ensures LogFile.VerifyText(e.sha, LogFile.TextOf(A.Entries(s.log))).Some? <==> A.Serial(s.log)
  {
    hide A.Inv, LogFile.TextOf, LogFile.ReadLog, A.Serial, Chain.Chained, Reached;
    ReachedFiled(e, base, s);
    A.ChainedIffSerial(e.sha, s.log);
    LogFile.LogRoundTrip(A.Entries(s.log));
  }

  // ------------------------------------------------ One append, uninterrupted

  /** What the log object holds when the log stands like this. */
  function Holds(l: A.Log): LogFile.LogState {
    LogFile.LogState(LogFile.TextOf(A.Entries(l)), l.head)
  }

  /** The steps of an append, one after the other, do what the log object does in one call: they put its
      line into the file and its hash into the cache. */
  lemma AppendIsDo(sha: Chain.Sha, l: A.Log, t: Tid, body: Chain.Body) returns (done: A.Log)
    requires t !in l.pending
    ensures A.Run(sha, l, [A.Read(t, body), A.Write(t), A.Publish(t)]) == Some(done) && done.pending == l.pending
    ensures LogFile.Do(sha, Holds(l), LogFile.DoAppend(body, true)) == Some(Holds(done))
  {
    hide LogFile.TextOf, Chain.Seal, LogFile.LineOf, A.Run;
    var read := A.Next(sha, l, A.Read(t, body)).value;
    var written := A.Next(sha, read, A.Write(t)).value;
    done := A.Next(sha, written, A.Publish(t)).value;
    RunThree(sha, l, A.Read(t, body), read, A.Write(t), written, A.Publish(t), done);
    var e := Chain.Seal(sha, l.head, body);
    assert A.Entries(done) == A.Entries(l) + [e];
    LogFile.TextSnoc(A.Entries(l), e);
    assert l.pending[t := A.HasWritten(|l.slots|)] - {t} == l.pending;
  }

  /** And if the write fails, nothing. */
  lemma FailureIsDo(sha: Chain.Sha, l: A.Log, t: Tid, body: Chain.Body) returns (failed: A.Log)
    requires t !in l.pending
    ensures A.Run(sha, l, [A.Read(t, body), A.Fail(t)]) == Some(failed) && failed.pending == l.pending
    ensures LogFile.Do(sha, Holds(l), LogFile.DoAppend(body, false)) == Some(Holds(failed))
  {
    hide LogFile.TextOf, Chain.Seal, LogFile.LineOf, A.Run;
    var read := A.Next(sha, l, A.Read(t, body)).value;
    failed := A.Next(sha, read, A.Fail(t)).value;
    RunTwo(sha, l, A.Read(t, body), read, A.Fail(t), failed);
    assert A.Entries(failed) == A.Entries(l);
    assert l.pending[t := A.HasRead(body, l.head, l.clock, l.headIs)] - {t} == l.pending;
  }

  lemma RunTwo(sha: Chain.Sha, l: A.Log, a: A.Step, m: A.Log, b: A.Step, n: A.Log)
    requires A.Next(sha, l, a) == Some(m) && A.Next(sha, m, b) == Some(n)
    ensures A.Run(sha, l, [a, b]) == Some(n)
  {
    hide A.Next;
    assert [a, b][1..] == [b] && [b][1..] == [];
    assert A.Run(sha, n, []) == Some(n);
  }

  lemma RunThree(sha: Chain.Sha, l: A.Log, a: A.Step, m: A.Log, b: A.Step, n: A.Log, c: A.Step, o: A.Log)
    requires A.Next(sha, l, a) == Some(m) && A.Next(sha, m, b) == Some(n) && A.Next(sha, n, c) == Some(o)
    ensures A.Run(sha, l, [a, b, c]) == Some(o)
  {
    hide A.Next;
    assert [a, b, c][1..] == [b, c];
    RunTwo(sha, m, b, n, c, o);
  }

  // ------------------------------------------------------- Reading the log

  const REJECTED := "integrity check failed, ciphertext rejected"

  /** What a line is, as anyone can tell from its outcome and detail. */
  function RoleOfLine(line: Chain.Entry): Role {
    match line.outcome
    case Intent => Opening
    case Authorized => Closing
    case Error => Closing
    case Denied => if line.detail == REJECTED then Closing else Other
    case CertExpiringSoon => Other
  }

  datatype Key = Key(cn: string, op: Protocol.Operation, keyLabel: string)

  predicate About(line: Chain.Entry, k: Key) {
    line.cn == k.cn && Protocol.OperationOf(line.operation) == Some(k.op) && line.keyLabel == k.keyLabel
  }

  function KeyOf(t: Task): Key {
    Key(t.cn, t.req.Op(), t.req.keyLabel)
  }

  /** How many of these lines have this role, for one client, operation and key. */
  function Count(lines: seq<Chain.Entry>, k: Key, role: Role): nat {
    if lines == [] then 0
    else
      var n := |lines| - 1;
      Count(lines[..n], k, role) + if About(lines[n], k) && RoleOfLine(lines[n]) == role then 1 else 0
  }

  function CountOutcome(lines: seq<Chain.Entry>, k: Key, outcome: Chain.Outcome): nat {
    if lines == [] then 0
    else
      var n := |lines| - 1;
      CountOutcome(lines[..n], k, outcome) + if About(lines[n], k) && lines[n].outcome == outcome then 1 else 0
  }

  lemma {:induction false} OutcomesAreRoles(lines: seq<Chain.Entry>, k: Key)
    ensures CountOutcome(lines, k, Chain.Intent) == Count(lines, k, Opening)
    ensures CountOutcome(lines, k, Chain.Authorized) + CountOutcome(lines, k, Chain.Error) <= Count(lines, k, Closing)
  {
    if lines != [] {
      OutcomesAreRoles(lines[..|lines| - 1], k);
    }
  }

  // --------------------------------------------------------- Invariant

  /** Line `i` is one of `t`, in this role. */
  ghost predicate Wrote(s: State, i: int, t: Tid, role: Role) {
    0 <= i < |s.lines| && s.lines[i].role == role && s.lines[i].owner == t
  }

  /** The line reads as what it is, and is that of its request or connection. */
  ghost predicate LineOk(s: State, i: int)
    requires 0 <= i < |s.lines|
  {
    var line := s.lines[i];
    && line.role == RoleOfLine(line.entry)
    && (line.owner in s.tasks ==> IsFor(line.entry, s.tasks[line.owner]))
    && (line.owner !in s.tasks ==> line.owner in s.notices && line.role == Other && line.entry.operation == "connect")
    && (line.role.Opening? ==> line.owner in s.tasks && s.tasks[line.owner].began)
    && (line.role.Closing? ==>
          line.owner in s.tasks && s.tasks[line.owner].ended && exists k :: k < i && Wrote(s, k, line.owner, Opening))
  }

  /** Denials before the intent and the one denial after it read differently. */
  predicate ReasonOk(pc: P.Pc) {
    (pc.Refuse? ==> pc.reason != REJECTED) && (pc.Close? && pc.resp.Denied? ==> pc.resp.reason == REJECTED)
  }

  ghost predicate TaskLines(s: State, t: Tid)
    requires t in s.tasks
  {
    && ReasonOk(s.tasks[t].pc)
    && (s.tasks[t].began ==> exists i :: Wrote(s, i, t, Opening))
    && (s.tasks[t].ended ==> exists i :: Wrote(s, i, t, Closing))
  }

  ghost predicate Once(s: State) {
    forall i, j, t, role :: Wrote(s, i, t, role) && Wrote(s, j, t, role) && role != Other ==> i == j
  }

  ghost predicate Kept(s: State) {
    && (forall i :: 0 <= i < |s.lines| ==> LineOk(s, i))
    && (forall t :: t in s.tasks ==> TaskLines(s, t))
    && (forall t :: t in s.notices ==> t !in s.tasks && NoticeOk(s.notices[t].outcome, s.notices[t].detail))
    && Once(s)
  }

  /** A request keeps what it is and what it has written. */
  predicate SameSoFar(t: Task, t': Task) {
    t'.cn == t.cn && t'.req == t.req && t'.began == t.began && t'.ended == t.ended
  }

  /** Steps that write no line. */
  lemma NoLineKeeps(s: State, s': State)
    requires Kept(s) && |s'.lines| == |s.lines|
    requires forall i :: 0 <= i < |s.lines| ==>
      s'.lines[i].entry == s.lines[i].entry && s'.lines[i].owner == s.lines[i].owner && s'.lines[i].role == s.lines[i].role
    requires forall t :: t in s.tasks ==> t in s'.tasks
    requires forall t :: t in s.notices ==> t in s'.notices
    requires forall t :: t in s'.notices ==> t !in s'.tasks && NoticeOk(s'.notices[t].outcome, s'.notices[t].detail)
    requires forall t :: t in s'.tasks ==> ReasonOk(s'.tasks[t].pc)
    requires forall t :: t in s'.tasks ==>
      if t in s.tasks then SameSoFar(s.tasks[t], s'.tasks[t]) else !s'.tasks[t].began && !s'.tasks[t].ended
    ensures Kept(s')
  {
    hide RoleOfLine, ReasonOk, Protocol.OpName, NoticeOk;
    forall i, t, role ensures Wrote(s', i, t, role) == Wrote(s, i, t, role) {}
    forall i | 0 <= i < |s'.lines| ensures LineOk(s', i) {
      assert LineOk(s, i);
    }
    forall t | t in s'.tasks ensures TaskLines(s', t) {
      assert t in s.tasks ==> TaskLines(s, t);
    }
  }

  lemma ReasonsOk(g: P.Settings, t: Task, cmd: Token.Cmd, why: P.Why, ans: Token.Answer)
    ensures ReasonOk(P.Begin(g, t.cn, Some(t.req)))
    ensures ReasonOk(P.Start(g, t.req, P.PeerOf(t.req)))
    ensures ReasonOk(P.AfterCall(g, t.req, P.PeerOf(t.req), cmd, why, ans))
  {
    hide P.IntegrityPayload;
    assert |REJECTED| == 43 && |"not authorized"| == 14 && |"invalid peer_public_key_b64"| == 27
      && |"peer key not allowlisted"| == 24;
  }

  /** A line of a request reads as its role; one of a connection reads as neither intent nor closing. */
  lemma RoleIsRead(s: State, tid: Tid, line: Chain.Entry)
    requires Logs(s, tid) && LineIs(line, s, tid) && (tid in s.tasks ==> ReasonOk(s.tasks[tid].pc))
    requires tid in s.notices ==> tid !in s.tasks && NoticeOk(s.notices[tid].outcome, s.notices[tid].detail)
    ensures RoleOfLine(line) == RoleFor(s, tid)
    ensures tid in s.tasks ==> TaskLogs(s, tid) && IsFor(line, s.tasks[tid])
    ensures tid !in s.tasks ==> tid in s.notices && line.operation == "connect"
  {
    hide Protocol.OpName;
    assert |REJECTED| == 43 && |"cert_policy_violation: validity exceeds maximum"| == 47;
  }

  lemma WrittenLine(e: Env, s: State, tid: Tid, s': State)
    requires Ties(e, s) && Kept(s) && NextLog(e, s, A.Write(tid)) == Some(s')
    ensures |s'.lines| == |s.lines| + 1 && s'.lines[..|s.lines|] == s.lines
    ensures var line := s'.lines[|s.lines|];
      && line.owner == tid && line.role == RoleFor(s, tid) == RoleOfLine(line.entry)
      && if tid in s.tasks then TaskLogs(s, tid) && IsFor(line.entry, s.tasks[tid])
         else tid in s.notices && line.entry.operation == "connect"
  {
    hide RoleOfLine, Protocol.OpName, EnvOk, M.Inv, P.Due, IsFor, ReasonOk, NoticeOk, TaskOk, CallTied, LinesTied, Moved,
      Chain.EntryHash, DueBody, NoticeBody, LineOk, Once;
    assert PendingOk(s, tid);
    assert tid in s.tasks ==> TaskLines(s, tid);
    var line := s'.lines[|s.lines|].entry;
    assert LineIs(line, s, tid);
    RoleIsRead(s, tid, line);
  }

  lemma WritingTask(e: Env, s: State, tid: Tid, s': State)
    requires Ties(e, s) && tid in s.tasks && NextLog(e, s, A.Write(tid)) == Some(s')
    ensures TaskLogs(s, tid) && s'.tasks == s.tasks[tid := TaskWrote(s.tasks[tid])] && s'.notices == s.notices
    ensures RoleFor(s, tid).Opening? ==> !s.tasks[tid].began
    ensures RoleFor(s, tid).Closing? ==> s.tasks[tid].began && !s.tasks[tid].ended && s.tasks[tid].pc.Close?
  {
    hide Protocol.OpName, EnvOk, M.Inv, P.Due, P.Permitted, RequestFits, CommandOk, LinesTied, CallTied, Chain.EntryHash, Config.TableOk,
      LinesAfter, IsDue;
    assert TaskOk(e, s, tid) && PendingOk(s, tid);
  }

  lemma WritingNotice(e: Env, s: State, tid: Tid, s': State)
    requires tid !in s.tasks && NextLog(e, s, A.Write(tid)) == Some(s')
    ensures s'.tasks == s.tasks && s'.notices == s.notices && RoleFor(s, tid) == Other
  {
    hide LinesAfter, IsDue, A.Next;
  }

  /** One more line, of `tid`, that reads as its role. */
  ghost predicate OneMore(s: State, s': State, tid: Tid) {
    var n, role := |s.lines|, RoleFor(s, tid);
    && |s'.lines| == n + 1 && s'.lines[..n] == s.lines
    && s'.lines[n].owner == tid && s'.lines[n].role == role == RoleOfLine(s'.lines[n].entry)
    && s'.notices == s.notices
    && if tid in s.tasks then
         && TaskLogs(s, tid) && IsFor(s'.lines[n].entry, s.tasks[tid]) && s'.tasks == s.tasks[tid := TaskWrote(s.tasks[tid])]
         && (role.Opening? ==> !s.tasks[tid].began)
         && (role.Closing? ==> s.tasks[tid].began && !s.tasks[tid].ended && s.tasks[tid].pc.Close?)
       else
         tid in s.notices && s'.lines[n].entry.operation == "connect" && s'.tasks == s.tasks && role == Other
  }

  lemma WritesOne(e: Env, s: State, tid: Tid, s': State)
    requires Ties(e, s) && Kept(s) && NextLog(e, s, A.Write(tid)) == Some(s')
    ensures OneMore(s, s', tid)
  {
    hide RoleOfLine, Protocol.OpName, Ties, Kept, NextLog, IsFor, Logs;
    WrittenLine(e, s, tid, s');
    if tid in s.tasks {
      WritingTask(e, s, tid, s');
    } else {
      WritingNotice(e, s, tid, s');
    }
  }

  lemma WroteOne(s: State, s': State, tid: Tid)
    requires OneMore(s, s', tid)
    ensures forall i :: 0 <= i < |s.lines| ==> s'.lines[i] == s.lines[i]
    ensures forall i, u, r :: Wrote(s', i, u, r) == (Wrote(s, i, u, r) || (i == |s.lines| && u == tid && r == RoleFor(s, tid)))
  {
    hide RoleOfLine, Protocol.OpName, IsFor, RoleFor;
    forall i | 0 <= i < |s.lines| ensures s'.lines[i] == s.lines[i] {
      assert s'.lines[..|s.lines|][i] == s.lines[i];
    }
  }

  lemma OneMoreOnce(s: State, s': State, tid: Tid)
    requires Kept(s) && OneMore(s, s', tid)
    ensures Once(s')
  {
    hide RoleOfLine, Protocol.OpName, ReasonOk, NoticeOk, IsFor, RoleFor;
    WroteOne(s, s', tid);
    forall i | Wrote(s, i, tid, RoleFor(s, tid)) ensures RoleFor(s, tid) == Other {
      assert LineOk(s, i);
    }
  }

  lemma OneMoreLineOk(s: State, s': State, tid: Tid, i: nat)
    requires Kept(s) && OneMore(s, s', tid) && i < |s'.lines|
    ensures LineOk(s', i)
  {
    hide RoleOfLine, Protocol.OpName, ReasonOk, NoticeOk, IsFor, Once;
    WroteOne(s, s', tid);
    SameFor(s, s');
    if i < |s.lines| {
      assert LineOk(s, i);
    } else if tid in s.tasks {
      assert TaskLines(s, tid);
    }
  }

  /** The step that writes a line. */
  lemma WriteKeeps(e: Env, s: State, tid: Tid, s': State)
    requires Ties(e, s) && Kept(s) && NextLog(e, s, A.Write(tid)) == Some(s')
    ensures Kept(s')
  {
    hide RoleOfLine, Protocol.OpName, Ties, NextLog, NoticeOk, IsFor, LineOk, Once;
    WritesOne(e, s, tid, s');
    WroteOne(s, s', tid);
    OneMoreOnce(s, s', tid);
    forall i | 0 <= i < |s'.lines| ensures LineOk(s', i) {
      OneMoreLineOk(s, s', tid, i);
    }
    forall u | u in s'.tasks ensures TaskLines(s', u) {
      assert TaskLines(s, u);
      assert Wrote(s', |s.lines|, tid, RoleFor(s, tid));
    }
  }

  lemma SameFor(s: State, s': State)
    requires forall t :: t in s.tasks ==> t in s'.tasks && SameRequest(s.tasks[t], s'.tasks[t])
    ensures forall t, line :: t in s.tasks ==> (IsFor(line, s'.tasks[t]) <==> IsFor(line, s.tasks[t]))
  {
  }

  lemma NextKeeps(e: Env, s: State, st: Step, s': State)
    requires Ties(e, s) && Kept(s) && Next(e, s, st) == Some(s')
    ensures Kept(s')
  {
    hide Kept, Ties, Next;
    if st.LogStep? && st.logStep.Write? {
      assert NextLog(e, s, st.logStep) == Some(s') by { LogIsNext(e, s, st, s'); }
      WriteKeeps(e, s, st.logStep.tid, s');
    } else {
      TiesLines(e, s);
      NextLines(e, s, st, s');
      NoLine(e, s, st, s');
      NoLineReasons(e, s, st, s');
      NoLineKeeps(s, s');
    }
  }

  lemma LogIsNext(e: Env, s: State, st: Step, s': State)
    requires st.LogStep? && Next(e, s, st) == Some(s')
    ensures NextLog(e, s, st.logStep) == Some(s')
  {
    hide NextLog;
  }

  lemma NoLine(e: Env, s: State, st: Step, s': State)
    requires Kept(s) && Next(e, s, st) == Some(s') && !(st.LogStep? && st.logStep.Write?)
    ensures forall t :: t in s.tasks ==> t in s'.tasks
    ensures forall t :: t in s.notices ==> t in s'.notices
    ensures forall t :: t in s'.notices ==> t !in s'.tasks && NoticeOk(s'.notices[t].outcome, s'.notices[t].detail)
    ensures forall t :: t in s'.tasks ==>
      if t in s.tasks then SameSoFar(s.tasks[t], s'.tasks[t]) else !s'.tasks[t].began && !s'.tasks[t].ended
  {
    hide P.Begin, RequestFits, LineOk, TaskLines, Once, NoticeOk, Config.TableOk, NextLog, NextHsm, Chain.Chained;
    match st
    case LogStep(l) =>
      LogStepFrame(e, s, l, s');
      NoLineMoves(e, s, l, s');
    case HsmStep(h) => HsmMoves(e, s, h, s');
    case _ =>
  }

  lemma NoLineMoves(e: Env, s: State, st: A.Step, s': State)
    requires !st.Write? && NextLog(e, s, st) == Some(s')
    ensures st.tid in s.tasks && st.tid in s'.tasks ==> SameSoFar(s.tasks[st.tid], s'.tasks[st.tid])
    ensures st.tid in s.notices && st.tid in s'.notices ==>
      s'.notices[st.tid] == s.notices[st.tid].(over := s'.notices[st.tid].over)
  {
    hide P.AfterAppend, IsDue, A.Next, LinesAfter, P.Due, Protocol.OpName;
  }

  lemma HsmMoves(e: Env, s: State, st: M.Step, s': State)
    requires NextHsm(e, s, st) == Some(s')
    ensures s'.notices == s.notices && forall t :: t in s'.tasks <==> t in s.tasks
    ensures forall t :: t in s.tasks && t in s'.tasks ==> SameSoFar(s.tasks[t], s'.tasks[t])
  {
    hide M.Next, P.AfterCall;
  }

  lemma NoLineReasons(e: Env, s: State, st: Step, s': State)
    requires Kept(s) && Next(e, s, st) == Some(s') && !(st.LogStep? && st.logStep.Write?)
    ensures forall t :: t in s'.tasks ==> ReasonOk(s'.tasks[t].pc)
  {
    hide ReasonOk, P.Begin, P.Start, P.AfterCall, P.AfterAppend, RequestFits, M.Next, A.Next, IsDue, LineOk, Once, Wrote, LinesAfter,
      NoticeOk, Config.TableOk, P.Due, Protocol.OpName;
    forall t | t in s.tasks ensures ReasonOk(s.tasks[t].pc) {
      assert TaskLines(s, t);
    }
    match st
    case Arrive(tid, _, _) =>
      ReasonsOk(s'.tasks[tid].g, s'.tasks[tid], Token.SignCmd("", []), P.Main, Token.Failed);
    case HsmStep(h) =>
      if h.Finish? {
        var t := s.tasks[h.tid];
        ReasonsOk(t.g, t, t.pc.cmd, t.pc.why, s.hsm.calls[h.tid].ans);
      }
    case LogStep(l) =>
      if l.tid in s.tasks {
        var t := s.tasks[l.tid];
        ReasonsOk(t.g, t, Token.SignCmd("", []), P.Main, Token.Failed);
        DoneIsOk(t);
      }
    case _ =>
  }

  lemma DoneIsOk(t: Task)
    ensures P.Logging(t.pc) && ReasonOk(P.Start(t.g, t.req, P.PeerOf(t.req))) ==>
      ReasonOk(P.AfterAppend(t.g, t.req, t.pc, true)) && ReasonOk(P.AfterAppend(t.g, t.req, t.pc, false))
  {
    hide P.Start;
  }

  lemma StartKept(e: Env, table: Config.Table, base: seq<Chain.Entry>)
    requires EnvOk(e) && Config.TableOk(table, e.integrity)
    ensures Ties(e, Machine.Start(e, table, base)) && Kept(Machine.Start(e, table, base))
  {
    StartTies(e, table, base);
  }

  lemma ReachedKept(e: Env, base: seq<Chain.Entry>, s: State)
    requires EnvOk(e) && Reached(e, base, s)
    ensures Ties(e, s) && Kept(s)
  {
    hide Kept, Ties, Next, Reached;
    forall table | Config.TableOk(table, e.integrity) ensures Ties(e, Machine.Start(e, table, base)) && Kept(Machine.Start(e, table, base)) {
      StartKept(e, table, base);
    }
    forall r: State, st | Ties(e, r) && Kept(r) && Next(e, r, st).Some?
      ensures Ties(e, Next(e, r, st).value) && Kept(Next(e, r, st).value)
    {
      NextKeepsTies(e, r, st, Next(e, r, st).value);
      NextKeeps(e, r, st, Next(e, r, st).value);
    }
    HoldsOfReached(e, base, s, (r: State) => Ties(e, r) && Kept(r));
  }

  // -------------------------------------------------------- Reading a line

  /** In every run, restarts included: a line that belongs to a request, whatever its role, bears the
      client, the key and the operation of that request, under the very name of that operation; every
      other line is about a connection, and neither an intent nor a closing entry. */
  lemma LinesNameOperations(e: Env, base: seq<Chain.Entry>, s: State, i: nat)
    requires EnvOk(e) && Reached(e, base, s) && i < |s.lines|
    ensures var line := s.lines[i];
      if line.owner in s.tasks then
        var t := s.tasks[line.owner];
        && line.entry.cn == t.cn && line.entry.keyLabel == t.req.keyLabel
        && (line.entry.operation == "sign" <==> t.req.SignRequest?)
        && (line.entry.operation == "verify" <==> t.req.VerifyRequest?)
        && (line.entry.operation == "encrypt" <==> t.req.EncryptRequest?)
        && (line.entry.operation == "decrypt" <==> t.req.DecryptRequest?)
        && (line.entry.operation == "derive_and_encrypt" <==> t.req.DeriveAndEncryptRequest?)
        && (line.entry.operation == "derive_and_decrypt" <==> t.req.DeriveAndDecryptRequest?)
      else
        line.owner in s.notices && line.role == Other && line.entry.operation == "connect"
  {
    hide Reached, Ties, Once, ReasonOk, RoleOfLine, Protocol.OpName;
    ReachedKept(e, base, s);
    assert LineOk(s, i);
    if s.lines[i].owner in s.tasks {
      OperationShows(s.tasks[s.lines[i].owner].req);
    }
  }

  lemma OperationShows(req: Protocol.Request)
    ensures var name := Protocol.OpName(req.Op());
      && (name == "sign" <==> req.SignRequest?) && (name == "verify" <==> req.VerifyRequest?)
      && (name == "encrypt" <==> req.EncryptRequest?) && (name == "decrypt" <==> req.DecryptRequest?)
      && (name == "derive_and_encrypt" <==> req.DeriveAndEncryptRequest?)
      && (name == "derive_and_decrypt" <==> req.DeriveAndDecryptRequest?)
  {
    Protocol.OpNameReads(req.Op());
  }

  // ------------------------------------------------ Two-phase conservation

  /** The requests that wrote one of the first `n` lines, in this role, about `k`. */
  ghost function Owners(s: State, n: nat, k: Key, role: Role): (r: set<Tid>)
    requires n <= |s.lines|
    ensures forall t :: t in r <==> exists i :: i < n && Wrote(s, i, t, role) && About(s.lines[i].entry, k)
  {
    if n == 0 then {}
    else
      var r := Owners(s, n - 1, k, role);
      var line := s.lines[n - 1];
      assert s.lines[n - 1].role == role ==> Wrote(s, n - 1, line.owner, role);
      if About(line.entry, k) && s.lines[n - 1].role == role then r + {line.owner} else r
  }

  lemma NewOwner(s: State, n: nat, k: Key, role: Role)
    requires Kept(s) && n < |s.lines| && role != Other
    ensures s.lines[n].role == RoleOfLine(s.lines[n].entry)
    ensures s.lines[n].role == role ==> s.lines[n].owner !in Owners(s, n, k, role)
  {
    hide About, RoleOfLine;
    assert LineOk(s, n);
    assert s.lines[n].role == role ==> Wrote(s, n, s.lines[n].owner, role);
  }

  lemma NoneCounted(s: State, k: Key, role: Role)
    ensures |Owners(s, 0, k, role)| == Count(Written(s)[..0], k, role) == 0
  {
  }

  lemma CountNext(lines: seq<Chain.Entry>, n: nat, k: Key, role: Role)
    requires 0 < n <= |lines|
    ensures Count(lines[..n], k, role) ==
      Count(lines[..n - 1], k, role) + if About(lines[n - 1], k) && RoleOfLine(lines[n - 1]) == role then 1 else 0
  {
    hide About, RoleOfLine;
    assert lines[..n][..n - 1] == lines[..n - 1];
  }

  lemma OwnersNext(s: State, n: nat, k: Key, role: Role)
    requires Kept(s) && n < |s.lines| && role != Other
    ensures |Owners(s, n + 1, k, role)| ==
      |Owners(s, n, k, role)| + if About(Written(s)[n], k) && RoleOfLine(Written(s)[n]) == role then 1 else 0
  {
    hide About, RoleOfLine, Kept, Wrote;
    NewOwner(s, n, k, role);
  }

  /** Each request writes at most one such line, so counting lines is counting requests. */
  lemma {:induction false} OwnersCounted(s: State, n: nat, k: Key, role: Role)
    requires Kept(s) && n <= |s.lines| && role != Other
    ensures |Owners(s, n, k, role)| == Count(Written(s)[..n], k, role)
  {
    hide About, RoleOfLine, Kept, Wrote, Count, Owners, Written;
    if n == 0 {
      NoneCounted(s, k, role);
    } else {
      OwnersCounted(s, n - 1, k, role);
      CountNext(Written(s), n, k, role);
      OwnersNext(s, n - 1, k, role);
    }
  }

  lemma {:induction false} SmallerSet(a: set<Tid>, b: set<Tid>)
    requires a <= b
    ensures |a| <= |b|
  {
    if a != {} {
      var x :| x in a;
      SmallerSet(a - {x}, b - {x});
    }
  }

  /** However far one reads the log, for each client, operation and key there are no more closing
      entries than intents. */
  lemma IntentsCome(s: State, n: nat, k: Key)
    requires Kept(s) && n <= |s.lines|
    ensures var lines := Written(s)[..n];
      && Count(lines, k, Closing) <= CountOutcome(lines, k, Chain.Intent)
      && CountOutcome(lines, k, Chain.Authorized) + CountOutcome(lines, k, Chain.Error) <= CountOutcome(lines, k, Chain.Intent)
  {
    hide RoleOfLine, ReasonOk;
    var begun, closed := Owners(s, n, k, Opening), Owners(s, n, k, Closing);
    forall t | t in closed ensures t in begun {
      var i :| i < n && Wrote(s, i, t, Closing) && About(s.lines[i].entry, k);
      assert LineOk(s, i);
      var j :| j < i && Wrote(s, j, t, Opening);
      assert LineOk(s, j);
    }
    SmallerSet(closed, begun);
    OwnersCounted(s, n, k, Opening);
    OwnersCounted(s, n, k, Closing);
    OutcomesAreRoles(Written(s)[..n], k);
  }

  /** Requests about `k` that wrote their intent and are neither answered nor closed. */
  function InFlight(s: State, k: Key): set<Tid> {
    set t | t in s.tasks && KeyOf(s.tasks[t]) == k && s.tasks[t].began && !s.tasks[t].ended
            && !s.tasks[t].pc.Done? && !s.tasks[t].cut
  }

  /** Requests about `k` whose closing entry could not be written. */
  function Unclosed(s: State, k: Key): set<Tid> {
    set t | t in s.tasks && KeyOf(s.tasks[t]) == k && s.tasks[t].lost
  }

  /** Requests about `k` that the end of a process cut off between intent and closing entry. */
  function Interrupted(s: State, k: Key): set<Tid> {
    set t | t in s.tasks && KeyOf(s.tasks[t]) == k && s.tasks[t].began && !s.tasks[t].ended && s.tasks[t].cut
  }

  /** An executed request that was answered has its closing entry, or writing it failed. */
  ghost predicate Accounted(s: State) {
    forall t :: t in s.tasks ==>
      && (s.tasks[t].ended || s.tasks[t].lost ==> s.tasks[t].began)
      && !(s.tasks[t].ended && s.tasks[t].lost)
      && (s.tasks[t].lost ==> s.tasks[t].pc.Done?)
      && (s.tasks[t].cut ==> !s.tasks[t].pc.Done?)
      && (s.tasks[t].began && s.tasks[t].pc.Done? ==> s.tasks[t].ended || s.tasks[t].lost)
  }

  lemma TiesAccount(e: Env, s: State)
    requires Ties(e, s)
    ensures Accounted(s)
  {
    hide EnvOk, M.Inv, P.Permitted, RequestFits, CommandOk, PendingOk, CallTied, LinesTied, SettingsOk;
    forall t | t in s.tasks
      ensures s.tasks[t].ended || s.tasks[t].lost ==> s.tasks[t].began
      ensures !(s.tasks[t].ended && s.tasks[t].lost)
      ensures s.tasks[t].lost ==> s.tasks[t].pc.Done?
      ensures s.tasks[t].cut ==> !s.tasks[t].pc.Done?
      ensures s.tasks[t].began && s.tasks[t].pc.Done? ==> s.tasks[t].ended || s.tasks[t].lost
    {
      assert TaskOk(e, s, t);
    }
  }

  /** Every intent is accounted for: by a closing entry, by a request still under way, by one whose
      closing entry failed, or by one that a restart cut off. */
  lemma IntentsBalance(s: State, k: Key)
    requires Kept(s) && Accounted(s)
    ensures CountOutcome(Written(s), k, Chain.Intent) ==
      Count(Written(s), k, Closing) + |InFlight(s, k)| + |Unclosed(s, k)| + |Interrupted(s, k)|
  {
    var n := |s.lines|;
    var a, b := Owners(s, n, k, Opening), Owners(s, n, k, Closing);
    hide RoleOfLine, Kept, Count, CountOutcome, KeyOf, About;
    assert Written(s)[..n] == Written(s);
    OwnersCounted(s, n, k, Opening);
    OwnersCounted(s, n, k, Closing);
    OutcomesAreRoles(Written(s), k);
    OwnersAreTasks(s, k);
    Split4(a, b, InFlight(s, k), Unclosed(s, k), Interrupted(s, k));
  }

  lemma Split4(a: set<Tid>, w: set<Tid>, x: set<Tid>, y: set<Tid>, z: set<Tid>)
    requires forall t :: t in a <==> t in w || t in x || t in y || t in z
    requires w !! x && w !! y && w !! z && x !! y && x !! z && y !! z
    ensures |a| == |w| + |x| + |y| + |z|
  {
    assert a == w + (x + (y + z));
  }

  lemma ReadAsKey(line: Chain.Entry, t: Task, k: Key)
    requires IsFor(line, t)
    ensures About(line, k) <==> KeyOf(t) == k
  {
    hide Protocol.OpName, Protocol.OperationOf;
    Protocol.OpNameReads(t.req.Op());
  }

  lemma OwnersAreTasks(s: State, k: Key)
    requires Kept(s)
    ensures forall t :: t in Owners(s, |s.lines|, k, Opening) <==> t in s.tasks && KeyOf(s.tasks[t]) == k && s.tasks[t].began
    ensures forall t :: t in Owners(s, |s.lines|, k, Closing) <==> t in s.tasks && KeyOf(s.tasks[t]) == k && s.tasks[t].ended
  {
    hide RoleOfLine, ReasonOk, Protocol.OpName, Protocol.OperationOf, IsFor, About, KeyOf;
    forall t, role | role != Other
      ensures t in Owners(s, |s.lines|, k, role) <==>
        t in s.tasks && KeyOf(s.tasks[t]) == k && if role.Opening? then s.tasks[t].began else s.tasks[t].ended
    {
      forall i | Wrote(s, i, t, role)
        ensures t in s.tasks && (About(s.lines[i].entry, k) <==> KeyOf(s.tasks[t]) == k)
        ensures if role.Opening? then s.tasks[t].began else s.tasks[t].ended
      {
        assert LineOk(s, i);
        ReadAsKey(s.lines[i].entry, s.tasks[t], k);
      }
      assert t in s.tasks ==> TaskLines(s, t);
    }
  }

  /** In every run, restarts included, for each client, operation and key: the file is what was there
      at the first start and then these lines; on every prefix of them the intents come first; and
      they balance. */
  lemma TwoPhase(e: Env, base: seq<Chain.Entry>, s: State, n: nat, k: Key)
    requires EnvOk(e) && Chain.Chained(e.sha, base) && Reached(e, base, s) && n <= |Written(s)|
    ensures A.Entries(s.log) == base + Written(s)
    ensures Count(Written(s)[..n], k, Closing) <= CountOutcome(Written(s)[..n], k, Chain.Intent)
    ensures CountOutcome(Written(s)[..n], k, Chain.Authorized) + CountOutcome(Written(s)[..n], k, Chain.Error)
      <= CountOutcome(Written(s)[..n], k, Chain.Intent)
    ensures CountOutcome(Written(s), k, Chain.Intent) ==
      Count(Written(s), k, Closing) + |InFlight(s, k)| + |Unclosed(s, k)| + |Interrupted(s, k)|
  {
    hide Run, Kept, Ties, A.Entries;
    ReachedKept(e, base, s);
    ReachedFiled(e, base, s);
    IntentsCome(s, n, k);
    TiesAccount(e, s);
    IntentsBalance(s, k);
  }

  lemma ReachedFiled(e: Env, base: seq<Chain.Entry>, s: State)
    requires EnvOk(e) && Chain.Chained(e.sha, base) && Reached(e, base, s)
    ensures Filed(e, base, s)
  {
    hide Filed, Ties, Next, Reached, Chain.Chained;
    forall table | Config.TableOk(table, e.integrity)
      ensures Ties(e, Machine.Start(e, table, base)) && Filed(e, base, Machine.Start(e, table, base))
    {
      StartTies(e, table, base);
      StartFiled(e, table, base);
    }
    forall r: State, st | Ties(e, r) && Filed(e, base, r) && Next(e, r, st).Some?
      ensures Ties(e, Next(e, r, st).value) && Filed(e, base, Next(e, r, st).value)
    {
      TiesLines(e, r);
      NextKeepsTies(e, r, st, Next(e, r, st).value);
      NextFiled(e, base, r, st, Next(e, r, st).value);
    }
    HoldsOfReached(e, base, s, (r: State) => Ties(e, r) && Filed(e, base, r));
  }
}
