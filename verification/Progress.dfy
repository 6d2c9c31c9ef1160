/** That requests can always go on: in every reachable state each unanswered one has a step to take,
    it takes boundedly many, and left alone it is served. */
module Progress {
  import opened Wrappers
  import opened Machine
  import opened Token
  import P = Pipeline
  import Protocol
  import Chain
  import Config
  import A = Appends
  import M = HsmMachine

  // ------------------------------------------------------ A next step

  /** The request has been neither answered nor cut off. */
  predicate Waiting(s: State, tid: Tid) {
    tid in s.tasks && !s.tasks[tid].cut && !s.tasks[tid].pc.Done?
  }

  predicate Own(st: Step, tid: Tid) {
    match st
    case LogStep(l) => l.tid == tid
    case HsmStep(h) => h.tid == tid
    case _ => false
  }

  /** The step that can always be taken: a call that does not go on is given up. */
  function Onward(s: State, tid: Tid, ts: string): Step
    requires Waiting(s, tid)
  {
    var t := s.tasks[tid];
    if t.pc.Call? then
      if tid !in s.hsm.calls then HsmStep(M.Enter(tid, t.pc.cmd))
      else if s.hsm.calls[tid].Answered? then HsmStep(M.Finish(tid))
      else HsmStep(M.GiveUp(tid))
    else if tid !in s.log.pending then LogStep(A.Read(tid, DueBody(t, ts)))
    else if s.log.pending[tid].HasRead? then LogStep(A.Write(tid))
    else LogStep(A.Publish(tid))
  }

  lemma OnwardIsEnabled(e: Env, s: State, tid: Tid, ts: string)
    requires Ties(e, s) && Waiting(s, tid)
    ensures Own(Onward(s, tid, ts), tid) && Next(e, s, Onward(s, tid, ts)).Some?
  {
    hide M.Inv, EnvOk, Config.TableOk, TaskOk, LinesTied, P.AfterCall, P.AfterAppend, P.Due, Protocol.OpName, Chain.EntryHash,
      LinesAfter, LineIs, NoticeBody;
    assert tid in s.log.pending ==> PendingOk(s, tid);
    assert tid in s.hsm.calls ==> CallTied(s, tid);
  }

  // ------------------------------------------------------ Bounded steps

  function Rank(pc: P.Pc): nat {
    match pc
    case Done(_) => 0
    case Refuse(_) => 1
    case Close(_) => 1
    case Call(_, Sealing(_, _)) => 2
    case Call(_, Main) => 3
    case Call(_, Checking) => 4
    case Open => 5
  }

  /** How far a call has come, counted down. */
  function CallStage(s: M.Hsm, tid: Tid): nat {
    if tid !in s.calls then 7
    else match s.calls[tid]
      case Entered(_) => 6
      case InSession(_) => 5
      case HasKey(_, _) => 4
      case HasDerived(_, _) => 3
      case Answered(_, _) => 1
  }

  /** The same for the append or the call that a request is about to make or making. */
  function Stage(s: State, tid: Tid): nat
    requires tid in s.tasks
  {
    if s.tasks[tid].pc.Call? then CallStage(s.hsm, tid)
    else if tid !in s.log.pending then 3
    else if s.log.pending[tid].HasRead? then 2
    else 1
  }

  /** How many steps of its own a request may still take. */
  function Remaining(s: State, tid: Tid): (n: nat)
    requires tid in s.tasks
    ensures n <= 43
  {
    if Waiting(s, tid) then 8 * Rank(s.tasks[tid].pc) + Stage(s, tid) else 0
  }

  /** The automaton only goes down. */
  lemma RanksFall(g: P.Settings, req: Protocol.Request, pc: P.Pc, ok: bool, ans: Answer)
    ensures P.Logging(pc) ==> Rank(P.AfterAppend(g, req, pc, ok)) < Rank(pc)
    ensures pc.Call? ==> Rank(P.AfterCall(g, req, P.PeerOf(req), pc.cmd, pc.why, ans)) < Rank(pc)
  {
    hide P.IntegrityPayload;
  }

  lemma LogStepCounts(e: Env, s: State, st: A.Step, s': State)
    requires Ties(e, s) && NextLog(e, s, st) == Some(s') && st.tid in s.tasks
    ensures st.tid in s'.tasks && Remaining(s', st.tid) < Remaining(s, st.tid)
  {
    hide M.Inv, EnvOk, Config.TableOk, TaskOk, LinesTied, P.AfterAppend, P.Due, Protocol.OpName, Chain.EntryHash, LinesAfter, PendingOk,
      IsDue, Rank;
    var t := s.tasks[st.tid];
    assert st.tid in s.hsm.calls ==> CallTied(s, st.tid);
    RanksFall(t.g, t.req, t.pc, true, Failed);
    RanksFall(t.g, t.req, t.pc, false, Failed);
  }

  lemma HsmStepCounts(e: Env, s: State, st: M.Step, s': State)
    requires Ties(e, s) && NextHsm(e, s, st) == Some(s')
    ensures st.tid in s'.tasks && Remaining(s', st.tid) < Remaining(s, st.tid)
  {
    hide M.Inv, EnvOk, Config.TableOk, TaskOk, LinesTied, P.AfterCall, PendingOk, Rank, M.Next;
    var t := s.tasks[st.tid];
    CallStepCounts(e, s.hsm, st, s'.hsm);
    if st.Finish? {
      RanksFall(t.g, t.req, t.pc, true, s.hsm.calls[st.tid].ans);
    }
  }

  /** Each step of a call but the last takes it to a later stage. */
  lemma CallStepCounts(e: Env, s: M.Hsm, st: M.Step, s': M.Hsm)
    requires M.Next(e.c, s, st) == Some(s')
    ensures if st.Enter? then st.tid !in s.calls else st.tid in s.calls
    ensures !st.Finish? ==> st.tid in s'.calls && CallStage(s', st.tid) < CallStage(s, st.tid)
    ensures st.Finish? ==> st.tid !in s'.calls
  {
    hide M.Result, IsTheKey, UsedKey;
  }

  lemma OthersCount(e: Env, s: State, st: Step, s': State, tid: Tid)
    requires Ties(e, s) && Next(e, s, st) == Some(s') && tid in s.tasks && !Own(st, tid)
    ensures tid in s'.tasks && Remaining(s', tid) <= Remaining(s, tid)
  {
    hide M.Inv, EnvOk, Config.TableOk, TaskOk, LinesTied, P.AfterCall, PendingOk, Rank, M.Next, NextLog, P.Begin, RequestFits, NoticeOk,
      Chain.Chained, CallTied;
    match st
    case LogStep(l) => LogStepFrame(e, s, l, s');
    case HsmStep(h) => CallStepKeepsCommand(e, s, h, s'.hsm);
    case _ =>
  }

  function OwnSteps(steps: seq<Step>, tid: Tid): nat {
    if steps == [] then 0 else (if Own(steps[0], tid) then 1 else 0) + OwnSteps(steps[1..], tid)
  }

  /** From any state on, whatever else happens, a request takes no more than 43 steps of its own, and
      fewer the further it has come. */
  lemma {:induction false} FewSteps(e: Env, s: State, steps: seq<Step>, s': State, tid: Tid)
    requires Ties(e, s) && Run(e, s, steps) == Some(s') && tid in s.tasks
    ensures tid in s'.tasks && OwnSteps(steps, tid) + Remaining(s', tid) <= Remaining(s, tid) <= 43
    decreases |steps|
  {
    hide Ties, Next, Remaining;
    if steps != [] {
      var st := steps[0];
      var r := Next(e, s, st).value;
      NextKeepsTies(e, s, st, r);
      if Own(st, tid) {
        OwnCounts(e, s, st, r, tid);
      } else {
        OthersCount(e, s, st, r, tid);
      }
      FewSteps(e, r, steps[1..], s', tid);
    }
  }

  lemma OwnCounts(e: Env, s: State, st: Step, s': State, tid: Tid)
    requires Ties(e, s) && Next(e, s, st) == Some(s') && tid in s.tasks && Own(st, tid)
    ensures tid in s'.tasks && Remaining(s', tid) < Remaining(s, tid)
  {
    hide Ties, NextLog, NextHsm, Remaining;
    match st
    case LogStep(l) => LogStepCounts(e, s, l, s');
    case HsmStep(h) => HsmStepCounts(e, s, h, s');
  }

  /** In every reachable state each request that is not answered nor cut off has a step to take, and
      if it takes such steps it is answered after at most 43 of them. */
  lemma EveryRequestGoesOn(e: Env, base: seq<Chain.Entry>, s: State, tid: Tid)
    requires EnvOk(e) && Reached(e, base, s) && Waiting(s, tid)
    ensures exists st :: Own(st, tid) && Next(e, s, st).Some?
    ensures forall steps, s' :: Run(e, s, steps) == Some(s') ==>
      tid in s'.tasks && OwnSteps(steps, tid) <= 43 && (OwnSteps(steps, tid) == 43 ==> !Waiting(s', tid))
  {
    hide Run, Ties, Next, EnvOk, OwnSteps, Reached;
    ReachedTies(e, base, s);
    OnwardIsEnabled(e, s, tid, "");
    assert Own(Onward(s, tid, ""), tid);
    forall steps, s' | Run(e, s, steps) == Some(s')
      ensures tid in s'.tasks && OwnSteps(steps, tid) <= 43 && (OwnSteps(steps, tid) == 43 ==> !Waiting(s', tid))
    {
      FewSteps(e, s, steps, s', tid);
    }
  }

  // ---------------------------------------------- What may always happen

  /** Requests and connections are taken in at any time, a write may fail before anything of the line is
      there, a call may fail at any point before its answer, and a start takes whatever log verifies. */
  lemma NothingIsExcluded(e: Env, s: State, tid: Tid, cn: string, req: Protocol.Request, table: Config.Table)
    requires Ties(e, s)
    ensures tid !in s.tasks && tid !in s.notices && RequestFits(req) ==> Next(e, s, Arrive(tid, cn, req)).Some?
    ensures tid !in s.tasks && tid !in s.notices ==>
      && (forall detail :: Next(e, s, Notify(tid, cn, Chain.CertExpiringSoon, detail)).Some?)
      && Next(e, s, Notify(tid, cn, Chain.Denied, "cert_policy_violation: validity exceeds maximum")).Some?
    ensures tid in s.log.pending && s.log.pending[tid].HasRead? ==> Next(e, s, LogStep(A.Fail(tid))).Some?
    ensures tid in s.hsm.calls && !s.hsm.calls[tid].Answered? ==> Next(e, s, HsmStep(M.GiveUp(tid))).Some?
    ensures Chain.Chained(e.sha, A.Entries(s.log)) && Config.TableOk(table, e.integrity) <==> Next(e, s, Restart(table)).Some?
  {
    hide M.Inv, EnvOk, Config.TableOk, TaskOk, LinesTied, P.AfterAppend, P.Begin, P.Due, Protocol.OpName, RequestFits, Chain.Chained,
      A.Entries, LineIs, IsDue;
    assert tid in s.log.pending ==> PendingOk(s, tid);
    assert tid in s.hsm.calls ==> CallTied(s, tid);
  }
}
