/** What an `ok` answer means, in every interleaving and across restarts: it is what the token computed on the decoded
    request, under the one key its label names, and a ciphertext only goes out sealed. */
module Answering {
  import opened Wrappers
  import opened Bytes
  import opened Protocol
  import opened Machine
  import opened Token
  import P = Pipeline
  import Chain
  import Config
  import Base64
  import A = Appends
  import M = HsmMachine
  import V = Provenance
  import Replies

  /** The gateway's key signed this ciphertext. */
  ghost predicate SealedBy(e: Env, signed: Signed, name: string, iv: seq<byte>, ct: seq<byte>, sig: seq<byte>) {
    M.Lasting(e.c, e.token, signed, SignCmd(e.integrity, P.IntegrityPayload(name, iv, ct)), Signature(sig))
  }

  /** `resp` reports this answer to this request. */
  ghost predicate Reports(e: Env, signed: Signed, req: Request, ans: Answer, resp: Response) {
    if ans.Ciphertext? then
      exists sig :: SealedBy(e, signed, req.keyLabel, ans.iv, ans.ct, sig) && Replies.Carries(ans, sig, resp)
    else Replies.Carries(ans, [], resp)
  }

  /** The device gave this answer to this command of request `t`, and it is right. */
  ghost predicate Given(e: Env, hsm: M.Hsm, t: Tid, cmd: Cmd, ans: Answer) {
    M.Use(t, cmd, ans) in hsm.uses && M.Lasting(e.c, e.token, hsm.signed, cmd, ans)
  }

  /** The token really gave request `t` the answer that `resp` reports. */
  ghost predicate True(e: Env, hsm: M.Hsm, t: Tid, req: Request, resp: Response) {
    exists cmd, ans :: Replies.MainCmd(req, cmd) && Given(e, hsm, t, cmd, ans) && Reports(e, hsm.signed, req, ans, resp)
  }

  // ---------------------------------------------------------- Invariant

  /** The ciphertext being sealed is the token's answer to the request. */
  ghost predicate Sealing(e: Env, hsm: M.Hsm, t: Tid, req: Request, cmd: Cmd, iv: seq<byte>, ct: seq<byte>) {
    && cmd == SignCmd(e.integrity, P.IntegrityPayload(req.keyLabel, iv, ct))
    && exists main :: Replies.MainCmd(req, main) && Given(e, hsm, t, main, Ciphertext(iv, ct))
  }

  ghost predicate PcTrue(e: Env, hsm: M.Hsm, t: Tid, req: Request, pc: P.Pc) {
    match pc
    case Call(cmd, Main) => Replies.MainCmd(req, cmd)
    case Call(cmd, Sealing(iv, ct)) => Sealing(e, hsm, t, req, cmd, iv, ct)
    case Close(resp) => resp.Ok? ==> True(e, hsm, t, req, resp)
    case Done(resp) => resp.Ok? ==> True(e, hsm, t, req, resp)
    case _ => true
  }

  ghost predicate Inv(e: Env, s: State) {
    forall t :: t in s.tasks ==> PcTrue(e, s.hsm, t, s.tasks[t].req, s.tasks[t].pc)
  }

  predicate HsmGrew(was: M.Hsm, now: M.Hsm) {
    was.signed <= now.signed && was.uses <= now.uses
  }

  lemma SealedByGrows(e: Env, signed: Signed, now: Signed, name: string, iv: seq<byte>, ct: seq<byte>, sig: seq<byte>)
    requires SealedBy(e, signed, name, iv, ct, sig) && signed <= now
    ensures SealedBy(e, now, name, iv, ct, sig)
  {
    M.LastingGrows(e.c, e.token, signed, now, SignCmd(e.integrity, P.IntegrityPayload(name, iv, ct)), Signature(sig));
  }

  lemma GivenGrows(e: Env, hsm: M.Hsm, now: M.Hsm, t: Tid, cmd: Cmd, ans: Answer)
    requires Given(e, hsm, t, cmd, ans) && HsmGrew(hsm, now)
    ensures Given(e, now, t, cmd, ans)
  {
    hide M.Lasting;
    M.LastingGrows(e.c, e.token, hsm.signed, now.signed, cmd, ans);
  }

  lemma TrueGrows(e: Env, hsm: M.Hsm, now: M.Hsm, t: Tid, req: Request, resp: Response)
    requires True(e, hsm, t, req, resp) && HsmGrew(hsm, now)
    ensures True(e, now, t, req, resp)
  {
    hide Given, Replies.MainCmd, SealedBy;
    var cmd, ans :| Replies.MainCmd(req, cmd) && Given(e, hsm, t, cmd, ans) && Reports(e, hsm.signed, req, ans, resp);
    GivenGrows(e, hsm, now, t, cmd, ans);
    if ans.Ciphertext? {
      var sig :| SealedBy(e, hsm.signed, req.keyLabel, ans.iv, ans.ct, sig) && Replies.Carries(ans, sig, resp);
      SealedByGrows(e, hsm.signed, now.signed, req.keyLabel, ans.iv, ans.ct, sig);
    }
  }

  lemma PcGrows(e: Env, hsm: M.Hsm, now: M.Hsm, t: Tid, req: Request, pc: P.Pc)
    requires PcTrue(e, hsm, t, req, pc) && HsmGrew(hsm, now)
    ensures PcTrue(e, now, t, req, pc)
  {
    hide Given, Replies.MainCmd, True, P.IntegrityPayload;
    match pc
    case Call(cmd, Sealing(iv, ct)) =>
      var main :| Replies.MainCmd(req, main) && Given(e, hsm, t, main, Ciphertext(iv, ct));
      GivenGrows(e, hsm, now, t, main, Ciphertext(iv, ct));
    case Close(resp) => if resp.Ok? { TrueGrows(e, hsm, now, t, req, resp); }
    case Done(resp) => if resp.Ok? { TrueGrows(e, hsm, now, t, req, resp); }
    case _ =>
  }

  lemma Keep(e: Env, s: State, s': State, tid: Tid)
    requires Inv(e, s) && HsmGrew(s.hsm, s'.hsm)
    requires forall t :: t in s'.tasks && t != tid ==> t in s.tasks && V.SameCourse(s.tasks[t], s'.tasks[t])
    requires tid in s'.tasks ==>
      PcTrue(e, s'.hsm, tid, s'.tasks[tid].req, s'.tasks[tid].pc)
      || (tid in s.tasks && V.SameCourse(s.tasks[tid], s'.tasks[tid]))
    ensures Inv(e, s')
  {
    hide PcTrue, HsmGrew;
    forall t | t in s'.tasks ensures PcTrue(e, s'.hsm, t, s'.tasks[t].req, s'.tasks[t].pc) {
      if t in s.tasks && V.SameCourse(s.tasks[t], s'.tasks[t]) {
        PcGrows(e, s.hsm, s'.hsm, t, s.tasks[t].req, s.tasks[t].pc);
      }
    }
  }

  /** A permitted derive request carries a peer key that decodes, so no command ever gets the empty
      peer in place of a missing one. */
  lemma PeerIsGiven(g: P.Settings, cn: string, req: Request)
    requires P.Permitted(g, cn, req) && IsDerive(req.Op())
    ensures P.PeerOf(req).Some? && P.OrEmpty(P.PeerOf(req)) == P.PeerOf(req).value
    ensures Base64.Decode(req.peerPublicKeyB64) == P.PeerOf(req)
  {
  }

  lemma StartTrue(e: Env, g: P.Settings, hsm: M.Hsm, t: Tid, cn: string, req: Request)
    requires P.Permitted(g, cn, req)
    ensures PcTrue(e, hsm, t, req, P.Start(g, req, P.PeerOf(req)))
  {
    hide Base64.Decode, P.IntegrityPayload, P.Permitted, True;
    if IsDerive(req.Op()) {
      PeerIsGiven(g, cn, req);
    }
  }

  lemma DecryptTrue(e: Env, g: P.Settings, hsm: M.Hsm, t: Tid, cn: string, req: Request)
    requires P.Permitted(g, cn, req) && req.IntegrityInput().Some? && Replies.Supported(req)
    ensures PcTrue(e, hsm, t, req, P.DecryptCall(req, P.PeerOf(req)))
  {
    hide Base64.Decode, P.IntegrityPayload, P.Permitted, True;
    if IsDerive(req.Op()) {
      PeerIsGiven(g, cn, req);
    }
  }

  lemma MainAnswered(e: Env, g: P.Settings, hsm: M.Hsm, t: Tid, req: Request, cmd: Cmd, ans: Answer)
    requires g.integrity == e.integrity && Replies.MainCmd(req, cmd) && cmd.keyLabel == req.keyLabel && (ans.Failed? || Given(e, hsm, t, cmd, ans))
    ensures PcTrue(e, hsm, t, req, P.AfterCall(g, req, P.PeerOf(req), cmd, P.Main, ans))
  {
    hide Given, Replies.MainCmd, Base64.Encode, P.IntegrityPayload;
    var pc := P.AfterCall(g, req, P.PeerOf(req), cmd, P.Main, ans);
    if pc.Close? && pc.resp.Ok? {
      assert Reports(e, hsm.signed, req, ans, pc.resp);
    }
  }

  lemma SealAnswered(e: Env, g: P.Settings, hsm: M.Hsm, t: Tid, req: Request, cmd: Cmd, iv: seq<byte>, ct: seq<byte>, ans: Answer)
    requires Sealing(e, hsm, t, req, cmd, iv, ct) && (ans.Failed? || Given(e, hsm, t, cmd, ans))
    ensures PcTrue(e, hsm, t, req, P.AfterCall(g, req, P.PeerOf(req), cmd, P.Sealing(iv, ct), ans))
  {
    hide M.Lasting, Base64.Encode, P.IntegrityPayload, Replies.MainCmd;
    if ans.Signature? {
      var main :| Replies.MainCmd(req, main) && Given(e, hsm, t, main, Ciphertext(iv, ct));
      assert SealedBy(e, hsm.signed, req.keyLabel, iv, ct, ans.sig);
      var resp := P.AfterCall(g, req, P.PeerOf(req), cmd, P.Sealing(iv, ct), ans).resp;
      assert Reports(e, hsm.signed, req, Ciphertext(iv, ct), resp);
    }
  }

  lemma FinishKeeps(e: Env, s: State, tid: Tid, s': State)
    requires Ties(e, s) && Inv(e, s) && NextHsm(e, s, M.Finish(tid)) == Some(s')
    requires s.tasks[tid].pc.why.Checking? ==> s.tasks[tid].req.IntegrityInput().Some? && Replies.Supported(s.tasks[tid].req)
    ensures Inv(e, s')
  {
    hide Ties, PcTrue, P.AfterCall, HsmGrew;
    FinishedTrue(e, s, tid, s');
    Keep(e, s, s', tid);
  }

  lemma FinishedTrue(e: Env, s: State, tid: Tid, s': State)
    requires Ties(e, s) && Inv(e, s) && NextHsm(e, s, M.Finish(tid)) == Some(s')
    requires s.tasks[tid].pc.why.Checking? ==> s.tasks[tid].req.IntegrityInput().Some? && Replies.Supported(s.tasks[tid].req)
    ensures HsmGrew(s.hsm, s'.hsm)
    ensures tid in s'.tasks && PcTrue(e, s'.hsm, tid, s'.tasks[tid].req, s'.tasks[tid].pc)
  {
    hide EnvOk, M.StoreOk, M.Lasting, P.IntegrityPayload, P.Permitted, RequestFits, P.DecryptCall, Replies.MainCmd, Sealing, True, PendingOk,
      LinesTied, Config.TableOk;
    var t := s.tasks[tid];
    var ans := s.hsm.calls[tid].ans;
    assert TaskOk(e, s, tid) && CallTied(s, tid) && M.CallOk(e.c, e.token, s.hsm, tid);
    assert PcTrue(e, s.hsm, tid, t.req, t.pc);
    match t.pc.why {
      case Main => MainAnswered(e, t.g, s'.hsm, tid, t.req, t.pc.cmd, ans);
      case Sealing(iv, ct) =>
        PcGrows(e, s.hsm, s'.hsm, tid, t.req, t.pc);
        SealAnswered(e, t.g, s'.hsm, tid, t.req, t.pc.cmd, iv, ct, ans);
      case Checking => DecryptTrue(e, t.g, s'.hsm, tid, t.cn, t.req);
    }
  }

  lemma LogStepKeeps(e: Env, s: State, st: A.Step, s': State)
    requires Ties(e, s) && Inv(e, s) && NextLog(e, s, st) == Some(s')
    ensures Inv(e, s')
  {
    hide Ties, NextLog, PcTrue;
    LogStepFrame(e, s, st, s');
    if st.tid in s.tasks {
      LoggerTrue(e, s, st, s');
    }
    Keep(e, s, s', st.tid);
  }

  lemma LoggerTrue(e: Env, s: State, st: A.Step, s': State)
    requires Ties(e, s) && Inv(e, s) && st.tid in s.tasks && st.tid in s'.tasks && NextLog(e, s, st) == Some(s')
    ensures PcTrue(e, s'.hsm, st.tid, s'.tasks[st.tid].req, s'.tasks[st.tid].pc)
  {
    hide EnvOk, M.Inv, P.Permitted, RequestFits, P.Start, A.Next, IsDue, True, Replies.MainCmd, Sealing, CommandOk, PendingOk, LinesTied,
      Config.TableOk, LinesAfter, P.Due, SettingsOk, CallTied;
    var t := s.tasks[st.tid];
    assert TaskOk(e, s, st.tid);
    assert PcTrue(e, s.hsm, st.tid, t.req, t.pc);
    if t.pc.Open? {
      StartTrue(e, t.g, s.hsm, st.tid, t.cn, t.req);
    }
  }

  lemma OtherHsmKeeps(e: Env, s: State, st: M.Step, s': State)
    requires Inv(e, s) && !st.Finish? && NextHsm(e, s, st) == Some(s')
    ensures Inv(e, s')
  {
    hide PcTrue, M.Next;
    HsmGrows(e, s.hsm, st, s'.hsm);
    Keep(e, s, s', st.tid);
  }

  lemma ArriveKeeps(e: Env, s: State, st: Step, s': State)
    requires Inv(e, s) && (st.Arrive? || st.Notify?) && Next(e, s, st) == Some(s')
    ensures Inv(e, s')
  {
    hide P.Begin, RequestFits, True, Replies.MainCmd, Sealing, NoticeOk;
    if st.Arrive? {
      NoOkYet(s'.tasks[st.tid].g, st.cn, st.req);
    }
    Keep(e, s, s', st.tid);
  }

  lemma NoOkYet(g: P.Settings, cn: string, req: Request)
    ensures var pc := P.Begin(g, cn, Some(req)); pc.Refuse? || pc.Open?
  {
  }

  lemma RestartKeeps(e: Env, s: State, st: Step, s': State)
    requires Inv(e, s) && st.Restart? && Next(e, s, st) == Some(s')
    ensures Inv(e, s')
  {
    hide PcTrue, Config.TableOk, Chain.Chained;
    Keep(e, s, s', 0);
  }

  lemma NextKeepsInv(e: Env, s: State, st: Step, s': State)
    requires Ties(e, s) && Inv(e, s) && V.Inv(e, s) && Next(e, s, st) == Some(s')
    ensures Inv(e, s')
  {
    hide Inv, Ties, NextLog, NextHsm, V.Inv, Restarted;
    match st
    case Arrive(_, _, _) => ArriveKeeps(e, s, st, s');
    case Notify(_, _, _, _) => ArriveKeeps(e, s, st, s');
    case Restart(_) => RestartKeeps(e, s, st, s');
    case LogStep(l) => LogStepKeeps(e, s, l, s');
    case HsmStep(h) =>
      if h.Finish? {
        CheckedDecrypts(e, s, h.tid, s');
        FinishKeeps(e, s, h.tid, s');
      } else {
        OtherHsmKeeps(e, s, h, s');
      }
  }

  lemma CheckedDecrypts(e: Env, s: State, tid: Tid, s': State)
    requires V.Inv(e, s) && NextHsm(e, s, M.Finish(tid)) == Some(s')
    ensures s.tasks[tid].pc.why.Checking? ==> s.tasks[tid].req.IntegrityInput().Some? && Replies.Supported(s.tasks[tid].req)
  {
    hide M.Next, V.SealOk, V.DecryptOk, IntegrityKey, V.StartedOk, P.IntegrityPayload, V.SealedBefore;
    assert V.TaskSeals(e, s, tid);
  }

  /** All that is proved of every reachable state about commands, ciphertexts and answers. */
  ghost predicate AllInv(e: Env, s: State) {
    Ties(e, s) && V.Inv(e, s) && Inv(e, s)
  }

  lemma NextKeepsAll(e: Env, s: State, st: Step, s': State)
    requires AllInv(e, s) && Next(e, s, st) == Some(s')
    ensures AllInv(e, s')
  {
    hide Inv, Ties, V.Inv, Next;
    NextKeepsTies(e, s, st, s');
    V.NextKeepsInv(e, s, st, s');
    NextKeepsInv(e, s, st, s');
  }

  lemma StartAll(e: Env, table: Config.Table, base: seq<Chain.Entry>)
    requires EnvOk(e) && Config.TableOk(table, e.integrity)
    ensures AllInv(e, Machine.Start(e, table, base))
  {
    StartTies(e, table, base);
  }

  lemma ReachedAll(e: Env, base: seq<Chain.Entry>, s: State)
    requires EnvOk(e) && Reached(e, base, s)
    ensures AllInv(e, s)
  {
    hide AllInv, Next, Reached;
    forall table | Config.TableOk(table, e.integrity) ensures AllInv(e, Machine.Start(e, table, base)) {
      StartAll(e, table, base);
    }
    forall r: State, st | AllInv(e, r) && Next(e, r, st).Some? ensures AllInv(e, Next(e, r, st).value) {
      NextKeepsAll(e, r, st, Next(e, r, st).value);
    }
    HoldsOfReached(e, base, s, (r: State) => AllInv(e, r));
  }

  /** In every interleaving, over any number of restarts, every `ok` answer is what the token computed
      for that request. */
  lemma OkAnswersAreTrue(e: Env, base: seq<Chain.Entry>, s: State, t: Tid)
    requires EnvOk(e) && Reached(e, base, s)
    requires t in s.tasks && s.tasks[t].pc.Done? && s.tasks[t].pc.resp.Ok?
    ensures True(e, s.hsm, t, s.tasks[t].req, s.tasks[t].pc.resp)
  {
    hide Reached, Ties, V.Inv, True;
    ReachedAll(e, base, s);
    assert PcTrue(e, s.hsm, t, s.tasks[t].req, s.tasks[t].pc);
  }
}
