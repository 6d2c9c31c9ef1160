/** The log tells the truth about outcomes: closing entries say how their requests were answered. */
module Outcomes {
  import opened Wrappers
  import opened Bytes
  import opened Protocol
  import opened World
  import opened Machine
  import P = Pipeline
  import Chain
  import Config
  import Token
  import A = Appends
  import M = HsmMachine
  import L = Ledger
  import An = Answering
  import C = Courses
  import E = EndToEnd
  import R = RoundTrip
  import Replies
  import Base64

  /** The request has, or is about to have, this answer. */
  predicate AnsweredWith(t: Task, resp: Response) {
    t.pc == P.Close(resp) || t.pc == P.Done(resp)
  }

  /** A closing entry says how its request is answered. */
  ghost predicate SaysSo(s: State, line: Line) {
    line.role.Closing? ==>
      && line.owner in s.tasks
      && exists resp :: AnsweredWith(s.tasks[line.owner], resp) && (line.entry.outcome, line.entry.detail) == P.Due(P.Close(resp))
  }

  ghost predicate Inv(s: State) {
    && (forall i :: 0 <= i < |s.lines| ==> SaysSo(s, s.lines[i]))
    && (forall t :: t in s.tasks && s.tasks[t].pc.Done? && s.tasks[t].pc.resp.Ok? ==> s.tasks[t].began)
  }

  /** An answer, once found, is the one that is given; and an `ok` is given only to an executed request. */
  predicate Onward(t: Task, t': Task) {
    && (t.pc.Close? || t.pc.Done? ==> AnsweredWith(t', t.pc.resp))
    && (t'.pc.Done? && t'.pc.resp.Ok? ==> t'.began || (t.pc.Done? && t.pc.resp.Ok? && t'.began == t.began))
  }

  lemma LogOnward(e: Env, s: State, st: A.Step, s': State)
    requires Ties(e, s) && NextLog(e, s, st) == Some(s') && st.tid in s.tasks && st.tid in s'.tasks
    ensures Onward(s.tasks[st.tid], s'.tasks[st.tid])
  {
    hide M.Inv, A.Next, EnvOk, Config.TableOk, PendingOk, CallTied, LinesTied, P.Permitted, RequestFits, SettingsOk, P.Start, IsDue,
      LinesAfter, P.Due, OpName, CommandOk;
    var t := s.tasks[st.tid];
    assert TaskOk(e, s, st.tid);
    P.Shapes(t.g, t.req, P.PeerOf(t.req), Token.SignCmd("", []), P.Main, Token.Failed);
  }

  lemma HsmOnward(e: Env, s: State, st: M.Step, s': State, tid: Tid)
    requires NextHsm(e, s, st) == Some(s') && tid in s.tasks
    ensures tid in s'.tasks && (s'.tasks[tid] == s.tasks[tid] || (s.tasks[tid].pc.Call? && !s'.tasks[tid].pc.Done?))
  {
    hide M.Next, P.AfterCall;
    if st.Finish? {
      var t := s.tasks[st.tid];
      P.Shapes(t.g, t.req, P.PeerOf(t.req), t.pc.cmd, t.pc.why, s.hsm.calls[st.tid].ans);
    }
  }

  lemma AnswerStays(e: Env, s: State, st: Step, s': State, tid: Tid)
    requires Ties(e, s) && Next(e, s, st) == Some(s') && tid in s.tasks
    ensures tid in s'.tasks && Onward(s.tasks[tid], s'.tasks[tid])
  {
    hide Ties, NextLog, NextHsm, P.Begin, RequestFits, NoticeOk, Chain.Chained, Config.TableOk;
    match st
    case LogStep(l) =>
      LogStepFrame(e, s, l, s');
      if l.tid == tid {
        LogOnward(e, s, l, s');
      }
    case HsmStep(h) => HsmOnward(e, s, h, s', tid);
    case _ =>
  }

  lemma LineStaysTrue(s: State, s': State, line: Line, line': Line)
    requires SaysSo(s, line) && LineStays(line, line')
    requires line.owner in s.tasks ==> line.owner in s'.tasks
    requires line.owner in s.tasks ==> forall resp :: AnsweredWith(s.tasks[line.owner], resp) ==> AnsweredWith(s'.tasks[line.owner], resp)
    ensures SaysSo(s', line')
  {
    hide P.Due;
  }

  /** A closing entry is written with the answer at hand. */
  lemma WrittenTrue(e: Env, s: State, tid: Tid, s': State)
    requires Ties(e, s) && NextLog(e, s, A.Write(tid)) == Some(s')
    ensures |s'.lines| == |s.lines| + 1 && SaysSo(s', s'.lines[|s.lines|])
  {
    hide M.Inv, EnvOk, Config.TableOk, TaskOk, CallTied, LinesTied, OpName, P.Due, Chain.EntryHash;
    assert PendingOk(s, tid);
    if RoleFor(s, tid).Closing? {
      assert AnsweredWith(s'.tasks[tid], s.tasks[tid].pc.resp);
    }
  }

  lemma NextKeepsInv(e: Env, s: State, st: Step, s': State)
    requires Ties(e, s) && Inv(s) && Next(e, s, st) == Some(s')
    ensures Inv(s')
  {
    hide Ties, Next, SaysSo, LineStays;
    NextGrows(e, s, st, s');
    TiesLines(e, s);
    L.NextLines(e, s, st, s');
    forall t | t in s.tasks
      ensures t in s'.tasks && forall resp :: AnsweredWith(s.tasks[t], resp) ==> AnsweredWith(s'.tasks[t], resp)
      ensures s'.tasks[t].pc.Done? && s'.tasks[t].pc.resp.Ok? ==> s'.tasks[t].began
    {
      AnswerStays(e, s, st, s', t);
    }
    forall t | t in s'.tasks && t !in s.tasks ensures !(s'.tasks[t].pc.Done? && s'.tasks[t].pc.resp.Ok?) {
      NewIsUnanswered(e, s, st, s', t);
    }
    forall i | 0 <= i < |s'.lines| ensures SaysSo(s', s'.lines[i]) {
      if i < |s.lines| {
        LineStaysTrue(s, s', s.lines[i], s'.lines[i]);
      } else {
        L.LogIsNext(e, s, st, s');
        WrittenTrue(e, s, st.logStep.tid, s');
      }
    }
  }

  lemma NewIsUnanswered(e: Env, s: State, st: Step, s': State, tid: Tid)
    requires Next(e, s, st) == Some(s') && tid in s'.tasks && tid !in s.tasks
    ensures !(s'.tasks[tid].pc.Done? && s'.tasks[tid].pc.resp.Ok?)
  {
    hide NextLog, M.Next, RequestFits, NoticeOk, Chain.Chained, Config.TableOk, P.Begin;
    if st.LogStep? {
      LogStepFrame(e, s, st.logStep, s');
    }
    if st.Arrive? {
      An.NoOkYet(s'.tasks[tid].g, st.cn, st.req);
    }
  }

  lemma ReachedInv(e: Env, base: seq<Chain.Entry>, s: State)
    requires EnvOk(e) && Reached(e, base, s)
    ensures Inv(s)
  {
    hide Ties, Inv, Next, Reached;
    forall table | Config.TableOk(table, e.integrity) ensures Ties(e, Machine.Start(e, table, base)) && Inv(Machine.Start(e, table, base)) {
      StartTies(e, table, base);
      StartInv(e, table, base);
    }
    forall r: State, st | Ties(e, r) && Inv(r) && Next(e, r, st).Some?
      ensures Ties(e, Next(e, r, st).value) && Inv(Next(e, r, st).value)
    {
      NextKeepsTies(e, r, st, Next(e, r, st).value);
      NextKeepsInv(e, r, st, Next(e, r, st).value);
    }
    HoldsOfReached(e, base, s, (r: State) => Ties(e, r) && Inv(r));
  }

  lemma StartInv(e: Env, table: Config.Table, base: seq<Chain.Entry>)
    ensures Inv(Machine.Start(e, table, base))
  {
  }

  /** The request is answered `ok`, and the token really gave that answer. */
  ghost predicate OkAndTrue(e: Env, s: State, tid: Tid) {
    && tid in s.tasks
    && exists resp: Response :: resp.Ok? && AnsweredWith(s.tasks[tid], resp) && An.True(e, s.hsm, tid, s.tasks[tid].req, resp)
  }

  /** In every run, restarts included: each `authorized` line belongs to a request whose answer is an
      `ok` that is true, and an `error` line quotes the error its request is answered with. */
  lemma ClosingLinesAreTrue(e: Env, base: seq<Chain.Entry>, s: State, i: nat)
    requires EnvOk(e) && Reached(e, base, s) && i < |s.lines|
    ensures s.lines[i].entry.outcome == Chain.Authorized ==> OkAndTrue(e, s, s.lines[i].owner)
    ensures s.lines[i].entry.outcome == Chain.Error ==>
      s.lines[i].owner in s.tasks && AnsweredWith(s.tasks[s.lines[i].owner], Error(s.lines[i].entry.detail))
  {
    hide Reached, Ties, L.Kept, An.True;
    ReachedInv(e, base, s);
    L.ReachedKept(e, base, s);
    An.ReachedAll(e, base, s);
    var line := s.lines[i];
    RoleReads(s, i);
    assert SaysSo(s, line);
    if line.role.Closing? {
      var t := s.tasks[line.owner];
      assert An.PcTrue(e, s.hsm, line.owner, t.req, t.pc) by { TaskTrue(e, s, line.owner); }
    }
  }

  lemma TaskTrue(e: Env, s: State, tid: Tid)
    requires An.AllInv(e, s) && tid in s.tasks
    ensures An.PcTrue(e, s.hsm, tid, s.tasks[tid].req, s.tasks[tid].pc)
  {
    hide Ties, An.PcTrue;
  }

  lemma RoleReads(s: State, i: nat)
    requires L.Kept(s) && i < |s.lines|
    ensures s.lines[i].role == L.RoleOfLine(s.lines[i].entry)
  {
    assert L.LineOk(s, i);
  }

  /** And no other request is marked so: an answered request has an `authorized` line exactly if it was
      answered `ok` and writing its closing entry did not fail. */
  lemma AuthorizedIffOk(e: Env, base: seq<Chain.Entry>, s: State, tid: Tid)
    requires EnvOk(e) && Reached(e, base, s) && tid in s.tasks && s.tasks[tid].pc.Done?
    ensures (exists i :: 0 <= i < |s.lines| && s.lines[i].owner == tid && s.lines[i].entry.outcome == Chain.Authorized)
        <==> s.tasks[tid].pc.resp.Ok? && !s.tasks[tid].lost
  {
    hide Reached, Ties, L.Once, L.LineOk, An.True, L.ReasonOk;
    ReachedInv(e, base, s);
    L.ReachedKept(e, base, s);
    L.TiesAccount(e, s);
    var t := s.tasks[tid];
    if i :| 0 <= i < |s.lines| && s.lines[i].owner == tid && s.lines[i].entry.outcome == Chain.Authorized {
      RoleReads(s, i);
      ClosingEnded(s, i);
      assert SaysSo(s, s.lines[i]);
    }
    if t.pc.resp.Ok? && !t.lost {
      assert L.TaskLines(s, tid);
      var i :| L.Wrote(s, i, tid, Closing);
      assert SaysSo(s, s.lines[i]);
    }
  }

  lemma ClosingEnded(s: State, i: nat)
    requires L.Kept(s) && i < |s.lines| && s.lines[i].role.Closing?
    ensures s.lines[i].owner in s.tasks && s.tasks[s.lines[i].owner].ended
  {
    assert L.LineOk(s, i);
  }

  // ------------------------------------ What the device answered is passed on

  lemma {:induction false} InCalls(tid: Tid, evs: seq<Event>, u: M.Use)
    ensures u in C.CallsOf(tid, evs) <==> u.tid == tid && !u.ans.Failed? && Called(u.cmd, u.ans) in evs
  {
    if evs != [] {
      var n := |evs| - 1;
      InCalls(tid, evs[..n], u);
      assert evs == evs[..n] + [evs[n]];
    }
  }

  lemma {:induction false} InUses(tid: Tid, uses: seq<M.Use>, u: M.Use)
    ensures u in C.UsesOf(tid, uses) <==> u in uses && u.tid == tid && !u.ans.Failed?
  {
    if uses != [] {
      var n := |uses| - 1;
      InUses(tid, uses[..n], u);
      assert uses == uses[..n] + [uses[n]];
    }
  }

  /** The events of an answered request are its story, and its answered calls are its key uses. */
  lemma DoneIsTold(e: Env, base: seq<Chain.Entry>, s: State, tid: Tid)
    requires EnvOk(e) && Reached(e, base, s) && tid in s.tasks && s.tasks[tid].pc.Done?
    ensures var t := s.tasks[tid]; Replies.Story(t.g, t.cn, t.req, t.evs, t.pc.resp) && t.g.integrity == e.integrity
    ensures forall u: M.Use :: u.tid == tid && !u.ans.Failed? ==> (u in s.hsm.uses <==> Called(u.cmd, u.ans) in s.tasks[tid].evs)
  {
    hide Reached, P.Serves, Replies.Story, C.Replays, C.UsesShow, C.CallsOf, C.UsesOf, C.AppendsOf, C.LinesOf;
    var t := s.tasks[tid];
    C.CoursesAreShown(e, base, s, tid);
    Replies.ServedAsTold(t.g, t.cn, Some(t.req), t.evs, t.pc.resp);
    E.SettingsOf(e, base, s, tid);
    forall u: M.Use | u.tid == tid && !u.ans.Failed? ensures u in s.hsm.uses <==> Called(u.cmd, u.ans) in t.evs {
      InCalls(tid, t.evs, u);
      InUses(tid, s.hsm.uses, u);
    }
  }

  /** The device answers each command in its own form. */
  lemma UsesInForm(e: Env, base: seq<Chain.Entry>, s: State, u: M.Use)
    requires EnvOk(e) && Reached(e, base, s) && u in s.hsm.uses && !u.ans.Failed?
    ensures Replies.OfForm(u.cmd, u.ans)
  {
    hide Reached, Ties, M.RecordOf, Token.Answers;
    E.ReachedInOrder(e, base, s);
    var j :| 0 <= j < |s.hsm.uses| && s.hsm.uses[j] == u;
    assert M.InOrder(e.c, e.token, e.outside, s.hsm.uses, j);
    Token.AnswerShape(e.c, e.token, M.RecordOf(e.token, e.outside, s.hsm.uses[..j]), u.cmd, u.ans,
                      M.RecordOf(e.token, e.outside, s.hsm.uses[..j + 1]));
  }

  /** The device gave request `tid` this answer to the command it stands for, and if it is a ciphertext,
      also sealed it. */
  ghost predicate Got(e: Env, s: State, tid: Tid, req: Request, ans: Token.Answer) {
    && !ans.Failed? && (exists cmd :: Replies.MainCmd(req, cmd) && M.Use(tid, cmd, ans) in s.hsm.uses)
    && (ans.Ciphertext? ==> exists sig :: Sealed(e, s, tid, req, ans, sig))
  }

  predicate Sealed(e: Env, s: State, tid: Tid, req: Request, ans: Token.Answer, sig: seq<byte>)
    requires ans.Ciphertext?
  {
    M.Use(tid, Replies.SealOf(e.integrity, req, ans.iv, ans.ct), Token.Signature(sig)) in s.hsm.uses
  }

  /** `resp` passes that answer on. */
  ghost predicate Passes(e: Env, s: State, tid: Tid, req: Request, ans: Token.Answer, resp: Response) {
    if ans.Ciphertext? then exists sig :: Sealed(e, s, tid, req, ans, sig) && Replies.Carries(ans, sig, resp)
    else Replies.Carries(ans, [], resp)
  }

  /** In every run, restarts included: once a request is answered, whatever the device answered to its
      command has been passed on to the client. */
  lemma GotIsAnswered(e: Env, base: seq<Chain.Entry>, s: State, tid: Tid, ans: Token.Answer)
    requires EnvOk(e) && Reached(e, base, s) && tid in s.tasks && s.tasks[tid].pc.Done?
    requires Got(e, s, tid, s.tasks[tid].req, ans)
    ensures s.tasks[tid].pc.resp.Ok? && Passes(e, s, tid, s.tasks[tid].req, ans, s.tasks[tid].pc.resp)
  {
    hide Reached, Replies.Story, Replies.MainCmd, Replies.OfForm, Base64.Encode, P.IntegrityPayload;
    var t := s.tasks[tid];
    DoneIsTold(e, base, s, tid);
    forall ev | ev in t.evs && ev.Called? && !ev.ans.Failed? ensures Replies.OfForm(ev.cmd, ev.ans) {
      UsesInForm(e, base, s, M.Use(tid, ev.cmd, ev.ans));
    }
    var cmd :| Replies.MainCmd(t.req, cmd) && M.Use(tid, cmd, ans) in s.hsm.uses;
    assert Called(cmd, ans) in t.evs && Replies.GotAnswer(t.req, t.evs, ans);
    if ans.Ciphertext? {
      var sig :| Sealed(e, s, tid, t.req, ans, sig);
      assert Called(Replies.SealOf(e.integrity, t.req, ans.iv, ans.ct), Token.Signature(sig)) in t.evs;
      assert Replies.GotSeal(e.integrity, t.req, t.evs, ans, sig);
    }
    Replies.AnswerIsPassedOn(t.g, t.cn, t.req, t.evs, t.pc.resp, ans);
    if ans.Ciphertext? {
      var sig :| Replies.GotSeal(e.integrity, t.req, t.evs, ans, sig) && Replies.Carries(ans, sig, t.pc.resp);
      assert Sealed(e, s, tid, t.req, ans, sig);
    }
  }

  /** And nothing else is `ok`. */
  lemma OkIffGot(e: Env, base: seq<Chain.Entry>, s: State, tid: Tid)
    requires EnvOk(e) && Reached(e, base, s) && tid in s.tasks && s.tasks[tid].pc.Done?
    ensures s.tasks[tid].pc.resp.Ok? <==> exists ans :: Got(e, s, tid, s.tasks[tid].req, ans)
  {
    hide Reached, Replies.Story, Replies.MainCmd, Replies.IsEntry, Base64.Encode, P.IntegrityPayload, P.Permitted, Replies.Executable;
    var t := s.tasks[tid];
    if ans :| Got(e, s, tid, t.req, ans) {
      GotIsAnswered(e, base, s, tid, ans);
    }
    if t.pc.resp.Ok? {
      DoneIsTold(e, base, s, tid);
      Replies.OkIsEarned(t.g, t.cn, Some(t.req), t.evs, t.pc.resp);
      var ans :| Replies.GotAnswer(t.req, t.evs, ans) && Replies.PassesOn(e.integrity, t.req, t.evs, ans, t.pc.resp);
      var ev :| ev in t.evs && ev.Called? && Replies.MainCmd(t.req, ev.cmd) && ev.ans == ans;
      assert M.Use(tid, ev.cmd, ans) in s.hsm.uses;
      if ans.Ciphertext? {
        var sig :| Replies.GotSeal(e.integrity, t.req, t.evs, ans, sig);
        assert Sealed(e, s, tid, t.req, ans, sig);
      }
      assert Got(e, s, tid, t.req, ans);
    }
  }

  /** A request whose presented signature has not been found wrong is rejected only if the device could not
      check it. */
  lemma RejectedUnchecked(e: Env, base: seq<Chain.Entry>, s: State, tid: Tid)
    requires EnvOk(e) && Reached(e, base, s) && tid in s.tasks && s.tasks[tid].pc == P.Done(Denied(L.REJECTED))
    requires var t := s.tasks[tid]; P.Permitted(t.g, t.cn, t.req) && R.NotFoundWrong(e, s.hsm.uses, tid, t.req)
    ensures exists cmd :: Replies.IsCheck(e.integrity, s.tasks[tid].req, cmd) && Called(cmd, Token.Failed) in s.tasks[tid].evs
  {
    hide Reached, Replies.MainCmd, Replies.IsEntry, Base64.Encode, Base64.Decode, P.IntegrityPayload, P.Permitted, Replies.Executable;
    var t := s.tasks[tid];
    DoneIsTold(e, base, s, tid);
    var ev := Replies.CallsIn(t.evs)[0];
    assert ev in t.evs;
    if !ev.ans.Failed? {
      UsesInForm(e, base, s, M.Use(tid, ev.cmd, ev.ans));
    }
  }
}
