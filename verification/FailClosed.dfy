/** No HSM call without a published intent, in every interleaving of requests and across restarts. */
module FailClosed {
  import opened Wrappers
  import opened Bytes
  import opened Machine
  import opened Token
  import P = Pipeline
  import Protocol
  import Chain
  import Config
  import Base64
  import L = Ledger
  import V = Provenance
  import An = Answering
  import A = Appends
  import M = HsmMachine
  import Replies

  /** The intent of request `t` stood in the log, and its append was over, before time `at`. */
  ghost predicate IntentDone(s: State, t: Tid, at: nat) {
    exists i :: L.Wrote(s, i, t, Opening) && s.lines[i].published.Some? && s.lines[i].published.value < at
  }

  /** The sealing of a ciphertext that an encrypting request got for its own label among these uses. */
  ghost predicate IsSeal(e: Env, uses: seq<M.Use>, tid: Tid, req: Protocol.Request, cmd: Cmd) {
    && (req.EncryptRequest? || req.DeriveAndEncryptRequest?)
    && exists i, iv, ct :: V.EncryptedAt(uses, i, tid, req.keyLabel, iv, ct)
                           && cmd == SignCmd(e.integrity, P.IntegrityPayload(req.keyLabel, iv, ct))
  }

  /** The three commands a request leads to: what it asks for, on its own decoded texts; before a
      decrypt, the check; after an encrypt, the seal. */
  ghost predicate Asks(e: Env, uses: seq<M.Use>, tid: Tid, req: Protocol.Request, cmd: Cmd) {
    Replies.Supported(req) && (Replies.MainCmd(req, cmd) || Replies.IsCheck(e.integrity, req, cmd) || IsSeal(e, uses, tid, req, cmd))
  }

  ghost predicate StartedOk(e: Env, s: State, x: Started) {
    && x.tid in s.tasks && x.at <= s.log.clock && x.used <= |s.hsm.uses| && IntentDone(s, x.tid, x.at)
    && P.Permitted(s.tasks[x.tid].g, s.tasks[x.tid].cn, s.tasks[x.tid].req) && Asks(e, s.hsm.uses[..x.used], x.tid, s.tasks[x.tid].req, x.cmd)
  }

  ghost predicate WasStarted(s: State, t: Tid, cmd: Cmd) {
    exists k :: 0 <= k < |s.started| && s.started[k].tid == t && s.started[k].cmd == cmd
  }

  predicate Executing(t: Task) {
    !t.cut && (t.pc.Call? || t.pc.Close?)
  }

  ghost predicate Inv(e: Env, s: State) {
    && (forall t :: t in s.tasks && Executing(s.tasks[t]) ==> IntentDone(s, t, s.log.clock))
    && (forall x :: x in s.started ==> StartedOk(e, s, x))
    && (forall t :: t in s.hsm.calls ==> WasStarted(s, t, s.hsm.calls[t].cmd))
    && (forall u :: u in s.hsm.uses ==> WasStarted(s, u.tid, u.cmd))
  }

  lemma IntentStays(s: State, s': State, t: Tid, at: nat, now: nat)
    requires IntentDone(s, t, at) && Grows(s, s') && at <= now
    ensures IntentDone(s', t, now)
  {
    var i :| L.Wrote(s, i, t, Opening) && s.lines[i].published.Some? && s.lines[i].published.value < at;
    assert LineStays(s.lines[i], s'.lines[i]);
    assert L.Wrote(s', i, t, Opening);
  }

  lemma StartStays(s: State, s': State, t: Tid, cmd: Cmd)
    requires WasStarted(s, t, cmd) && s.started <= s'.started
    ensures WasStarted(s', t, cmd)
  {
    var k :| 0 <= k < |s.started| && s.started[k].tid == t && s.started[k].cmd == cmd;
    assert s'.started[k] == s.started[k];
  }

  /** What has been established survives every step; only what is new needs a look. */
  lemma Keep(e: Env, s: State, s': State)
    requires Inv(e, s) && Grows(s, s')
    requires forall t :: t in s'.tasks && Executing(s'.tasks[t]) ==>
      IntentDone(s', t, s'.log.clock) || (t in s.tasks && Executing(s.tasks[t]))
    requires forall x :: x in s'.started ==> x in s.started || StartedOk(e, s', x)
    requires forall t :: t in s'.hsm.calls ==>
      WasStarted(s', t, s'.hsm.calls[t].cmd) || (t in s.hsm.calls && s.hsm.calls[t].cmd == s'.hsm.calls[t].cmd)
    requires forall u :: u in s'.hsm.uses ==>
      u in s.hsm.uses || (u.tid in s.hsm.calls && s.hsm.calls[u.tid].cmd == u.cmd)
    ensures Inv(e, s')
  {
    hide P.Permitted, IntentDone, WasStarted, Asks, Executing;
    forall t | t in s'.tasks && Executing(s'.tasks[t]) ensures IntentDone(s', t, s'.log.clock) {
      if t in s.tasks && Executing(s.tasks[t]) { IntentStays(s, s', t, s.log.clock, s'.log.clock); }
    }
    forall x | x in s'.started ensures StartedOk(e, s', x) {
      if x in s.started {
        IntentStays(s, s', x.tid, x.at, x.at);
        assert s'.hsm.uses[..x.used] == s.hsm.uses[..x.used];
      }
    }
    forall t | t in s'.hsm.calls ensures WasStarted(s', t, s'.hsm.calls[t].cmd) {
      if t in s.hsm.calls && s.hsm.calls[t].cmd == s'.hsm.calls[t].cmd { StartStays(s, s', t, s.hsm.calls[t].cmd); }
    }
    forall u | u in s'.hsm.uses ensures WasStarted(s', u.tid, u.cmd) {
      if u in s.hsm.uses || (u.tid in s.hsm.calls && s.hsm.calls[u.tid].cmd == u.cmd) { StartStays(s, s', u.tid, u.cmd); }
    }
  }

  lemma LogStepKeeps(e: Env, s: State, st: A.Step, s': State)
    requires Ties(e, s) && Inv(e, s) && NextLog(e, s, st) == Some(s') && Grows(s, s')
    ensures Inv(e, s')
  {
    hide Ties, NextLog, StartedOk, WasStarted, IntentDone, Executing, Grows;
    LogStepFrame(e, s, st, s');
    if st.tid in s.tasks {
      LoggerExecutes(e, s, st, s');
    }
    Keep(e, s, s');
  }

  lemma LoggerExecutes(e: Env, s: State, st: A.Step, s': State)
    requires Ties(e, s) && st.tid in s.tasks && st.tid in s'.tasks && NextLog(e, s, st) == Some(s')
    ensures Executing(s'.tasks[st.tid]) ==> IntentDone(s', st.tid, s'.log.clock) || Executing(s.tasks[st.tid])
  {
    hide EnvOk, M.Inv, P.Start, P.Due, Protocol.OpName, TaskOk, CallTied, LineIs, LinesAfter, Config.TableOk, A.Next, IntentDone, IsDue;
    if st.Publish? && s.tasks[st.tid].pc.Open? {
      PublishedIntent(e, s, st.tid, s');
    }
  }

  lemma PublishedIntent(e: Env, s: State, tid: Tid, s': State)
    requires Ties(e, s) && tid in s.tasks && s.tasks[tid].pc.Open? && NextLog(e, s, A.Publish(tid)) == Some(s')
    ensures IntentDone(s', tid, s'.log.clock)
  {
    hide EnvOk, M.Inv, P.AfterAppend, P.Due, Protocol.OpName, TaskOk, CallTied, LineIs, Moved, Config.TableOk, IsDue;
    assert PendingOk(s, tid);
    var i := s.log.pending[tid].index;
    assert SameLine(s.log.slots[i], s.lines[Place(s, i)]);
    assert L.Wrote(s', Place(s, i), tid, Opening);
  }

  lemma HsmStepKeeps(e: Env, s: State, st: M.Step, s': State)
    requires An.AllInv(e, s) && Inv(e, s) && NextHsm(e, s, st) == Some(s') && Grows(s, s')
    ensures Inv(e, s')
  {
    hide EnvOk, M.Inv, P.AfterCall, P.Permitted, RequestFits, WasStarted, M.Next, IntentDone, CommandOk, Asks, PendingOk,
      LinesTied, SettingsOk, Config.TableOk, Grows, V.Inv, An.Inv;
    var tid := st.tid;
    CallStepKeepsCommand(e, s, st, s'.hsm);
    UseStep(e, s.hsm, st, s'.hsm);
    assert TaskOk(e, s, tid);
    if st.Enter? {
      CallerAsks(e, s, tid);
      assert s'.hsm.uses == s.hsm.uses && s.hsm.uses[..|s.hsm.uses|] == s.hsm.uses by { EnterUses(e, s.hsm, st, s'.hsm); }
      assert IntentDone(s', tid, s.log.clock) by { IntentStays(s, s', tid, s.log.clock, s.log.clock); }
      assert WasStarted(s', tid, st.cmd) by { StartedNow(s', |s.started|, tid, st.cmd); }
    }
    Keep(e, s, s');
  }

  lemma EnterUses(e: Env, s: M.Hsm, st: M.Step, s': M.Hsm)
    requires st.Enter? && M.Next(e.c, s, st) == Some(s')
    ensures s'.uses == s.uses
  {
  }

  /** What a request is about to call is one of its three commands. */
  lemma CallerAsks(e: Env, s: State, tid: Tid)
    requires An.AllInv(e, s) && tid in s.tasks && s.tasks[tid].pc.Call?
    ensures Asks(e, s.hsm.uses, tid, s.tasks[tid].req, s.tasks[tid].pc.cmd)
  {
    hide Ties, V.SealOk, V.DecryptOk, V.StartedOk, V.SealedBefore, IntegrityKey, P.IntegrityPayload, P.Fits, Base64.Decode, Replies.MainCmd,
      An.True, An.Given;
    var t := s.tasks[tid];
    MainIsSupported(t.req, t.pc.cmd);
    assert V.TaskSeals(e, s, tid) && An.PcTrue(e, s.hsm, tid, t.req, t.pc);
    if t.pc.why.Sealing? {
      var iv, ct := t.pc.why.iv, t.pc.why.ct;
      var main :| Replies.MainCmd(t.req, main) && An.Given(e, s.hsm, tid, main, Ciphertext(iv, ct));
      GivenEncrypts(e, s.hsm, tid, t.req, main, iv, ct);
      var i :| V.EncryptedAt(s.hsm.uses, i, tid, t.req.keyLabel, iv, ct);
      assert IsSeal(e, s.hsm.uses, tid, t.req, t.pc.cmd);
    }
  }

  lemma MainIsSupported(req: Protocol.Request, cmd: Cmd)
    ensures Replies.MainCmd(req, cmd) ==> Replies.Supported(req)
  {
    hide Base64.Decode;
  }

  lemma GivenEncrypts(e: Env, hsm: M.Hsm, tid: Tid, req: Protocol.Request, cmd: Cmd, iv: seq<byte>, ct: seq<byte>)
    requires Replies.MainCmd(req, cmd) && An.Given(e, hsm, tid, cmd, Ciphertext(iv, ct))
    ensures (req.EncryptRequest? || req.DeriveAndEncryptRequest?) && Replies.Supported(req)
  {
    hide Base64.Decode, IsTheKey, UsedKey;
  }

  lemma StartedNow(s: State, k: nat, t: Tid, cmd: Cmd)
    requires k < |s.started| && s.started[k].tid == t && s.started[k].cmd == cmd
    ensures WasStarted(s, t, cmd)
  {
  }

  lemma UseStep(e: Env, s: M.Hsm, st: M.Step, s': M.Hsm)
    requires M.Next(e.c, s, st) == Some(s')
    ensures forall u :: u in s'.uses ==> u in s.uses || (u.tid in s.calls && s.calls[u.tid].cmd == u.cmd)
  {
  }

  lemma NextKeepsInv(e: Env, s: State, st: Step, s': State)
    requires An.AllInv(e, s) && Inv(e, s) && Next(e, s, st) == Some(s')
    ensures Inv(e, s')
  {
    hide Inv, Ties, NextLog, NextHsm, Restarted, V.Inv, An.Inv;
    NextGrows(e, s, st, s');
    match st
    case LogStep(l) => LogStepKeeps(e, s, l, s');
    case HsmStep(h) => HsmStepKeeps(e, s, h, s');
    case Arrive(_, _, _) => ArriveKeeps(e, s, st, s');
    case Notify(_, _, _, _) => ArriveKeeps(e, s, st, s');
    case Restart(_) => RestartKeeps(e, s, st, s');
  }

  lemma ArriveKeeps(e: Env, s: State, st: Step, s': State)
    requires Inv(e, s) && (st.Arrive? || st.Notify?) && Next(e, s, st) == Some(s') && Grows(s, s')
    ensures Inv(e, s')
  {
    hide P.Begin, RequestFits, StartedOk, WasStarted, IntentDone, Grows, NoticeOk;
    if st.Arrive? {
      P.BeginShape(P.Settings(s.table, e.integrity), st.cn, Some(st.req));
    }
    Keep(e, s, s');
  }

  lemma RestartKeeps(e: Env, s: State, st: Step, s': State)
    requires Inv(e, s) && st.Restart? && Next(e, s, st) == Some(s') && Grows(s, s')
    ensures Inv(e, s')
  {
    hide StartedOk, WasStarted, IntentDone, Grows, Config.TableOk, Chain.Chained;
    Keep(e, s, s');
  }

  /** All of this together with what is proved of lines and answers. */
  ghost predicate WholeInv(e: Env, s: State) {
    An.AllInv(e, s) && Inv(e, s) && L.Kept(s)
  }

  lemma NextKeepsWhole(e: Env, s: State, st: Step, s': State)
    requires WholeInv(e, s) && Next(e, s, st) == Some(s')
    ensures WholeInv(e, s')
  {
    hide Inv, L.Kept, Next, Ties, V.Inv, An.Inv;
    An.NextKeepsAll(e, s, st, s');
    NextKeepsInv(e, s, st, s');
    L.NextKeeps(e, s, st, s');
  }

  lemma StartWhole(e: Env, table: Config.Table, base: seq<Chain.Entry>)
    requires EnvOk(e) && Config.TableOk(table, e.integrity)
    ensures WholeInv(e, Machine.Start(e, table, base))
  {
    hide Ties, EnvOk, Config.TableOk, L.Kept, An.AllInv;
    An.StartAll(e, table, base);
    L.StartKept(e, table, base);
  }

  lemma ReachedWhole(e: Env, base: seq<Chain.Entry>, s: State)
    requires EnvOk(e) && Reached(e, base, s)
    ensures WholeInv(e, s) && Ties(e, s)
  {
    hide WholeInv, Next, Reached, Ties;
    forall table | Config.TableOk(table, e.integrity) ensures WholeInv(e, Machine.Start(e, table, base)) {
      StartWhole(e, table, base);
    }
    forall r: State, st | WholeInv(e, r) && Next(e, r, st).Some? ensures WholeInv(e, Next(e, r, st).value) {
      NextKeepsWhole(e, r, st, Next(e, r, st).value);
    }
    HoldsOfReached(e, base, s, (r: State) => WholeInv(e, r));
    ReachedTies(e, base, s);
  }

  /** An HSM call made for a request: the request was permitted, the command is one of the three that
      this very request leads to, and the log shows an intent for its client, operation and key whose
      append was over before the call began. */
  ghost predicate Covered(e: Env, s: State, x: Started) {
    && x.tid in s.tasks && x.used <= |s.hsm.uses|
    && P.Permitted(s.tasks[x.tid].g, s.tasks[x.tid].cn, s.tasks[x.tid].req)
    && Asks(e, s.hsm.uses[..x.used], x.tid, s.tasks[x.tid].req, x.cmd)
    && exists i :: 0 <= i < |s.lines| && IsIntent(s, i, x)
  }

  ghost predicate IsIntent(s: State, i: nat, x: Started)
    requires i < |s.lines| && x.tid in s.tasks
  {
    var line := s.lines[i];
    && line.owner == x.tid && IsFor(line.entry, s.tasks[x.tid]) && line.entry.outcome == Chain.Intent
    && line.published.Some? && line.published.value < x.at
  }

  /** In every interleaving, restarts included, every HSM call ever started, and so every use of a key,
      is covered; and a request without a written intent has none. */
  lemma EveryCallHasIntent(e: Env, base: seq<Chain.Entry>, s: State)
    requires EnvOk(e) && Reached(e, base, s)
    ensures forall x :: x in s.started ==> Covered(e, s, x)
    ensures forall u :: u in s.hsm.uses ==> WasStarted(s, u.tid, u.cmd)
    ensures forall t :: t in s.tasks && !s.tasks[t].began ==>
      (forall x :: x in s.started ==> x.tid != t) && (forall u :: u in s.hsm.uses ==> u.tid != t)
  {
    hide Reached, L.Kept, Ties, P.Permitted, Asks, An.AllInv;
    ReachedWhole(e, base, s);
    forall x | x in s.started ensures Covered(e, s, x) && s.tasks[x.tid].began {
      IntentCovers(e, s, x);
    }
  }

  lemma IntentCovers(e: Env, s: State, x: Started)
    requires L.Kept(s) && StartedOk(e, s, x)
    ensures Covered(e, s, x) && s.tasks[x.tid].began
  {
    var i :| L.Wrote(s, i, x.tid, Opening) && s.lines[i].published.Some? && s.lines[i].published.value < x.at;
    assert L.LineOk(s, i);
    assert IsIntent(s, i, x);
  }

  // ----------------------------------------------------- A failed intent

  lemma DoneStep(e: Env, s: State, st: Step, s': State, t: Tid)
    requires t in s.tasks && s.tasks[t].pc.Done? && Next(e, s, st) == Some(s')
    ensures t in s'.tasks && s'.tasks[t] == s.tasks[t]
  {
    hide M.Next, A.Next, P.Begin, RequestFits, LinesAfter, IsDue, P.Due, Config.TableOk, NoticeOk, P.AfterAppend, P.AfterCall;
  }

  /** An answered request takes no further step. */
  lemma DoneStays(e: Env, s: State, s': State, t: Tid)
    requires t in s.tasks && s.tasks[t].pc.Done? && Leads(e, s, s')
    ensures t in s'.tasks && s'.tasks[t] == s.tasks[t]
  {
    hide Next, Leads;
    forall r: State, st | t in r.tasks && r.tasks[t] == s.tasks[t] && Next(e, r, st).Some?
      ensures t in Next(e, r, st).value.tasks && Next(e, r, st).value.tasks[t] == s.tasks[t]
    {
      DoneStep(e, r, st, Next(e, r, st).value, t);
    }
    HoldsLater(e, s, s', (r: State) => t in r.tasks && r.tasks[t] == s.tasks[t]);
  }

  lemma LaterWhole(e: Env, s: State, s': State)
    requires WholeInv(e, s) && Leads(e, s, s')
    ensures WholeInv(e, s')
  {
    hide WholeInv, Next, Leads;
    forall r: State, st | WholeInv(e, r) && Next(e, r, st).Some? ensures WholeInv(e, Next(e, r, st).value) {
      NextKeepsWhole(e, r, st, Next(e, r, st).value);
    }
    HoldsLater(e, s, s', (r: State) => WholeInv(e, r));
  }

  /** If the intent cannot be written the request is answered with an error, and whatever happens
      afterwards the HSM never hears of it. */
  lemma FailedIntentNoCall(e: Env, base: seq<Chain.Entry>, s: State, tid: Tid, s': State, s'': State)
    requires EnvOk(e) && Reached(e, base, s)
    requires tid in s.tasks && s.tasks[tid].pc.Open?
    requires Next(e, s, LogStep(A.Fail(tid))) == Some(s') && Leads(e, s', s'')
    ensures tid in s''.tasks && s''.tasks[tid].pc.Done? && s''.tasks[tid].pc.resp.Error?
    ensures forall x :: x in s''.started ==> x.tid != tid
    ensures forall u :: u in s''.hsm.uses ==> u.tid != tid
  {
    hide Next, Leads, Reached, WholeInv, Ties;
    ReachedWhole(e, base, s);
    NextKeepsWhole(e, s, LogStep(A.Fail(tid)), s');
    FailedIntent(e, s, tid, s');
    LaterWhole(e, s', s'');
    DoneStays(e, s', s'', tid);
    NoIntentNoCall(e, s'', tid);
  }

  lemma FailedIntent(e: Env, s: State, tid: Tid, s': State)
    requires Ties(e, s) && tid in s.tasks && s.tasks[tid].pc.Open? && Next(e, s, LogStep(A.Fail(tid))) == Some(s')
    ensures tid in s'.tasks && s'.tasks[tid].pc.Done? && s'.tasks[tid].pc.resp.Error? && !s'.tasks[tid].began
  {
    hide EnvOk, M.Inv, P.Permitted, RequestFits, LinesTied, SettingsOk, Config.TableOk, CallTied, Protocol.OpName;
    assert TaskOk(e, s, tid);
  }

  lemma NoIntentNoCall(e: Env, s: State, t: Tid)
    requires WholeInv(e, s) && t in s.tasks && !s.tasks[t].began
    ensures forall x :: x in s.started ==> x.tid != t
    ensures forall u :: u in s.hsm.uses ==> u.tid != t
  {
    hide L.Kept, P.Permitted, Asks, An.AllInv;
    forall x | x in s.started ensures x.tid != t {
      IntentCovers(e, s, x);
    }
  }
}
