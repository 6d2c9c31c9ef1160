/** Which ciphertexts reach the HSM's decrypt: only those that the gateway itself encrypted and
    sealed before, under the same label, in every interleaving of any requests and across restarts. */
module Provenance {
  import opened Wrappers
  import opened Bytes
  import opened Machine
  import opened Token
  import P = Pipeline
  import Chain
  import Config
  import Base64
  import A = Appends
  import M = HsmMachine
  import Replies

  // ---------------------------------------------------------- Statement

  /** Use `i` encrypted under this label and answered with this IV and ciphertext. */
  predicate EncryptedAt(uses: seq<M.Use>, i: int, t: Tid, name: string, iv: seq<byte>, ct: seq<byte>) {
    && 0 <= i < |uses| && uses[i].tid == t
    && uses[i].cmd.Encrypts() && uses[i].cmd.keyLabel == name && uses[i].ans == Ciphertext(iv, ct)
  }

  /** Use `k` signed label, IV and ciphertext with the gateway's own key. */
  predicate SignedAt(e: Env, uses: seq<M.Use>, k: int, t: Tid, name: string, iv: seq<byte>, ct: seq<byte>) {
    && 0 <= k < |uses| && uses[k].tid == t
    && uses[k].cmd == SignCmd(e.integrity, P.IntegrityPayload(name, iv, ct)) && uses[k].ans.Signature?
  }

  /** One request encrypted and then sealed this ciphertext within the first `n` uses. */
  ghost predicate SealedBefore(e: Env, uses: seq<M.Use>, n: nat, name: string, iv: seq<byte>, ct: seq<byte>) {
    exists t, i, k :: i < k < n && EncryptedAt(uses, i, t, name, iv, ct) && SignedAt(e, uses, k, t, name, iv, ct)
  }

  // ---------------------------------------------------------- Invariant

  /** Whatever this is, the gateway's key signed it as the seal of a ciphertext of its own. */
  ghost predicate SealOk(e: Env, uses: seq<M.Use>, data: seq<byte>) {
    exists name, iv, ct ::
      P.Fits(name, iv, ct) && data == P.IntegrityPayload(name, iv, ct) && SealedBefore(e, uses, |uses|, name, iv, ct)
  }

  ghost predicate TaskSeals(e: Env, s: State, tid: Tid)
    requires tid in s.tasks && s.tasks[tid].pc.Call?
  {
    var t := s.tasks[tid];
    match t.pc.why
    case Sealing(iv, ct) =>
      && P.Fits(t.req.keyLabel, iv, ct)
      && t.pc.cmd == SignCmd(e.integrity, P.IntegrityPayload(t.req.keyLabel, iv, ct))
      && exists i :: EncryptedAt(s.hsm.uses, i, tid, t.req.keyLabel, iv, ct)
    case Checking => Replies.IsCheck(e.integrity, t.req, t.pc.cmd)
    case Main => t.pc.cmd.Decrypts() ==>
      SealedBefore(e, s.hsm.uses, |s.hsm.uses|, t.req.keyLabel, t.pc.cmd.iv, t.pc.cmd.ct)
  }

  ghost predicate Inv(e: Env, s: State) {
    && (forall x :: x in s.hsm.signed && IntegrityKey(e, x.0) ==> SealOk(e, s.hsm.uses, x.1))
    && (forall t :: t in s.tasks && s.tasks[t].pc.Call? ==> TaskSeals(e, s, t))
    && (forall j :: 0 <= j < |s.hsm.uses| && s.hsm.uses[j].cmd.Decrypts() ==> DecryptOk(e, s.hsm.uses, j))
    && (forall x :: x in s.started && x.cmd.Decrypts() ==> StartedOk(e, s.hsm.uses, x))
  }

  /** What this command was to decrypt had been sealed before it was started. */
  ghost predicate StartedOk(e: Env, uses: seq<M.Use>, x: Started)
    requires x.cmd.Decrypts()
  {
    SealedBefore(e, uses, x.used, x.cmd.keyLabel, x.cmd.iv, x.cmd.ct)
  }

  /** What use `j` decrypted had been sealed before. */
  ghost predicate DecryptOk(e: Env, uses: seq<M.Use>, j: nat)
    requires j < |uses| && uses[j].cmd.Decrypts()
  {
    SealedBefore(e, uses, j, uses[j].cmd.keyLabel, uses[j].cmd.iv, uses[j].cmd.ct)
  }

  // --------------------------------------------------------- Monotonicity

  lemma SealedStays(e: Env, uses: seq<M.Use>, more: seq<M.Use>, n: nat, m: nat, name: string, iv: seq<byte>, ct: seq<byte>)
    requires SealedBefore(e, uses, n, name, iv, ct) && uses <= more && n <= m
    ensures SealedBefore(e, more, m, name, iv, ct)
  {
    hide P.IntegrityPayload;
    var t, i, k :| i < k < n && EncryptedAt(uses, i, t, name, iv, ct) && SignedAt(e, uses, k, t, name, iv, ct);
    assert EncryptedAt(more, i, t, name, iv, ct) && SignedAt(e, more, k, t, name, iv, ct);
  }

  lemma SealOkStays(e: Env, uses: seq<M.Use>, more: seq<M.Use>, data: seq<byte>)
    requires SealOk(e, uses, data) && uses <= more
    ensures SealOk(e, more, data)
  {
    hide P.IntegrityPayload, SealedBefore, P.Fits;
    var name, iv, ct :| P.Fits(name, iv, ct) && data == P.IntegrityPayload(name, iv, ct)
                        && SealedBefore(e, uses, |uses|, name, iv, ct);
    SealedStays(e, uses, more, |uses|, |more|, name, iv, ct);
  }

  lemma TaskStays(e: Env, s: State, s': State, tid: Tid)
    requires tid in s.tasks && s.tasks[tid].pc.Call? && TaskSeals(e, s, tid)
    requires tid in s'.tasks && s'.tasks[tid].pc == s.tasks[tid].pc && s'.tasks[tid].req == s.tasks[tid].req
    requires s.hsm.uses <= s'.hsm.uses
    ensures TaskSeals(e, s', tid)
  {
    hide P.IntegrityPayload, SealedBefore, P.Fits;
    var t := s.tasks[tid];
    match t.pc.why
    case Checking =>
    case Sealing(iv, ct) =>
      var i :| EncryptedAt(s.hsm.uses, i, tid, t.req.keyLabel, iv, ct);
      assert EncryptedAt(s'.hsm.uses, i, tid, t.req.keyLabel, iv, ct);
    case Main =>
      if t.pc.cmd.Decrypts() {
        SealedStays(e, s.hsm.uses, s'.hsm.uses, |s.hsm.uses|, |s'.hsm.uses|, t.req.keyLabel, t.pc.cmd.iv, t.pc.cmd.ct);
      }
  }

  lemma DecryptStays(e: Env, uses: seq<M.Use>, more: seq<M.Use>, j: nat)
    requires j < |uses| && uses[j].cmd.Decrypts() && DecryptOk(e, uses, j) && uses <= more
    ensures DecryptOk(e, more, j)
  {
    SealedStays(e, uses, more, j, j, uses[j].cmd.keyLabel, uses[j].cmd.iv, uses[j].cmd.ct);
  }

  /** Only the request that moved, the newest use, signature and command need a look. */
  lemma Keep(e: Env, s: State, s': State, tid: Tid)
    requires Inv(e, s) && s.hsm.uses <= s'.hsm.uses
    requires forall t :: t in s'.tasks && t != tid ==> t in s.tasks && SameCourse(s.tasks[t], s'.tasks[t])
    requires tid in s'.tasks && s'.tasks[tid].pc.Call? ==>
      TaskSeals(e, s', tid) || (tid in s.tasks && SameCourse(s.tasks[tid], s'.tasks[tid]))
    requires forall x :: x in s'.hsm.signed && IntegrityKey(e, x.0) ==> x in s.hsm.signed || SealOk(e, s'.hsm.uses, x.1)
    requires forall j :: |s.hsm.uses| <= j < |s'.hsm.uses| && s'.hsm.uses[j].cmd.Decrypts() ==> DecryptOk(e, s'.hsm.uses, j)
    requires forall x :: x in s'.started && x.cmd.Decrypts() ==> x in s.started || StartedOk(e, s'.hsm.uses, x)
    ensures Inv(e, s')
  {
    hide IntegrityKey, SealOk, TaskSeals, DecryptOk, SealedBefore;
    forall x | x in s'.hsm.signed && IntegrityKey(e, x.0) ensures SealOk(e, s'.hsm.uses, x.1) {
      if x in s.hsm.signed { SealOkStays(e, s.hsm.uses, s'.hsm.uses, x.1); }
    }
    forall t | t in s'.tasks && s'.tasks[t].pc.Call? ensures TaskSeals(e, s', t) {
      if t in s.tasks && SameCourse(s.tasks[t], s'.tasks[t]) { TaskStays(e, s, s', t); }
    }
    forall j | 0 <= j < |s'.hsm.uses| && s'.hsm.uses[j].cmd.Decrypts() ensures DecryptOk(e, s'.hsm.uses, j) {
      if j < |s.hsm.uses| { DecryptStays(e, s.hsm.uses, s'.hsm.uses, j); }
    }
    forall x | x in s'.started && x.cmd.Decrypts() ensures StartedOk(e, s'.hsm.uses, x) {
      if x in s.started {
        SealedStays(e, s.hsm.uses, s'.hsm.uses, x.used, x.used, x.cmd.keyLabel, x.cmd.iv, x.cmd.ct);
      }
    }
  }

  predicate SameCourse(t: Task, t': Task) {
    t'.pc == t.pc && t'.req == t.req
  }

  // --------------------------------------------------------- Using a key

  /** Nobody but the gateway, sealing, signs with the gateway's key: clients are never granted its
      label, and no key of another label is the same key. */
  lemma OnlySealsAreSigned(e: Env, s: State, t: Tid, key: seq<byte>, h: Handle)
    requires Ties(e, s) && t in s.hsm.calls && s.hsm.calls[t].cmd.SignCmd?
    requires h in e.token && IsTheKey(e.token, PrivateKey, s.hsm.calls[t].cmd.keyLabel, h)
    requires IntegrityKey(e, e.token[h].key)
    ensures t in s.tasks && s.tasks[t].pc.Call? && s.tasks[t].pc.why.Sealing? && s.tasks[t].pc.cmd == s.hsm.calls[t].cmd
  {
    hide M.Inv, RequestFits, P.Permitted, Config.TableOk, LinesTied, PendingOk, IntegrityKey;
    var cmd := s.hsm.calls[t].cmd;
    assert CallTied(s, t) && TaskOk(e, s, t);
    assert h in Matches(e.token, PrivateKey, cmd.keyLabel);
    GrantedLabel(e, s.tasks[t].g, s.tasks[t].cn, s.tasks[t].req);
  }

  lemma SealNow(e: Env, s: State, t: Tid, ans: Answer, uses: seq<M.Use>)
    requires t in s.tasks && s.tasks[t].pc.Call? && s.tasks[t].pc.why.Sealing? && TaskSeals(e, s, t)
    requires uses == s.hsm.uses + [M.Use(t, s.tasks[t].pc.cmd, ans)] && ans.Signature?
    ensures SealOk(e, uses, s.tasks[t].pc.cmd.data)
  {
    hide P.IntegrityPayload, P.Fits;
    var task := s.tasks[t];
    var iv, ct, name := task.pc.why.iv, task.pc.why.ct, task.req.keyLabel;
    var i :| EncryptedAt(s.hsm.uses, i, t, name, iv, ct);
    assert EncryptedAt(uses, i, t, name, iv, ct);
    assert SignedAt(e, uses, |s.hsm.uses|, t, name, iv, ct);
    assert SealedBefore(e, uses, |uses|, name, iv, ct);
  }

  lemma UseKeeps(e: Env, s: State, st: M.Step, s': State)
    requires Ties(e, s) && Inv(e, s) && st.UseKey? && NextHsm(e, s, st) == Some(s')
    ensures Inv(e, s')
  {
    hide M.Inv, M.Next, EnvOk, TaskSeals, SealOk, DecryptOk, IntegrityKey, TaskOk, PendingOk, AnswersWith, StartedOk, LinesTied, Config.TableOk;
    var t := st.tid;
    assert CallTied(s, t) by { CallStepKeepsCommand(e, s, st, s'.hsm); }
    M.UseIsAtomic(e.c, e.token, s.hsm, st, s'.hsm);
    var cmd := s.hsm.calls[t].cmd;
    var ans :| Token.Answers(e.c, e.token, s.hsm.signed, cmd, ans, s'.hsm.signed)
               && s'.hsm.uses == s.hsm.uses + [M.Use(t, cmd, ans)];
    forall x | x in s'.hsm.signed && IntegrityKey(e, x.0) ensures x in s.hsm.signed || SealOk(e, s'.hsm.uses, x.1) {
      if x !in s.hsm.signed {
        NewSignature(e, s, t, cmd, ans, s'.hsm.signed, x);
        SealNow(e, s, t, ans, s'.hsm.uses);
      }
    }
    if cmd.Decrypts() {
      DecryptNow(e, s, t, ans, s'.hsm.uses);
    }
    Keep(e, s, s', t);
  }

  lemma NewSignature(e: Env, s: State, t: Tid, cmd: Cmd, ans: Answer, now: Signed, x: (seq<byte>, seq<byte>, seq<byte>))
    requires Ties(e, s) && t in s.hsm.calls && s.hsm.calls[t].cmd == cmd
    requires Token.Answers(e.c, e.token, s.hsm.signed, cmd, ans, now)
    requires x in now && x !in s.hsm.signed && IntegrityKey(e, x.0)
    ensures cmd.SignCmd? && ans.Signature? && x.1 == cmd.data
    ensures t in s.tasks && s.tasks[t].pc.Call? && s.tasks[t].pc.why.Sealing? && s.tasks[t].pc.cmd == cmd
  {
    hide Ties, IntegrityKey;
    var h :| IsTheKey(e.token, KindFor(cmd), cmd.keyLabel, h) && h in e.token
             && AnswersWith(e.c, UsedKey(e.c, e.token[h].key, cmd), s.hsm.signed, cmd, ans, now);
    OnlySealsAreSigned(e, s, t, x.0, h);
  }

  lemma DecryptNow(e: Env, s: State, t: Tid, ans: Answer, uses: seq<M.Use>)
    requires Ties(e, s) && Inv(e, s) && t in s.hsm.calls && s.hsm.calls[t].cmd.Decrypts()
    requires uses == s.hsm.uses + [M.Use(t, s.hsm.calls[t].cmd, ans)]
    ensures DecryptOk(e, uses, |s.hsm.uses|)
  {
    hide M.Inv, EnvOk, SealOk, DecryptOk, IntegrityKey, RequestFits, P.Permitted, SealedBefore, StartedOk, LinesTied, Config.TableOk,
      PendingOk, SettingsOk;
    var cmd := s.hsm.calls[t].cmd;
    assert CallTied(s, t) && TaskOk(e, s, t) && TaskSeals(e, s, t);
    SealedStays(e, s.hsm.uses, uses, |s.hsm.uses|, |s.hsm.uses|, cmd.keyLabel, cmd.iv, cmd.ct);
    assert DecryptOk(e, uses, |s.hsm.uses|) by { SealedIsOk(e, uses, |s.hsm.uses|); }
  }

  lemma SealedIsOk(e: Env, uses: seq<M.Use>, j: nat)
    requires j < |uses| && uses[j].cmd.Decrypts()
    requires SealedBefore(e, uses, j, uses[j].cmd.keyLabel, uses[j].cmd.iv, uses[j].cmd.ct)
    ensures DecryptOk(e, uses, j)
  {
  }

  // ------------------------------------------------------- Moving on

  /** A valid verdict on the gateway's key means the data was sealed. */
  lemma ValidMeansSealed(e: Env, s: State, t: Tid, cmd: Cmd)
    requires Ties(e, s) && Inv(e, s) && t in s.hsm.calls && s.hsm.calls[t] == M.Answered(cmd, Verdict(true))
    requires cmd.VerifyCmd? && cmd.keyLabel == e.integrity
    ensures SealOk(e, s.hsm.uses, cmd.data)
  {
    hide TaskSeals, DecryptOk, SealOk, TaskOk, PendingOk, CallTied, EnvOk, UsedKey, M.StoreOk, StartedOk, LinesTied, Config.TableOk;
    assert M.CallOk(e.c, e.token, s.hsm, t);
    var h :| h in e.token && IsTheKey(e.token, KindFor(cmd), cmd.keyLabel, h)
             && M.LastingWith(e.c, UsedKey(e.c, e.token[h].key, cmd), s.hsm.signed, cmd, Verdict(true));
    var key := UsedKey(e.c, e.token[h].key, cmd);
    assert (key, cmd.data, cmd.sig) in s.hsm.signed;
    assert key == e.token[h].key by { NotDerived(e.c, e.token[h].key, cmd); }
    assert h in Matches(e.token, PublicKey, e.integrity);
    assert IntegrityKey(e, key);
    assert (key, cmd.data, cmd.sig).0 == key;
  }

  lemma NotDerived(c: Crypto, key: seq<byte>, cmd: Cmd)
    requires !cmd.Derives()
    ensures UsedKey(c, key, cmd) == key
  {
  }

  /** The seal names one label, IV and ciphertext. */
  lemma SealNames(e: Env, uses: seq<M.Use>, name: string, iv: seq<byte>, ct: seq<byte>)
    requires P.Fits(name, iv, ct) && SealOk(e, uses, P.IntegrityPayload(name, iv, ct))
    ensures SealedBefore(e, uses, |uses|, name, iv, ct)
  {
    hide P.IntegrityPayload, P.Fits, SealedBefore;
    var name2, iv2, ct2 :| P.Fits(name2, iv2, ct2) && P.IntegrityPayload(name, iv, ct) == P.IntegrityPayload(name2, iv2, ct2)
                           && SealedBefore(e, uses, |uses|, name2, iv2, ct2);
    P.PayloadInjective(name, iv, ct, name2, iv2, ct2);
  }

  /** A check that passed lets exactly the checked ciphertext through to the decrypt. */
  lemma CheckedMovesOn(e: Env, s: State, tid: Tid)
    requires Ties(e, s) && Inv(e, s) && tid in s.tasks && s.tasks[tid].pc.Call? && s.tasks[tid].pc.why.Checking?
    requires tid in s.hsm.calls && s.hsm.calls[tid] == M.Answered(s.tasks[tid].pc.cmd, Verdict(true))
    requires RequestFits(s.tasks[tid].req)
    ensures var pc := P.DecryptCall(s.tasks[tid].req, P.PeerOf(s.tasks[tid].req));
      && pc.Call? && pc.why.Main? && pc.cmd.Decrypts()
      && SealedBefore(e, s.hsm.uses, |s.hsm.uses|, s.tasks[tid].req.keyLabel, pc.cmd.iv, pc.cmd.ct)
  {
    hide P.IntegrityPayload, SealedBefore, SealOk, DecryptOk, IntegrityKey, Ties, Base64.Decode, Utf8, StartedOk;
    var req := s.tasks[tid].req;
    assert TaskSeals(e, s, tid);
    var ct, iv := Base64.Decode(req.dataB64).value, Base64.Decode(req.ivB64).value;
    ValidMeansSealed(e, s, tid, s.tasks[tid].pc.cmd);
    SealNames(e, s.hsm.uses, req.keyLabel, iv, ct);
  }

  /** A fresh ciphertext moves on to being sealed. */
  lemma EncryptedMovesOn(e: Env, s: State, tid: Tid, iv: seq<byte>, ct: seq<byte>)
    requires Ties(e, s) && tid in s.tasks && !s.tasks[tid].cut && s.tasks[tid].pc.Call? && s.tasks[tid].pc.why.Main?
    requires tid in s.hsm.calls && s.hsm.calls[tid] == M.Answered(s.tasks[tid].pc.cmd, Ciphertext(iv, ct))
    ensures P.Fits(s.tasks[tid].req.keyLabel, iv, ct) && s.tasks[tid].pc.cmd.keyLabel == s.tasks[tid].req.keyLabel
    ensures exists i :: EncryptedAt(s.hsm.uses, i, tid, s.tasks[tid].req.keyLabel, iv, ct)
  {
    hide EnvOk, M.StoreOk, P.Permitted, UsedKey, IsTheKey, PendingOk, CallTied, Utf8, LinesTied, Config.TableOk;
    var cmd := s.tasks[tid].pc.cmd;
    assert TaskOk(e, s, tid) && M.CallOk(e.c, e.token, s.hsm, tid);
    var h :| h in e.token && IsTheKey(e.token, KindFor(cmd), cmd.keyLabel, h)
             && M.LastingWith(e.c, UsedKey(e.c, e.token[h].key, cmd), s.hsm.signed, cmd, Ciphertext(iv, ct));
    var i :| 0 <= i < |s.hsm.uses| && s.hsm.uses[i] == M.Use(tid, cmd, Ciphertext(iv, ct));
    assert EncryptedAt(s.hsm.uses, i, tid, s.tasks[tid].req.keyLabel, iv, ct);
  }

  /** Where an answered call leads, the next call is again in order. */
  lemma ResumedSeals(e: Env, s: State, tid: Tid, s': State)
    requires Ties(e, s) && Inv(e, s) && NextHsm(e, s, M.Finish(tid)) == Some(s')
    ensures tid in s'.tasks && (s'.tasks[tid].pc.Call? ==> TaskSeals(e, s', tid))
  {
    hide M.Inv, EnvOk, SealOk, DecryptOk, IntegrityKey, PendingOk, P.IntegrityPayload, P.Permitted, SealedBefore, RequestFits,
      P.Fits, P.DecryptCall, StartedOk, LinesTied, Config.TableOk;
    var t := s.tasks[tid];
    assert TaskOk(e, s, tid) && CallTied(s, tid) && TaskSeals(e, s, tid);
    var ans := s.hsm.calls[tid].ans;
    if t.pc.why.Checking? && ans == Verdict(true) {
      CheckedMovesOn(e, s, tid);
    }
    if t.pc.why.Main? && ans.Ciphertext? {
      EncryptedMovesOn(e, s, tid, ans.iv, ans.ct);
    }
  }

  lemma FinishKeeps(e: Env, s: State, tid: Tid, s': State)
    requires Ties(e, s) && Inv(e, s) && NextHsm(e, s, M.Finish(tid)) == Some(s')
    ensures Inv(e, s')
  {
    hide Ties, SealOk, DecryptOk, IntegrityKey, TaskSeals, StartedOk, P.AfterCall;
    ResumedSeals(e, s, tid, s');
    Keep(e, s, s', tid);
  }

  /** Where execution starts nothing is decrypted yet, and a check is about the request itself. */
  lemma StartSeals(e: Env, s: State, tid: Tid, g: P.Settings)
    requires g.integrity == e.integrity
    requires tid in s.tasks && s.tasks[tid].pc == P.Start(g, s.tasks[tid].req, P.PeerOf(s.tasks[tid].req))
    ensures s.tasks[tid].pc.Call? ==> TaskSeals(e, s, tid)
  {
    hide P.IntegrityPayload, Base64.Decode, SealedBefore;
  }

  lemma LogStepKeeps(e: Env, s: State, st: A.Step, s': State)
    requires Ties(e, s) && Inv(e, s) && NextLog(e, s, st) == Some(s')
    ensures Inv(e, s')
  {
    hide SealOk, DecryptOk, IntegrityKey, TaskSeals, StartedOk, NextLog, Ties;
    LogStepFrame(e, s, st, s');
    if st.tid in s.tasks {
      LoggerSeals(e, s, st, s');
    }
    Keep(e, s, s', st.tid);
  }

  lemma LoggerSeals(e: Env, s: State, st: A.Step, s': State)
    requires Ties(e, s) && st.tid in s.tasks && st.tid in s'.tasks && NextLog(e, s, st) == Some(s')
    ensures SameCourse(s.tasks[st.tid], s'.tasks[st.tid]) || (s'.tasks[st.tid].pc.Call? ==> TaskSeals(e, s', st.tid))
  {
    hide TaskSeals, P.Start, A.Next, IsDue, LinesAfter, M.Inv, EnvOk, LinesTied, Config.TableOk, PendingOk, CallTied,
      P.Permitted, RequestFits, P.Due, Course;
    assert TaskOk(e, s, st.tid);
    var t' := s'.tasks[st.tid];
    if t'.pc == P.Start(t'.g, t'.req, P.PeerOf(t'.req)) {
      StartSeals(e, s', st.tid, t'.g);
    }
  }

  lemma EnterKeeps(e: Env, s: State, st: M.Step, s': State)
    requires Ties(e, s) && Inv(e, s) && st.Enter? && NextHsm(e, s, st) == Some(s')
    ensures Inv(e, s')
  {
    hide Ties, TaskSeals, StartedOk, SealOk, DecryptOk, IntegrityKey, SealedBefore, M.Next;
    var x := Started(st.tid, st.cmd, s.log.clock, |s.hsm.uses|);
    assert s'.started == s.started + [x];
    if x.cmd.Decrypts() {
      EnteredSealed(e, s, st.tid, x);
    }
    EnterUses(e, s, st, s'.hsm);
    Keep(e, s, s', st.tid);
  }

  lemma EnteredSealed(e: Env, s: State, tid: Tid, x: Started)
    requires Ties(e, s) && Inv(e, s) && TaskCalls(s, tid)
    requires x.cmd == s.tasks[tid].pc.cmd && x.used == |s.hsm.uses| && x.cmd.Decrypts()
    ensures StartedOk(e, s.hsm.uses, x)
  {
    hide Inv, SealedBefore, M.Inv, EnvOk, LinesTied, Config.TableOk, PendingOk, CallTied, P.Permitted, RequestFits, SettingsOk;
    assert TaskSeals(e, s, tid) by { SealsOf(e, s, tid); }
    assert TaskOk(e, s, tid);
  }

  lemma SealsOf(e: Env, s: State, tid: Tid)
    requires Inv(e, s) && tid in s.tasks && s.tasks[tid].pc.Call?
    ensures TaskSeals(e, s, tid)
  {
    hide TaskSeals, SealOk, DecryptOk, IntegrityKey, StartedOk;
  }

  lemma EnterUses(e: Env, s: State, st: M.Step, hsm: M.Hsm)
    requires st.Enter? && M.Next(e.c, s.hsm, st) == Some(hsm)
    ensures hsm.uses == s.hsm.uses && hsm.signed == s.hsm.signed
  {
  }

  lemma OtherHsmKeeps(e: Env, s: State, st: M.Step, s': State)
    requires Inv(e, s) && !st.UseKey? && !st.Finish? && !st.Enter? && NextHsm(e, s, st) == Some(s')
    ensures Inv(e, s')
  {
    hide SealOk, DecryptOk, IntegrityKey, TaskSeals, StartedOk;
    Keep(e, s, s', st.tid);
  }

  lemma ArriveKeeps(e: Env, s: State, st: Step, s': State)
    requires Inv(e, s) && (st.Arrive? || st.Notify?) && Next(e, s, st) == Some(s')
    ensures Inv(e, s')
  {
    hide SealOk, DecryptOk, IntegrityKey, TaskSeals, P.Begin, RequestFits, StartedOk, NoticeOk;
    if st.Arrive? {
      P.BeginShape(P.Settings(s.table, e.integrity), st.cn, Some(st.req));
    }
    Keep(e, s, s', st.tid);
  }

  lemma RestartKeeps(e: Env, s: State, st: Step, s': State)
    requires Inv(e, s) && st.Restart? && Next(e, s, st) == Some(s')
    ensures Inv(e, s')
  {
    hide SealOk, DecryptOk, IntegrityKey, TaskSeals, StartedOk, Config.TableOk, Chain.Chained;
    Keep(e, s, s', 0);
  }

  lemma NextKeepsInv(e: Env, s: State, st: Step, s': State)
    requires Ties(e, s) && Inv(e, s) && Next(e, s, st) == Some(s')
    ensures Inv(e, s')
  {
    hide Inv, Ties, NextLog, NextHsm, Restarted;
    match st
    case Arrive(_, _, _) => ArriveKeeps(e, s, st, s');
    case Notify(_, _, _, _) => ArriveKeeps(e, s, st, s');
    case Restart(_) => RestartKeeps(e, s, st, s');
    case LogStep(l) => LogStepKeeps(e, s, l, s');
    case HsmStep(h) =>
      match h
      case UseKey(_, _) => UseKeeps(e, s, h, s');
      case Finish(tid) => FinishKeeps(e, s, tid, s');
      case Enter(_, _) => EnterKeeps(e, s, h, s');
      case _ => OtherHsmKeeps(e, s, h, s');
  }

  lemma StartInv(e: Env, table: Config.Table, base: seq<Chain.Entry>)
    requires EnvOk(e)
    ensures Inv(e, Machine.Start(e, table, base))
  {
  }

  lemma ReachedInv(e: Env, base: seq<Chain.Entry>, s: State)
    requires EnvOk(e) && Reached(e, base, s)
    ensures Ties(e, s) && Inv(e, s)
  {
    hide Inv, Ties, Next, Reached;
    forall table | Config.TableOk(table, e.integrity) ensures Ties(e, Machine.Start(e, table, base)) && Inv(e, Machine.Start(e, table, base)) {
      StartTies(e, table, base);
      StartInv(e, table, base);
    }
    forall r: State, st | Ties(e, r) && Inv(e, r) && Next(e, r, st).Some?
      ensures Ties(e, Next(e, r, st).value) && Inv(e, Next(e, r, st).value)
    {
      NextKeepsTies(e, r, st, Next(e, r, st).value);
      NextKeepsInv(e, r, st, Next(e, r, st).value);
    }
    HoldsOfReached(e, base, s, (r: State) => Ties(e, r) && Inv(e, r));
  }

  /** In every interleaving of any clients' requests, over any number of restarts: what the HSM is
      asked to decrypt, whether the call then succeeds or fails, had been encrypted before, under the
      same label, by a request that then sealed it with the gateway's key. */
  lemma OnlySealedIsDecrypted(e: Env, base: seq<Chain.Entry>, s: State, x: Started)
    requires EnvOk(e) && Reached(e, base, s)
    requires x in s.started && x.cmd.Decrypts()
    ensures SealedBefore(e, s.hsm.uses, x.used, x.cmd.keyLabel, x.cmd.iv, x.cmd.ct)
  {
    hide Ties, SealedBefore, EnvOk, Reached;
    ReachedInv(e, base, s);
    assert StartedOk(e, s.hsm.uses, x);
  }

  /** And so of every decrypt that the device carried out: it was sealed before. */
  lemma OnlySealedIsUsed(e: Env, base: seq<Chain.Entry>, s: State, j: nat)
    requires EnvOk(e) && Reached(e, base, s)
    requires j < |s.hsm.uses| && s.hsm.uses[j].cmd.Decrypts()
    ensures DecryptOk(e, s.hsm.uses, j)
  {
    hide Ties, SealedBefore, EnvOk, Reached;
    ReachedInv(e, base, s);
  }
}
