/** What a request that is left alone gets: runs of the gateway that lead to an answer, through
    restarts, and the run that shows what an integrity signature does not cover. */
module Served {
  import opened Wrappers
  import opened Bytes
  import opened Protocol
  import opened Machine
  import opened Token
  import opened Answering
  import P = Pipeline
  import Chain
  import Config
  import Base64
  import A = Appends
  import M = HsmMachine
  import R = RoundTrip
  import L = Ledger
  import Replies

  /** Some steps lead from `s` to `s'` within one process. */
  ghost predicate Quietly(e: Env, s: State, s': State) {
    exists steps :: NoRestart(steps) && Run(e, s, steps) == Some(s')
  }

  ghost predicate NoRestart(steps: seq<Step>) {
    forall st :: st in steps ==> !st.Restart?
  }

  lemma {:induction false} RunConcat(e: Env, s: State, a: seq<Step>, s': State, b: seq<Step>, s'': State)
    requires Run(e, s, a) == Some(s') && Run(e, s', b) == Some(s'')
    ensures Run(e, s, a + b) == Some(s'')
    decreases |a|
  {
    hide Next;
    if a == [] {
      assert a + b == b;
    } else {
      assert (a + b)[1..] == a[1..] + b;
      RunConcat(e, Next(e, s, a[0]).value, a[1..], s', b, s'');
    }
  }

  lemma RunOne(e: Env, s: State, st: Step, s': State)
    requires Next(e, s, st) == Some(s')
    ensures Run(e, s, [st]) == Some(s')
  {
    hide Next;
    assert Run(e, s', []) == Some(s');
    assert [st][1..] == [];
  }

  lemma QuietOne(e: Env, s: State, st: Step, s': State)
    requires Next(e, s, st) == Some(s') && !st.Restart?
    ensures Quietly(e, s, s')
  {
    hide Next, Run;
    RunOne(e, s, st, s');
    assert NoRestart([st]);
  }

  lemma QuietOn(e: Env, s: State, s': State, s'': State)
    requires Quietly(e, s, s') && Quietly(e, s', s'')
    ensures Quietly(e, s, s'')
  {
    hide Run;
    var a :| NoRestart(a) && Run(e, s, a) == Some(s');
    var b :| NoRestart(b) && Run(e, s', b) == Some(s'');
    RunConcat(e, s, a, s', b, s'');
    assert NoRestart(a + b);
  }

  lemma QuietLeads(e: Env, s: State, s': State)
    requires Quietly(e, s, s')
    ensures Leads(e, s, s')
  {
    hide Run;
  }

  lemma LeadsReached(e: Env, base: seq<Chain.Entry>, s: State, s': State)
    requires Reached(e, base, s) && Leads(e, s, s')
    ensures Reached(e, base, s')
  {
    hide Run, Config.TableOk;
    var table, a :| Config.TableOk(table, e.integrity) && Run(e, Machine.Start(e, table, base), a) == Some(s);
    var b :| Run(e, s, b) == Some(s');
    RunConcat(e, Machine.Start(e, table, base), a, s, b, s');
  }

  lemma FirstReached(e: Env, table: Config.Table, base: seq<Chain.Entry>)
    requires Config.TableOk(table, e.integrity)
    ensures Reached(e, base, Machine.Start(e, table, base))
  {
    hide Config.TableOk;
    assert Run(e, Machine.Start(e, table, base), []) == Some(Machine.Start(e, table, base));
  }

  // ---------------------------------------------------- An append, alone

  /** Everything but the log and one request is as it was. */
  predicate OnlyTask(s: State, s': State, tid: Tid, t: Task) {
    && s'.tasks == s.tasks[tid := t] && s'.notices == s.notices && s'.table == s.table
    && s'.log.pending == s.log.pending && s'.hsm.calls == s.hsm.calls
  }

  /** The log is idle, and one append after the other has kept its chain. */
  ghost predicate Calm(e: Env, s: State) {
    A.LockedInv(e.sha, s.log) && s.log.pending == map[]
  }

  lemma StartCalm(e: Env, table: Config.Table, base: seq<Chain.Entry>)
    requires Chain.Chained(e.sha, base)
    ensures Calm(e, Machine.Start(e, table, base))
  {
    A.OpenedLocked(e.sha, base);
  }

  lemma ReadAlone(e: Env, s: State, tid: Tid, ts: string) returns (s': State)
    requires Ties(e, s) && TaskLogs(s, tid) && tid !in s.log.pending
    ensures Next(e, s, LogStep(A.Read(tid, DueBody(s.tasks[tid], ts)))) == Some(s')
    ensures s' == s.(log := s'.log) && tid in s'.log.pending && s'.log.pending[tid].HasRead?
    ensures s'.log.pending - {tid} == s.log.pending
    ensures Calm(e, s) ==> A.LockedInv(e.sha, s'.log)
  {
    hide P.Due, OpName, A.LockedInv, Ties;
    s' := NextLog(e, s, A.Read(tid, DueBody(s.tasks[tid], ts))).value;
    if Calm(e, s) {
      A.LockedNext(e.sha, s.log, A.Read(tid, DueBody(s.tasks[tid], ts)), s'.log);
    }
  }

  lemma WriteAlone(e: Env, s: State, tid: Tid) returns (s': State)
    requires TaskLogs(s, tid) && tid in s.log.pending && s.log.pending[tid].HasRead?
    ensures Next(e, s, LogStep(A.Write(tid))) == Some(s')
    ensures s'.tasks == s.tasks[tid := TaskWrote(s.tasks[tid])] && s'.notices == s.notices && s'.table == s.table && s'.hsm == s.hsm
    ensures tid in s'.log.pending && s'.log.pending[tid].HasWritten? && s'.log.pending - {tid} == s.log.pending - {tid}
    ensures A.LockedInv(e.sha, s.log) ==> A.LockedInv(e.sha, s'.log)
  {
    hide P.Due, OpName, A.LockedInv, Chain.EntryHash, LinesAfter;
    s' := NextLog(e, s, A.Write(tid)).value;
    if A.LockedInv(e.sha, s.log) {
      A.LockedNext(e.sha, s.log, A.Write(tid), s'.log);
    }
  }

  lemma PublishAlone(e: Env, s: State, tid: Tid) returns (s': State)
    requires Ties(e, s) && TaskLogs(s, tid) && tid in s.log.pending && s.log.pending[tid].HasWritten?
    ensures Next(e, s, LogStep(A.Publish(tid))) == Some(s')
    ensures s'.tasks == s.tasks[tid := TaskAppended(s.tasks[tid], true)] && s'.notices == s.notices && s'.table == s.table && s'.hsm == s.hsm
    ensures s'.log.pending == s.log.pending - {tid}
    ensures A.LockedInv(e.sha, s.log) ==> A.LockedInv(e.sha, s'.log)
  {
    hide P.Due, OpName, A.LockedInv, P.AfterAppend, TaskOk, M.Inv, EnvOk, LinesTied, CallTied;
    assert PendingOk(s, tid);
    s' := NextLog(e, s, A.Publish(tid)).value;
    if A.LockedInv(e.sha, s.log) {
      A.LockedNext(e.sha, s.log, A.Publish(tid), s'.log);
    }
  }

  /** Nothing prevents a request from appending its entry. */
  lemma AppendAlone(e: Env, s: State, tid: Tid, ts: string) returns (s': State)
    requires Ties(e, s) && TaskLogs(s, tid) && tid !in s.log.pending
    ensures Quietly(e, s, s') && Ties(e, s') && s'.hsm == s.hsm
    ensures OnlyTask(s, s', tid, TaskAppended(TaskWrote(s.tasks[tid]), true))
    ensures Calm(e, s) ==> Calm(e, s')
  {
    hide Ties, Next, Quietly, DueBody, TaskAppended, A.LockedInv;
    var s1 := ReadAlone(e, s, tid, ts);
    NextKeepsTies(e, s, LogStep(A.Read(tid, DueBody(s.tasks[tid], ts))), s1);
    QuietOne(e, s, LogStep(A.Read(tid, DueBody(s.tasks[tid], ts))), s1);
    var s2 := WriteAlone(e, s1, tid);
    NextKeepsTies(e, s1, LogStep(A.Write(tid)), s2);
    QuietOne(e, s1, LogStep(A.Write(tid)), s2);
    s' := PublishAlone(e, s2, tid);
    NextKeepsTies(e, s2, LogStep(A.Publish(tid)), s');
    QuietOne(e, s2, LogStep(A.Publish(tid)), s');
    QuietOn(e, s, s1, s2);
    QuietOn(e, s, s2, s');
  }

  // ------------------------------------------------------ A call, alone

  lemma FreshHandle(objects: Store) returns (h: Handle)
    ensures h !in objects
  {
    h := MaxHandle(objects.Keys) + 1;
    assert h !in objects.Keys;
  }

  ghost function MaxHandle(hs: set<Handle>): (m: nat)
    ensures forall h :: h in hs ==> h <= m
  {
    if hs == {} then 0
    else
      var h :| h in hs;
      var m := MaxHandle(hs - {h});
      assert hs == (hs - {h}) + {h};
      if h > m then h else m
  }

  lemma HsmAlone(e: Env, s: State, st: M.Step, hsm: M.Hsm) returns (s': State)
    requires Ties(e, s) && TaskCalls(s, st.tid) && !st.Finish? && M.Next(e.c, s.hsm, st) == Some(hsm)
    requires st.Enter? ==> st.cmd == s.tasks[st.tid].pc.cmd
    ensures Quietly(e, s, s') && Ties(e, s') && s' == s.(hsm := hsm, started := s'.started)
  {
    hide Ties, M.Next, Quietly;
    s' := NextHsm(e, s, st).value;
    NextKeepsTies(e, s, HsmStep(st), s');
    QuietOne(e, s, HsmStep(st), s');
  }

  /** Up to the key: the session is opened and the one key of the label is found. */
  lemma FindAlone(e: Env, s: State, tid: Tid, h: Handle) returns (s': State)
    requires Ties(e, s) && TaskCalls(s, tid) && tid !in s.hsm.calls
    requires var cmd := s.tasks[tid].pc.cmd;
      h in e.token && IsTheKey(e.token, KindFor(cmd), cmd.keyLabel, h) && (cmd.Decrypts() ==> |cmd.iv| == 16)
    ensures Quietly(e, s, s') && Ties(e, s') && s' == s.(hsm := s'.hsm, started := s'.started)
    ensures s'.hsm == s.hsm.(calls := s.hsm.calls[tid := M.HasKey(s.tasks[tid].pc.cmd, h)])
    ensures h in s'.hsm.objects && s'.hsm.objects[h] == e.token[h]
  {
    hide Ties, Quietly, IsTheKey;
    var cmd := s.tasks[tid].pc.cmd;
    var h1 := M.Put(s.hsm, tid, M.Entered(cmd));
    var s1 := HsmAlone(e, s, M.Enter(tid, cmd), h1);
    var h2 := M.Put(h1, tid, M.InSession(cmd));
    var s2 := HsmAlone(e, s1, M.OpenSession(tid), h2);
    TokenThere(e, s2, tid, h);
    var h3 := M.Put(h2, tid, M.HasKey(cmd, h));
    assert M.FindNow(h2, tid) == Some(h3) by { FindsIt(h2, tid, h); }
    s' := HsmAlone(e, s2, M.FindKey(tid), h3);
    QuietOn(e, s, s1, s2);
    QuietOn(e, s, s2, s');
  }

  lemma TokenThere(e: Env, s: State, tid: Tid, h: Handle)
    requires Ties(e, s) && TaskCalls(s, tid) && h in e.token
    requires IsTheKey(e.token, KindFor(s.tasks[tid].pc.cmd), s.tasks[tid].pc.cmd.keyLabel, h)
    ensures h in s.hsm.objects && s.hsm.objects[h] == e.token[h]
    ensures IsTheKey(s.hsm.objects, KindFor(s.tasks[tid].pc.cmd), s.tasks[tid].pc.cmd.keyLabel, h)
  {
    hide TaskOk, PendingOk, CallTied, LinesTied, M.CallOk, EnvOk, Config.TableOk;
    EnterIsNamed(e, s, tid);
    M.LookupsSeeTokenObjects(e.c, e.token, s.hsm, KindFor(s.tasks[tid].pc.cmd), s.tasks[tid].pc.cmd.keyLabel);
  }

  lemma FindsIt(s: M.Hsm, tid: Tid, h: Handle)
    requires tid in s.calls && s.calls[tid].InSession? && h in s.objects
    requires IsTheKey(s.objects, KindFor(s.calls[tid].cmd), s.calls[tid].cmd.keyLabel, h)
    ensures M.FindNow(s, tid) == Some(M.Put(s, tid, M.HasKey(s.calls[tid].cmd, h)))
  {
    forall k | k in s.objects && IsTheKey(s.objects, KindFor(s.calls[tid].cmd), s.calls[tid].cmd.keyLabel, k) ensures k == h {
      R.OneKey(s.objects, KindFor(s.calls[tid].cmd), s.calls[tid].cmd.keyLabel, h, k);
    }
  }

  /** Ready to work with the key, derived if the command wants that. */
  lemma KeyAlone(e: Env, s: State, tid: Tid, h: Handle) returns (s': State)
    requires Ties(e, s) && TaskCalls(s, tid) && tid !in s.hsm.calls
    requires var cmd := s.tasks[tid].pc.cmd;
      h in e.token && IsTheKey(e.token, KindFor(cmd), cmd.keyLabel, h) && (cmd.Decrypts() ==> |cmd.iv| == 16)
    ensures Quietly(e, s, s') && Ties(e, s') && s' == s.(hsm := s'.hsm, started := s'.started)
    ensures s'.hsm.signed == s.hsm.signed && s'.hsm.uses == s.hsm.uses && s'.hsm.calls.Keys == s.hsm.calls.Keys + {tid}
    ensures s'.hsm.calls - {tid} == s.hsm.calls
    ensures M.CanUse(s'.hsm, tid) && s'.hsm.calls[tid].cmd == s.tasks[tid].pc.cmd
    ensures s'.hsm.objects[s'.hsm.calls[tid].h].key == UsedKey(e.c, e.token[h].key, s.tasks[tid].pc.cmd)
  {
    hide Ties, Quietly, IsTheKey;
    var cmd := s.tasks[tid].pc.cmd;
    var s1 := FindAlone(e, s, tid, h);
    if cmd.Derives() {
      var k := FreshHandle(s1.hsm.objects);
      var h2 := M.DeriveNow(e.c, s1.hsm, tid, k).value;
      s' := HsmAlone(e, s1, M.Derive(tid, k), h2);
      QuietOn(e, s, s1, s');
    } else {
      s' := s1;
    }
  }

  /** The answer of a command run with the key its label names, whatever the device draws. */
  ghost function AnswerOf(e: Env, signed: Signed, cmd: Cmd, h: Handle, random: seq<byte>): Option<Answer>
    requires h in e.token
  {
    M.Result(e.c, signed, cmd, UsedKey(e.c, e.token[h].key, cmd), random)
  }

  /** Nothing prevents a request from getting the answer to its call. */
  lemma CallAlone(e: Env, s: State, tid: Tid, h: Handle, random: seq<byte>) returns (s': State)
    requires Ties(e, s) && TaskCalls(s, tid) && tid !in s.hsm.calls
    requires var cmd := s.tasks[tid].pc.cmd;
      && h in e.token && IsTheKey(e.token, KindFor(cmd), cmd.keyLabel, h) && (cmd.Decrypts() ==> |cmd.iv| == 16)
      && AnswerOf(e, s.hsm.signed, cmd, h, random).Some?
    ensures Quietly(e, s, s') && Ties(e, s') && s'.log == s.log
    ensures OnlyTask(s, s', tid, Resume(s.tasks[tid], AnswerOf(e, s.hsm.signed, s.tasks[tid].pc.cmd, h, random).value))
    ensures s'.hsm.uses == s.hsm.uses +
      [M.Use(tid, s.tasks[tid].pc.cmd, AnswerOf(e, s.hsm.signed, s.tasks[tid].pc.cmd, h, random).value)]
    ensures s'.hsm.signed == if s.tasks[tid].pc.cmd.SignCmd?
      then s.hsm.signed + {(e.token[h].key, s.tasks[tid].pc.cmd.data, random)} else s.hsm.signed
  {
    hide Ties, Quietly, IsTheKey, M.Result, Resume, M.CanUse;
    var cmd := s.tasks[tid].pc.cmd;
    var s1 := KeyAlone(e, s, tid, h);
    KeyUsable(s1.hsm, tid);
    var h2 := M.UseNow(e.c, s1.hsm, tid, random).value;
    var s2 := HsmAlone(e, s1, M.UseKey(tid, random), h2);
    s' := FinishAlone(e, s2, tid);
    QuietOn(e, s, s1, s2);
    QuietOn(e, s, s2, s');
    NoDerivation(e.c, e.token[h].key, cmd);
  }

  lemma KeyUsable(s: M.Hsm, tid: Tid)
    requires tid in s.calls && M.CanUse(s, tid)
    ensures (s.calls[tid].HasKey? || s.calls[tid].HasDerived?) && s.calls[tid].h in s.objects
  {
  }

  lemma NoDerivation(c: Crypto, key: seq<byte>, cmd: Cmd)
    ensures cmd.SignCmd? ==> UsedKey(c, key, cmd) == key
  {
  }

  lemma FinishAlone(e: Env, s: State, tid: Tid) returns (s': State)
    requires Ties(e, s) && TaskCalls(s, tid) && tid in s.hsm.calls && s.hsm.calls[tid].Answered?
    ensures Quietly(e, s, s') && Ties(e, s') && s'.log == s.log
    ensures s'.tasks == s.tasks[tid := Resume(s.tasks[tid], s.hsm.calls[tid].ans)] && s'.notices == s.notices && s'.table == s.table
    ensures s'.hsm.calls == s.hsm.calls - {tid} && s'.hsm.signed == s.hsm.signed && s'.hsm.uses == s.hsm.uses
  {
    hide Ties, Quietly, Resume;
    s' := NextHsm(e, s, M.Finish(tid)).value;
    NextKeepsTies(e, s, HsmStep(M.Finish(tid)), s');
    QuietOne(e, s, HsmStep(M.Finish(tid)), s');
  }

  // ------------------------------------------------- Whole requests, alone

  /** A permitted request arrives and gets its intent written. */
  lemma StartAlone(e: Env, s: State, tid: Tid, cn: string, req: Request, ts: string) returns (s': State)
    requires Ties(e, s) && tid !in s.tasks && tid !in s.notices && RequestFits(req)
    requires P.Permitted(P.Settings(s.table, e.integrity), cn, req)
    ensures Quietly(e, s, s') && Ties(e, s') && s'.hsm == s.hsm && (Calm(e, s) ==> Calm(e, s'))
    ensures tid in s'.tasks && OnlyTask(s, s', tid, s'.tasks[tid]) && tid !in s'.hsm.calls && tid !in s'.log.pending
    ensures var t, g := s'.tasks[tid], P.Settings(s.table, e.integrity);
      t.g == g && t.cn == cn && t.req == req && !t.cut && t.pc == P.Start(g, req, P.PeerOf(req))
  {
    hide Ties, Quietly, P.Begin, RequestFits, P.Start, A.LockedInv;
    var st := Arrive(tid, cn, req);
    var s1 := Next(e, s, st).value;
    NextKeepsTies(e, s, st, s1);
    QuietOne(e, s, st, s1);
    NewcomerIsNew(e, s, tid);
    s' := AppendAlone(e, s1, tid, ts);
    QuietOn(e, s, s1, s');
  }

  /** A response gets its closing entry written and goes out. */
  lemma CloseAlone(e: Env, s: State, tid: Tid, ts: string) returns (s': State)
    requires Ties(e, s) && tid in s.tasks && !s.tasks[tid].cut && s.tasks[tid].pc.Close? && tid !in s.log.pending
    ensures Quietly(e, s, s') && Ties(e, s') && s'.hsm == s.hsm && (Calm(e, s) ==> Calm(e, s'))
    ensures tid in s'.tasks && OnlyTask(s, s', tid, s'.tasks[tid]) && SameRequest(s.tasks[tid], s'.tasks[tid])
    ensures s'.tasks[tid].pc == P.Done(s.tasks[tid].pc.resp)
  {
    hide Ties, Quietly, A.LockedInv, AppendEvent;
    s' := AppendAlone(e, s, tid, ts);
  }

  /** A request that needs no check starts with the command it stands for. */
  lemma StartsWith(g: P.Settings, cn: string, req: Request, cmd: Cmd)
    requires P.Permitted(g, cn, req) && Replies.MainCmd(req, cmd) && !cmd.Decrypts()
    ensures P.Start(g, req, P.PeerOf(req)) == P.Call(cmd, P.Main)
  {
    hide P.Start, P.Permitted, Replies.MainCmd, Replies.Executable, Replies.IsCheck;
    Replies.MainIsExecutable(req, cmd);
    Replies.StartIs(g, cn, req);
    Replies.OneMain(req, cmd, P.Start(g, req, P.PeerOf(req)).cmd);
  }

  /** What it takes for an encrypting request to be served: its key and the gateway's, an IV under which
      the ciphertext is of a size that exists, and no interruption. */
  ghost predicate CanEncrypt(e: Env, g: P.Settings, cn: string, req: Request, cmd: Cmd, h: Handle, p: Handle, iv: seq<byte>) {
    && RequestFits(req) && P.Permitted(g, cn, req) && g.integrity == e.integrity
    && cmd.Encrypts() && Replies.MainCmd(req, cmd)
    && h in e.token && IsTheKey(e.token, KindFor(cmd), cmd.keyLabel, h)
    && p in e.token && IsTheKey(e.token, PrivateKey, e.integrity, p)
    && |iv| == 16 && |CipherOf(e, cmd, h, iv)| < U64
  }

  function CipherOf(e: Env, cmd: Cmd, h: Handle, iv: seq<byte>): seq<byte>
    requires cmd.Encrypts() && h in e.token
  {
    e.c.encrypt(UsedKey(e.c, e.token[h].key, cmd), iv, cmd.pt)
  }

  function SealedAnswer(ct: seq<byte>, iv: seq<byte>, sig: seq<byte>): Response {
    Ok(Some(Base64.Encode(ct)), None, Some(Base64.Encode(iv)), Some(Base64.Encode(sig)))
  }

  /** The key uses of an encrypting request. */
  function EncryptUses(e: Env, tid: Tid, cmd: Cmd, h: Handle, iv: seq<byte>, sig: seq<byte>): seq<M.Use>
    requires cmd.Encrypts() && h in e.token
  {
    var ct := CipherOf(e, cmd, h, iv);
    [M.Use(tid, cmd, Ciphertext(iv, ct)),
     M.Use(tid, SignCmd(e.integrity, P.IntegrityPayload(cmd.keyLabel, iv, ct)), Signature(sig))]
  }

  /** Left alone, an encrypting request gets its ciphertext sealed and is about to be answered with it. */
  lemma SealAlone(e: Env, s: State, tid: Tid, cn: string, req: Request, cmd: Cmd, h: Handle, p: Handle,
                  iv: seq<byte>, sig: seq<byte>) returns (s': State)
    requires Ties(e, s) && tid !in s.tasks && tid !in s.notices
    requires CanEncrypt(e, P.Settings(s.table, e.integrity), cn, req, cmd, h, p, iv)
    ensures Quietly(e, s, s') && Ties(e, s') && (Calm(e, s) ==> Calm(e, s'))
    ensures tid in s'.tasks && OnlyTask(s, s', tid, s'.tasks[tid]) && s'.tasks[tid].req == req && s'.tasks[tid].cn == cn
    ensures !s'.tasks[tid].cut && s'.tasks[tid].pc == P.Close(SealedAnswer(CipherOf(e, cmd, h, iv), iv, sig))
    ensures tid !in s'.log.pending && s'.hsm.uses == s.hsm.uses + EncryptUses(e, tid, cmd, h, iv, sig)
    ensures (e.token[p].key, P.IntegrityPayload(cmd.keyLabel, iv, CipherOf(e, cmd, h, iv)), sig) in s'.hsm.signed
  {
    hide Ties, Quietly, IsTheKey, UsedKey, A.LockedInv, P.IntegrityPayload, P.Start, RequestFits, P.Permitted, Base64.Encode, Replies.MainCmd;
    var ct := CipherOf(e, cmd, h, iv);
    var s1 := StartAlone(e, s, tid, cn, req, "");
    StartsWith(P.Settings(s.table, e.integrity), cn, req, cmd);
    EncryptAnswer(e, s1.hsm.signed, cmd, h, iv);
    var s2 := CallAlone(e, s1, tid, h, iv);
    var seal := SignCmd(e.integrity, P.IntegrityPayload(cmd.keyLabel, iv, ct));
    assert s2.tasks[tid].pc == P.Call(seal, P.Sealing(iv, ct));
    assert AnswerOf(e, s2.hsm.signed, seal, p, sig) == Some(Signature(sig));
    s' := CallAlone(e, s2, tid, p, sig);
    QuietOn(e, s, s1, s2);
    QuietOn(e, s, s2, s');
  }

  /** Left alone, an encrypting request is answered with its ciphertext, sealed. */
  lemma EncryptAlone(e: Env, s: State, tid: Tid, cn: string, req: Request, cmd: Cmd, h: Handle, p: Handle,
                     iv: seq<byte>, sig: seq<byte>) returns (s': State)
    requires Ties(e, s) && tid !in s.tasks && tid !in s.notices
    requires CanEncrypt(e, P.Settings(s.table, e.integrity), cn, req, cmd, h, p, iv)
    ensures Quietly(e, s, s') && Ties(e, s') && (Calm(e, s) ==> Calm(e, s'))
    ensures tid in s'.tasks && OnlyTask(s, s', tid, s'.tasks[tid]) && s'.tasks[tid].req == req
    ensures s'.tasks[tid].pc == P.Done(SealedAnswer(CipherOf(e, cmd, h, iv), iv, sig))
    ensures s'.hsm.uses == s.hsm.uses + EncryptUses(e, tid, cmd, h, iv, sig)
    ensures (e.token[p].key, P.IntegrityPayload(cmd.keyLabel, iv, CipherOf(e, cmd, h, iv)), sig) in s'.hsm.signed
  {
    hide Ties, Quietly, IsTheKey, UsedKey, A.LockedInv, P.IntegrityPayload, P.Start, RequestFits, P.Permitted, Base64.Encode, CipherOf,
      EncryptUses;
    var s1 := SealAlone(e, s, tid, cn, req, cmd, h, p, iv, sig);
    s' := CloseAlone(e, s1, tid, "");
    QuietOn(e, s, s1, s');
  }

  lemma CanParts(e: Env, g: P.Settings, cn: string, req: Request, cmd: Cmd, h: Handle, p: Handle, iv: seq<byte>)
    requires CanEncrypt(e, g, cn, req, cmd, h, p, iv)
    ensures cmd.Encrypts() && h in e.token && p in e.token
  {
  }

  // ----------------------------------------------------- Sign and verify

  /** What it takes for a request that signs or verifies: permission, and the key of its label. */
  ghost predicate CanUseKey(e: Env, g: P.Settings, cn: string, req: Request, cmd: Cmd, h: Handle) {
    && RequestFits(req) && P.Permitted(g, cn, req) && Replies.MainCmd(req, cmd)
    && h in e.token && IsTheKey(e.token, KindFor(cmd), cmd.keyLabel, h)
  }

  /** Left alone, a signing request is answered with the signature that the device made with the one
      private key of its label, and the signature is on record. */
  lemma SignAlone(e: Env, s: State, tid: Tid, cn: string, req: Request, cmd: Cmd, h: Handle, sig: seq<byte>) returns (s': State)
    requires Ties(e, s) && tid !in s.tasks && tid !in s.notices && req.SignRequest?
    requires CanUseKey(e, P.Settings(s.table, e.integrity), cn, req, cmd, h)
    ensures Quietly(e, s, s') && Ties(e, s') && (Calm(e, s) ==> Calm(e, s'))
    ensures tid in s'.tasks && OnlyTask(s, s', tid, s'.tasks[tid]) && s'.tasks[tid].req == req
    ensures s'.tasks[tid].pc == P.Done(Ok(Some(Base64.Encode(sig)), None, None, None))
    ensures cmd.SignCmd? && s'.hsm.uses == s.hsm.uses + [M.Use(tid, cmd, Signature(sig))]
    ensures h in e.token && s'.hsm.signed == s.hsm.signed + {(e.token[h].key, cmd.data, sig)}
  {
    hide Ties, Quietly, IsTheKey, A.LockedInv, P.Start, RequestFits, P.Permitted, Base64.Encode, Replies.MainCmd;
    SignsOrVerifies(req, cmd);
    var s1 := StartAlone(e, s, tid, cn, req, "");
    StartsWith(P.Settings(s.table, e.integrity), cn, req, cmd);
    assert AnswerOf(e, s1.hsm.signed, cmd, h, sig) == Some(Signature(sig));
    var s2 := CallAlone(e, s1, tid, h, sig);
    s' := CloseAlone(e, s2, tid, "");
    QuietOn(e, s, s1, s2);
    QuietOn(e, s, s2, s');
  }

  /** Left alone, a verifying request is answered with whether this signature over these data has been
      made with the one key of its label. */
  lemma VerifyAlone(e: Env, s: State, tid: Tid, cn: string, req: Request, cmd: Cmd, h: Handle) returns (s': State)
    requires Ties(e, s) && tid !in s.tasks && tid !in s.notices && req.VerifyRequest?
    requires CanUseKey(e, P.Settings(s.table, e.integrity), cn, req, cmd, h)
    ensures Quietly(e, s, s') && Ties(e, s') && (Calm(e, s) ==> Calm(e, s'))
    ensures tid in s'.tasks && OnlyTask(s, s', tid, s'.tasks[tid]) && s'.tasks[tid].req == req
    ensures cmd.VerifyCmd? && h in e.token && s'.hsm.signed == s.hsm.signed
    ensures s'.tasks[tid].pc == P.Done(Ok(None, Some((e.token[h].key, cmd.data, cmd.sig) in s.hsm.signed), None, None))
  {
    hide Ties, Quietly, IsTheKey, A.LockedInv, P.Start, RequestFits, P.Permitted, Replies.MainCmd;
    SignsOrVerifies(req, cmd);
    var s1 := StartAlone(e, s, tid, cn, req, "");
    StartsWith(P.Settings(s.table, e.integrity), cn, req, cmd);
    assert AnswerOf(e, s1.hsm.signed, cmd, h, []) == Some(Verdict((e.token[h].key, cmd.data, cmd.sig) in s1.hsm.signed));
    var s2 := CallAlone(e, s1, tid, h, []);
    s' := CloseAlone(e, s2, tid, "");
    QuietOn(e, s, s1, s2);
    QuietOn(e, s, s2, s');
  }

  lemma SignsOrVerifies(req: Request, cmd: Cmd)
    requires Replies.MainCmd(req, cmd)
    ensures req.SignRequest? ==> cmd.SignCmd?
    ensures req.VerifyRequest? ==> cmd.VerifyCmd?
  {
    hide Base64.Decode;
  }

  /** So what one request has signed another one verifies, if both label the two halves of one pair. */
  lemma SignThenVerify(e: Env, s: State, a: Tid, b: Tid, cn: string, req: Request, cmd: Cmd, h: Handle, sig: seq<byte>,
                       cn2: string, req2: Request, cmd2: Cmd, k: Handle) returns (mid: State, s': State)
    requires Ties(e, s) && a != b && a !in s.tasks && a !in s.notices && b !in s.tasks && b !in s.notices
    requires req.SignRequest? && CanUseKey(e, P.Settings(s.table, e.integrity), cn, req, cmd, h)
    requires req2.VerifyRequest? && CanUseKey(e, P.Settings(s.table, e.integrity), cn2, req2, cmd2, k)
    requires e.token[h].key == e.token[k].key && req2.dataB64 == req.dataB64 && req2.signatureB64 == Base64.Encode(sig)
    ensures Quietly(e, s, mid) && a in mid.tasks && mid.tasks[a].pc == P.Done(Ok(Some(req2.signatureB64), None, None, None))
    ensures Quietly(e, mid, s') && b in s'.tasks && s'.tasks[b].pc == P.Done(Ok(None, Some(true), None, None))
  {
    hide Ties, Quietly, IsTheKey, A.LockedInv, RequestFits, P.Permitted, Base64.Encode, Base64.Decode;
    mid := SignAlone(e, s, a, cn, req, cmd, h, sig);
    s' := VerifyAlone(e, mid, b, cn2, req2, cmd2, k);
    Base64.DecodeEncode(sig);
  }

  // ------------------------------------------------------- A lone intent

  /** A lone intent may belong to a finished request: from any reached state, an encryption can be carried
      out and answered `ok` while its closing entry cannot be written, so that the log shows its intent
      and no closing entry. */
  lemma LoneIntentOfFinished(e: Env, base: seq<Chain.Entry>, s: State, tid: Tid, cn: string, req: Request, cmd: Cmd, h: Handle,
                             p: Handle, iv: seq<byte>, sig: seq<byte>) returns (s': State)
    requires EnvOk(e) && Reached(e, base, s) && tid !in s.tasks && tid !in s.notices
    requires CanEncrypt(e, P.Settings(s.table, e.integrity), cn, req, cmd, h, p, iv)
    ensures Reached(e, base, s') && Quietly(e, s, s') && tid in s'.tasks && s'.tasks[tid].req == req
    ensures s'.tasks[tid].pc == P.Done(SealedAnswer(CipherOf(e, cmd, h, iv), iv, sig))
    ensures exists i :: 0 <= i < |s'.lines| && s'.lines[i].owner == tid && s'.lines[i].entry.outcome == Chain.Intent
    ensures forall i :: 0 <= i < |s'.lines| && s'.lines[i].owner == tid ==>
      s'.lines[i].entry.outcome != Chain.Authorized && s'.lines[i].entry.outcome != Chain.Error
  {
    hide Ties, Quietly, Reached, CanEncrypt, CipherOf, Base64.Encode, L.Kept;
    ReachedTies(e, base, s);
    s' := FinishUnlogged(e, s, tid, cn, req, cmd, h, p, iv, sig);
    QuietLeads(e, s, s');
    LeadsReached(e, base, s, s');
    L.ReachedKept(e, base, s');
    BegunNotEnded(s', tid);
  }

  lemma BegunNotEnded(s: State, tid: Tid)
    requires L.Kept(s) && tid in s.tasks && s.tasks[tid].began && !s.tasks[tid].ended
    ensures exists i :: 0 <= i < |s.lines| && s.lines[i].owner == tid && s.lines[i].entry.outcome == Chain.Intent
    ensures forall i :: 0 <= i < |s.lines| && s.lines[i].owner == tid ==>
      s.lines[i].entry.outcome != Chain.Authorized && s.lines[i].entry.outcome != Chain.Error
  {
    hide L.Once, L.ReasonOk, NoticeOk;
    assert L.TaskLines(s, tid);
    forall i | 0 <= i < |s.lines| && s.lines[i].owner == tid
      ensures !s.lines[i].role.Closing?
      ensures s.lines[i].role == L.RoleOfLine(s.lines[i].entry)
    {
      assert L.LineOk(s, i);
    }
    var k :| L.Wrote(s, k, tid, Opening);
    assert 0 <= k < |s.lines| && s.lines[k].owner == tid && s.lines[k].role == Opening;
  }

  /** An encryption that is carried out and answered, but whose closing entry cannot be written. */
  lemma FinishUnlogged(e: Env, s: State, tid: Tid, cn: string, req: Request, cmd: Cmd, h: Handle, p: Handle,
                       iv: seq<byte>, sig: seq<byte>) returns (s': State)
    requires Ties(e, s) && tid !in s.tasks && tid !in s.notices
    requires CanEncrypt(e, P.Settings(s.table, e.integrity), cn, req, cmd, h, p, iv)
    ensures Quietly(e, s, s') && Ties(e, s') && tid in s'.tasks && s'.tasks[tid].req == req
    ensures s'.tasks[tid].pc == P.Done(SealedAnswer(CipherOf(e, cmd, h, iv), iv, sig))
    ensures s'.tasks[tid].began && !s'.tasks[tid].ended && s'.tasks[tid].lost
  {
    hide Ties, Quietly, IsTheKey, UsedKey, A.LockedInv, P.IntegrityPayload, P.Start, RequestFits, P.Permitted, Base64.Encode, CipherOf,
      EncryptUses, Next, DueBody, AppendEvent, Calm;
    var s1 := SealAlone(e, s, tid, cn, req, cmd, h, p, iv, sig);
    var s2 := ReadAlone(e, s1, tid, "");
    QuietOne(e, s1, LogStep(A.Read(tid, DueBody(s1.tasks[tid], ""))), s2);
    NextKeepsTies(e, s1, LogStep(A.Read(tid, DueBody(s1.tasks[tid], ""))), s2);
    s' := FailAlone(e, s2, tid);
    QuietOne(e, s2, LogStep(A.Fail(tid)), s');
    NextKeepsTies(e, s2, LogStep(A.Fail(tid)), s');
    QuietOn(e, s, s1, s2);
    QuietOn(e, s, s2, s');
    CloseBegan(e, s2, tid);
  }

  lemma FailAlone(e: Env, s: State, tid: Tid) returns (s': State)
    requires TaskLogs(s, tid) && tid in s.log.pending && s.log.pending[tid].HasRead?
    ensures Next(e, s, LogStep(A.Fail(tid))) == Some(s') && s'.tasks == s.tasks[tid := TaskAppended(s.tasks[tid], false)]
  {
    hide P.Due, OpName, LinesAfter, P.AfterAppend;
    s' := NextLog(e, s, A.Fail(tid)).value;
  }

  lemma CloseBegan(e: Env, s: State, tid: Tid)
    requires Ties(e, s) && tid in s.tasks && !s.tasks[tid].cut && s.tasks[tid].pc.Close?
    requires tid in s.log.pending && s.log.pending[tid].HasRead?
    ensures s.tasks[tid].began && !s.tasks[tid].ended
  {
    hide M.Inv, EnvOk, LinesTied, PendingOk, CallTied, P.Permitted, RequestFits, SettingsOk;
    assert TaskOk(e, s, tid);
  }

  lemma EncryptAnswer(e: Env, signed: Signed, cmd: Cmd, h: Handle, iv: seq<byte>)
    requires cmd.Encrypts() && h in e.token && |iv| == 16 && |CipherOf(e, cmd, h, iv)| < U64
    ensures AnswerOf(e, signed, cmd, h, iv) == Some(Ciphertext(iv, CipherOf(e, cmd, h, iv)))
  {
  }

  /** A decrypting request that goes on to its check, and the gateway's public key. */
  ghost predicate CanCheck(e: Env, g: P.Settings, cn: string, req: Request, q: Handle) {
    && RequestFits(req) && P.Permitted(g, cn, req) && g.integrity == e.integrity
    && Replies.Supported(req) && req.IntegrityInput().Some?
    && q in e.token && IsTheKey(e.token, PublicKey, e.integrity, q)
  }

  /** Left alone, a request that presents a seal on record passes its check and goes on to decrypt, with
      its own operation, label and peer, the very IV and ciphertext it presented. */
  lemma CheckAlone(e: Env, s: State, tid: Tid, cn: string, req: Request, q: Handle) returns (s': State)
    requires Ties(e, s) && tid !in s.tasks && tid !in s.notices
    requires CanCheck(e, P.Settings(s.table, e.integrity), cn, req, q) && R.OnRecord(e, s.hsm.signed, req)
    ensures Quietly(e, s, s') && Ties(e, s') && (Calm(e, s) ==> Calm(e, s')) && s'.hsm.signed == s.hsm.signed
    ensures tid in s'.tasks && OnlyTask(s, s', tid, s'.tasks[tid]) && tid !in s'.hsm.calls && tid !in s'.log.pending
    ensures s'.tasks[tid].req == req && TaskCalls(s', tid) && s'.tasks[tid].pc.why == P.Main
    ensures Replies.MainCmd(req, s'.tasks[tid].pc.cmd)
    ensures |s'.hsm.uses| == |s.hsm.uses| + 1 && s.hsm.uses <= s'.hsm.uses && s'.hsm.uses[|s.hsm.uses|].cmd.VerifyCmd?
  {
    hide Ties, Quietly, IsTheKey, A.LockedInv, P.IntegrityPayload, P.Start, RequestFits, P.Permitted, Base64.Decode, SealedBy, P.AfterCall,
      Replies.MainCmd, Replies.IsCheck;
    var g := P.Settings(s.table, e.integrity);
    var s1 := StartAlone(e, s, tid, cn, req, "");
    EnvOf(e, s);
    RecordDecodes(e, s.hsm.signed, req);
    Replies.StartIs(g, cn, req);
    var cmd := s1.tasks[tid].pc.cmd;
    RecordedIsValid(e, s.hsm.signed, req, cmd, q);
    s' := CallAlone(e, s1, tid, q, []);
    QuietOn(e, s, s1, s');
    Replies.AfterCheckIs(g, cn, req, cmd, Verdict(true));
  }

  lemma RecordDecodes(e: Env, signed: Signed, req: Request)
    requires R.OnRecord(e, signed, req)
    ensures Base64.Decode(req.dataB64).Some? && Base64.Decode(req.ivB64).Some? && Base64.Decode(req.integrityB64).Some?
  {
    hide Base64.Decode, SealedBy;
  }

  lemma RecordedIsValid(e: Env, signed: Signed, req: Request, cmd: Cmd, q: Handle)
    requires EnvOk(e) && R.OnRecord(e, signed, req)
    requires Replies.IsCheck(e.integrity, req, cmd)
    requires q in e.token && IsTheKey(e.token, PublicKey, e.integrity, q)
    ensures cmd.VerifyCmd? && cmd.keyLabel == e.integrity && AnswerOf(e, signed, cmd, q, []) == Some(Verdict(true))
  {
    hide Base64.Decode, P.IntegrityPayload;
    var seal := SignCmd(e.integrity, cmd.data);
    var p :| p in e.token && IsTheKey(e.token, PrivateKey, e.integrity, p)
             && M.LastingWith(e.c, UsedKey(e.c, e.token[p].key, seal), signed, seal, Signature(cmd.sig));
    assert q in Matches(e.token, PublicKey, e.integrity) && p in Matches(e.token, PrivateKey, e.integrity);
  }

  lemma EnvOf(e: Env, s: State)
    requires Ties(e, s)
    ensures EnvOk(e)
  {
    hide M.Inv, TaskOk, PendingOk, CallTied, LinesTied;
  }

  // -------------------------------------------------- Through a restart

  /** What it takes further for the decrypt: an IV of the right length and a ciphertext that the key of
      the label, or the key derived from it, decrypts. */
  ghost predicate CanDecrypt(e: Env, cmd: Cmd, h: Handle, pt: seq<byte>) {
    && cmd.Decrypts() && |cmd.iv| == 16
    && h in e.token && IsTheKey(e.token, KindFor(cmd), cmd.keyLabel, h)
    && e.c.decrypt(UsedKey(e.c, e.token[h].key, cmd), cmd.iv, cmd.ct) == Some(pt)
  }

  lemma DecryptAlone(e: Env, s: State, tid: Tid, h: Handle, pt: seq<byte>) returns (s': State)
    requires Ties(e, s) && TaskCalls(s, tid) && tid !in s.hsm.calls && tid !in s.log.pending
    requires s.tasks[tid].pc.why == P.Main && CanDecrypt(e, s.tasks[tid].pc.cmd, h, pt)
    ensures Quietly(e, s, s') && Ties(e, s')
    ensures tid in s'.tasks && s'.tasks[tid].req == s.tasks[tid].req
    ensures s'.tasks[tid].pc == P.Done(OkResult(Base64.Encode(pt)))
  {
    hide Ties, Quietly, IsTheKey, UsedKey, A.LockedInv, Base64.Encode;
    DecryptAnswer(e, s.hsm.signed, s.tasks[tid].pc.cmd, h, pt);
    var s1 := CallAlone(e, s, tid, h, []);
    s' := CloseAlone(e, s1, tid, "");
    QuietOn(e, s, s1, s');
  }

  lemma DecryptAnswer(e: Env, signed: Signed, cmd: Cmd, h: Handle, pt: seq<byte>)
    requires CanDecrypt(e, cmd, h, pt)
    ensures AnswerOf(e, signed, cmd, h, []) == Some(Plaintext(pt))
  {
  }

  /** With its log idle and its chain whole, the gateway can be started again. */
  lemma RestartAlone(e: Env, s: State, table: Config.Table) returns (s': State)
    requires Ties(e, s) && Calm(e, s) && Config.TableOk(table, e.integrity)
    ensures Next(e, s, Restart(table)) == Some(s') && Ties(e, s') && Calm(e, s') && s'.table == table
    ensures s'.hsm.signed == s.hsm.signed && s'.hsm.uses == s.hsm.uses && s'.hsm.calls == map[]
    ensures s'.tasks == CutOff(s.tasks) && s'.notices == AllOver(s.notices)
  {
    hide Ties, Quietly, Config.TableOk;
    s' := Restarted(e, s, table).value;
    NextKeepsTies(e, s, Restart(table), s');
    A.OpenedLocked(e.sha, A.Entries(s.log));
    SameLocked(e.sha, A.Opened(A.Entries(s.log)), s'.log);
  }

  lemma SameLocked(sha: Chain.Sha, l: A.Log, m: A.Log)
    requires A.LockedInv(sha, l) && m == l.(clock := m.clock)
    ensures A.LockedInv(sha, m)
  {
    assert A.Entries(m) == A.Entries(l);
  }

  /** Encrypt, start the gateway again, decrypt: from any calm state there is a run in which the first
      request is answered with a ciphertext and the second, after the restart, with the first one's
      text. */
  lemma DecryptsAfterRestart(e: Env, s: State, a: Tid, b: Tid, cn: string, req: Request, cmd: Cmd, h: Handle, p: Handle,
                             q: Handle, iv: seq<byte>, sig: seq<byte>, table: Config.Table, cn2: string, req2: Request)
    returns (mid: State, s': State)
    requires Ties(e, s) && Calm(e, s) && R.Inverse(e.c)
    requires a != b && a !in s.tasks && a !in s.notices && b !in s.tasks && b !in s.notices
    requires CanEncrypt(e, P.Settings(s.table, e.integrity), cn, req, cmd, h, p, iv)
    requires Config.TableOk(table, e.integrity) && CanCheck(e, P.Settings(table, e.integrity), cn2, req2, q)
    requires R.Decrypts(req, SealedAnswer(CipherOf(e, cmd, h, iv), iv, sig), req2)
    ensures Leads(e, s, mid) && a in mid.tasks && mid.tasks[a].pc == P.Done(SealedAnswer(CipherOf(e, cmd, h, iv), iv, sig))
    ensures b !in mid.tasks && mid.table == table && Leads(e, mid, s')
    ensures b in s'.tasks && s'.tasks[b].req == req2 && s'.tasks[b].pc == P.Done(OkResult(req.dataB64))
  {
    hide Ties, Quietly, IsTheKey, UsedKey, A.LockedInv, P.IntegrityPayload, CanCheck, CanDecrypt, R.Inverse, Replies.MainCmd, Base64.Encode,
      Base64.Decode, R.Decrypts, R.Presents, R.OnRecord, Config.TableOk, Calm, CipherOf, P.Permitted, RequestFits, P.Start;
    var s1 := EncryptAlone(e, s, a, cn, req, cmd, h, p, iv, sig);
    mid := RestartAlone(e, s1, table);
    QuietThenOne(e, s, s1, Restart(table), mid);
    R.EncryptingCmd(req, cmd);
    DecryptsPresents(req, SealedAnswer(CipherOf(e, cmd, h, iv), iv, sig), req2);
    SealRecorded(e, mid.hsm.signed, req, cmd, h, p, iv, sig, req2);
    var s2 := CheckAlone(e, mid, b, cn2, req2, q);
    DecryptsBack(e, req, cmd, h, iv, sig, req2, s2.tasks[b].pc.cmd);
    s' := DecryptAlone(e, s2, b, h, cmd.pt);
    QuietOn(e, mid, s2, s');
    QuietLeads(e, mid, s');
  }

  lemma QuietThenOne(e: Env, s: State, s': State, st: Step, s'': State)
    requires Quietly(e, s, s') && Next(e, s', st) == Some(s'')
    ensures Leads(e, s, s'')
  {
    hide Next, Run;
    var a :| NoRestart(a) && Run(e, s, a) == Some(s');
    RunOne(e, s', st, s'');
    RunConcat(e, s, a, s', [st], s'');
  }

  /** So from the first start on there are states in which a decrypt has been answered, after a restart,
      with the text that an encryption answered before it started from. */
  lemma ReachesDecryptAfterRestart(e: Env, first: Config.Table, base: seq<Chain.Entry>, cn: string, req: Request, cmd: Cmd,
                                   h: Handle, p: Handle, q: Handle, iv: seq<byte>, sig: seq<byte>,
                                   table: Config.Table, cn2: string, req2: Request)
    returns (mid: State, s': State)
    requires EnvOk(e) && R.Inverse(e.c) && Chain.Chained(e.sha, base)
    requires Config.TableOk(first, e.integrity) && Config.TableOk(table, e.integrity)
    requires CanEncrypt(e, P.Settings(first, e.integrity), cn, req, cmd, h, p, iv)
    requires CanCheck(e, P.Settings(table, e.integrity), cn2, req2, q)
    requires R.Decrypts(req, SealedAnswer(CipherOf(e, cmd, h, iv), iv, sig), req2)
    ensures Reached(e, base, mid) && 0 in mid.tasks && mid.tasks[0].pc == P.Done(SealedAnswer(CipherOf(e, cmd, h, iv), iv, sig))
    ensures mid.table == table && 1 !in mid.tasks && Leads(e, mid, s') && Reached(e, base, s')
    ensures 1 in s'.tasks && s'.tasks[1].req == req2 && s'.tasks[1].pc == P.Done(OkResult(req.dataB64))
  {
    hide Ties, Leads, Reached, CanEncrypt, CanCheck, R.Inverse, Replies.MainCmd, R.Decrypts, Config.TableOk, Calm, Chain.Chained, SealedAnswer,
      EnvOk;
    assert cmd.Encrypts() && h in e.token by { CanParts(e, P.Settings(first, e.integrity), cn, req, cmd, h, p, iv); }
    var s := Machine.Start(e, first, base);
    StartTies(e, first, base);
    StartCalm(e, first, base);
    FirstReached(e, first, base);
    mid, s' := DecryptsAfterRestart(e, s, 0, 1, cn, req, cmd, h, p, q, iv, sig, table, cn2, req2);
    LeadsReached(e, base, s, mid);
    LeadsReached(e, base, mid, s');
  }

  lemma DecryptsPresents(a: Request, x: Response, b: Request)
    requires R.Decrypts(a, x, b)
    ensures R.Presents(a, x, b)
  {
  }

  lemma SealRecorded(e: Env, signed: Signed, req: Request, cmd: Cmd, h: Handle, p: Handle, iv: seq<byte>, sig: seq<byte>, req2: Request)
    requires cmd.Encrypts() && h in e.token && cmd.keyLabel == req.keyLabel
    requires p in e.token && IsTheKey(e.token, PrivateKey, e.integrity, p)
    requires (e.token[p].key, P.IntegrityPayload(cmd.keyLabel, iv, CipherOf(e, cmd, h, iv)), sig) in signed
    requires R.Presents(req, SealedAnswer(CipherOf(e, cmd, h, iv), iv, sig), req2)
    ensures R.OnRecord(e, signed, req2)
  {
    hide Base64.Encode, Base64.Decode, P.IntegrityPayload, IsTheKey;
    var ct := CipherOf(e, cmd, h, iv);
    Base64.DecodeEncode(ct);
    Base64.DecodeEncode(iv);
    Base64.DecodeEncode(sig);
    var seal := SignCmd(e.integrity, P.IntegrityPayload(cmd.keyLabel, iv, ct));
    assert M.LastingWith(e.c, UsedKey(e.c, e.token[p].key, seal), signed, seal, Signature(sig));
    assert SealedBy(e, signed, req.keyLabel, iv, ct, sig);
  }

  lemma DecryptsBack(e: Env, req: Request, cmd: Cmd, h: Handle, iv: seq<byte>, sig: seq<byte>, req2: Request, cmd2: Cmd)
    requires R.Inverse(e.c) && Replies.MainCmd(req, cmd) && Replies.MainCmd(req2, cmd2)
    requires cmd.Encrypts() && h in e.token && IsTheKey(e.token, KindFor(cmd), cmd.keyLabel, h) && |iv| == 16
    requires R.Decrypts(req, SealedAnswer(CipherOf(e, cmd, h, iv), iv, sig), req2)
    ensures CanDecrypt(e, cmd2, h, cmd.pt) && Base64.Encode(cmd.pt) == req.dataB64
  {
    hide Base64.Encode, Base64.Decode, IsTheKey, UsedKey, R.Inverse, Replies.MainCmd;
    var ct := CipherOf(e, cmd, h, iv);
    Base64.DecodeEncode(ct);
    Base64.DecodeEncode(iv);
    R.EncryptingCmd(req, cmd);
    R.DecryptingCmd(req2, cmd2);
    R.SameUsedKey(e.c, e.token[h].key, cmd, cmd2);
    R.Undone(e.c, UsedKey(e.c, e.token[h].key, cmd), iv, cmd.pt);
    Base64.EncodeDecode(req.dataB64);
  }

  // --------------------------------------------- What a seal does not cover

  /** A seal binds neither the operation nor the peer: whatever request made it, any permitted request
      that derives a key of the same label, with any peer key it is allowed, can present the answer and
      gets its ciphertext decrypted with the key derived from its own peer. */
  lemma SealCoversNoPeer(e: Env, base: seq<Chain.Entry>, s: State, a: Tid, b: Tid, cn: string, req: Request, q: Handle)
    returns (s': State)
    requires EnvOk(e) && Reached(e, base, s)
    requires a in s.tasks && s.tasks[a].pc.Done? && b !in s.tasks && b !in s.notices
    requires R.Presents(s.tasks[a].req, s.tasks[a].pc.resp, req) && req.DeriveAndDecryptRequest?
    requires CanCheck(e, P.Settings(s.table, e.integrity), cn, req, q)
    ensures Quietly(e, s, s') && b in s'.tasks && s'.tasks[b].req == req && TaskCalls(s', b)
    ensures var cmd := s'.tasks[b].pc.cmd;
      && cmd.DeriveDecryptCmd? && cmd.keyLabel == req.keyLabel
      && Base64.Decode(req.peerPublicKeyB64) == Some(cmd.peer)
      && s.tasks[a].pc.resp.resultB64 == Some(Base64.Encode(cmd.ct)) && s.tasks[a].pc.resp.ivB64 == Some(Base64.Encode(cmd.iv))
  {
    hide Ties, Quietly, Reached, R.OnRecord, True, CanCheck, Replies.MainCmd, Base64.Encode, Base64.Decode, A.LockedInv;
    ReachedAll(e, base, s);
    var x := s.tasks[a];
    assert PcTrue(e, s.hsm, a, x.req, x.pc);
    R.AnswerIsOnRecord(e, s.hsm, a, x.req, x.pc.resp, req);
    s' := CheckAlone(e, s, b, cn, req, q);
    R.DecryptingCmd(req, s'.tasks[b].pc.cmd);
    DerivesToDecrypt(req, s'.tasks[b].pc.cmd);
    Base64.EncodeDecode(req.dataB64);
    Base64.EncodeDecode(req.ivB64);
  }

  lemma DerivesToDecrypt(req: Request, cmd: Cmd)
    requires Replies.MainCmd(req, cmd) && req.DeriveAndDecryptRequest?
    ensures cmd.DeriveDecryptCmd?
  {
    hide Base64.Decode;
  }

  // --------------------------------------------------- The race, in full

  /** Both requests stand before their intent, with the log idle. */
  lemma ArriveAlone(e: Env, s: State, tid: Tid, cn: string, req: Request) returns (s': State)
    requires Ties(e, s) && tid !in s.tasks && tid !in s.notices && RequestFits(req)
    requires P.Permitted(P.Settings(s.table, e.integrity), cn, req)
    ensures Next(e, s, Arrive(tid, cn, req)) == Some(s') && Ties(e, s') && s'.log == s.log && s'.table == s.table && s'.notices == s.notices
    ensures s'.tasks == s.tasks[tid := s'.tasks[tid]] && TaskLogs(s', tid)
  {
    hide Ties, P.Begin, RequestFits;
    s' := Next(e, s, Arrive(tid, cn, req)).value;
    NextKeepsTies(e, s, Arrive(tid, cn, req), s');
  }

  /** Two permitted requests on a new log are enough: if both read the head before either writes, then
      whatever the hash function does, no later start accepts the file. */
  lemma RaceStopsRestart(e: Env, table: Config.Table, a: Tid, b: Tid, cn: string, req: Request, cn2: string, req2: Request)
    returns (s': State)
    requires EnvOk(e) && Config.TableOk(table, e.integrity) && a != b
    requires RequestFits(req) && P.Permitted(P.Settings(table, e.integrity), cn, req)
    requires RequestFits(req2) && P.Permitted(P.Settings(table, e.integrity), cn2, req2)
    ensures Reached(e, [], s') && s'.log.pending == map[]
    ensures forall t :: Restarted(e, s', t) == None
  {
    hide Ties, Next, P.Permitted, RequestFits, Config.TableOk, EnvOk, Run, Chain.Chained, A.Entries, RaceSteps;
    var s0 := Machine.Start(e, table, []);
    StartTies(e, table, []);
    var s1 := ArriveAlone(e, s0, a, cn, req);
    var s2 := ArriveAlone(e, s1, b, cn2, req2);
    var x, y;
    s', x, y := Race(e, s2, a, b);
    var arrivals := [Arrive(a, cn, req), Arrive(b, cn2, req2)];
    RunOne(e, s0, arrivals[0], s1);
    RunOne(e, s1, arrivals[1], s2);
    RunConcat(e, s0, [arrivals[0]], s1, [arrivals[1]], s2);
    assert [arrivals[0]] + [arrivals[1]] == arrivals;
    RunConcat(e, s0, arrivals, s2, RaceSteps(a, b, x, y), s');
    RaceBreaks(e, s2, s', a, b, x, y);
  }

  function RaceSteps(a: Tid, b: Tid, x: Chain.Body, y: Chain.Body): seq<Step> {
    [LogStep(A.Read(a, x)), LogStep(A.Read(b, y)), LogStep(A.Write(a)), LogStep(A.Write(b)),
     LogStep(A.Publish(a)), LogStep(A.Publish(b))]
  }

  lemma Race(e: Env, s: State, a: Tid, b: Tid) returns (s': State, x: Chain.Body, y: Chain.Body)
    requires Ties(e, s) && a != b && TaskLogs(s, a) && TaskLogs(s, b) && a !in s.log.pending && b !in s.log.pending
    ensures Run(e, s, RaceSteps(a, b, x, y)) == Some(s')
  {
    hide Ties, Next, Run, SamePending, Logs, P.Logging;
    var s1, s2;
    s1, x := ReadNext(e, s, a);
    Still(s, s1, a, b);
    s2, y := ReadNext(e, s1, b);
    Still(s1, s2, b, a);
    var s3 := WriteNext(e, s2, a);
    Still(s2, s3, a, b);
    var s4 := WriteNext(e, s3, b);
    Still(s3, s4, b, a);
    var s5 := PublishNext(e, s4, a);
    Still(s4, s5, a, b);
    s' := PublishNext(e, s5, b);
    RunStates(e, [s, s1, s2, s3, s4, s5, s'], RaceSteps(a, b, x, y));
  }

  /** Other appends stand where they stood. */
  ghost predicate SamePending(s: State, s': State, tid: Tid) {
    forall u :: u != tid ==>
      (u in s'.log.pending <==> u in s.log.pending) && (u in s.log.pending ==> s'.log.pending[u] == s.log.pending[u])
  }

  lemma Still(s: State, s': State, tid: Tid, u: Tid)
    requires SamePending(s, s', tid) && u != tid
    ensures u in s'.log.pending <==> u in s.log.pending
    ensures u in s.log.pending ==> s'.log.pending[u] == s.log.pending[u]
  {
  }

  lemma OthersPending(s: State, s': State, tid: Tid)
    requires s'.log.pending - {tid} == s.log.pending - {tid}
    ensures SamePending(s, s', tid)
  {
    var p, p' := s.log.pending - {tid}, s'.log.pending - {tid};
    forall u | u != tid
      ensures u in s'.log.pending <==> u in s.log.pending
      ensures u in s.log.pending ==> s'.log.pending[u] == s.log.pending[u]
    {
      assert u in p <==> u in s.log.pending;
      assert u in p' <==> u in s'.log.pending;
      if u in p {
        assert p[u] == s.log.pending[u] && p'[u] == s'.log.pending[u];
      }
    }
  }

  lemma ReadNext(e: Env, s: State, tid: Tid) returns (s': State, body: Chain.Body)
    requires Ties(e, s) && TaskLogs(s, tid) && tid !in s.log.pending
    ensures Next(e, s, LogStep(A.Read(tid, body))) == Some(s') && Ties(e, s')
    ensures s'.tasks == s.tasks && tid in s'.log.pending && s'.log.pending[tid].HasRead? && SamePending(s, s', tid)
  {
    hide Ties, Next, DueBody, Calm, A.LockedInv;
    body := DueBody(s.tasks[tid], "");
    s' := ReadAlone(e, s, tid, "");
    assert s.log.pending - {tid} == s.log.pending;
    OthersPending(s, s', tid);
    NextKeepsTies(e, s, LogStep(A.Read(tid, body)), s');
  }

  lemma WriteNext(e: Env, s: State, tid: Tid) returns (s': State)
    requires Ties(e, s) && TaskLogs(s, tid) && tid in s.log.pending && s.log.pending[tid].HasRead?
    ensures Next(e, s, LogStep(A.Write(tid))) == Some(s') && Ties(e, s')
    ensures s'.tasks == s.tasks[tid := TaskWrote(s.tasks[tid])]
    ensures tid in s'.log.pending && s'.log.pending[tid].HasWritten? && SamePending(s, s', tid)
  {
    hide Ties, Next, A.LockedInv;
    s' := WriteAlone(e, s, tid);
    OthersPending(s, s', tid);
    NextKeepsTies(e, s, LogStep(A.Write(tid)), s');
  }

  lemma PublishNext(e: Env, s: State, tid: Tid) returns (s': State)
    requires Ties(e, s) && TaskLogs(s, tid) && tid in s.log.pending && s.log.pending[tid].HasWritten?
    ensures Next(e, s, LogStep(A.Publish(tid))) == Some(s') && Ties(e, s')
    ensures forall u :: u != tid && u in s.tasks ==> u in s'.tasks && s'.tasks[u] == s.tasks[u]
    ensures SamePending(s, s', tid)
  {
    hide Ties, Next, TaskAppended, A.LockedInv;
    s' := PublishAlone(e, s, tid);
    NextKeepsTies(e, s, LogStep(A.Publish(tid)), s');
  }

  lemma {:induction false} RunStates(e: Env, states: seq<State>, steps: seq<Step>)
    requires |states| == |steps| + 1
    requires forall i :: 0 <= i < |steps| ==> Next(e, states[i], steps[i]) == Some(states[i + 1])
    ensures Run(e, states[0], steps) == Some(states[|steps|])
    decreases |steps|
  {
    hide Next;
    if steps != [] {
      RunStates(e, states[1..], steps[1..]);
    }
  }

  lemma RaceBreaks(e: Env, s: State, s': State, a: Tid, b: Tid, x: Chain.Body, y: Chain.Body)
    requires s.log == A.Opened([]) && Run(e, s, RaceSteps(a, b, x, y)) == Some(s') && a != b
    ensures !Chain.Chained(e.sha, A.Entries(s'.log)) && s'.log.pending == map[]
  {
    hide Next, A.Run, Chain.Chained, A.Entries, A.Next, Run;
    L.RunIsLogRun(e, s, RaceSteps(a, b, x, y), s');
    LogStepsOfSix(A.Read(a, x), A.Read(b, y), A.Write(a), A.Write(b), A.Publish(a), A.Publish(b));
    A.RaceBreaksChain(e.sha, a, b, x, y);
  }

  lemma LogStepsOfSix(a: A.Step, b: A.Step, c: A.Step, d: A.Step, f: A.Step, g: A.Step)
    ensures L.LogSteps([LogStep(a), LogStep(b), LogStep(c), LogStep(d), LogStep(f), LogStep(g)]) == [a, b, c, d, f, g]
  {
    assert L.LogSteps([LogStep(g)]) == [g];
    assert L.LogSteps([LogStep(f), LogStep(g)]) == [f, g];
    assert L.LogSteps([LogStep(d), LogStep(f), LogStep(g)]) == [d, f, g];
    assert L.LogSteps([LogStep(c), LogStep(d), LogStep(f), LogStep(g)]) == [c, d, f, g];
    assert L.LogSteps([LogStep(b), LogStep(c), LogStep(d), LogStep(f), LogStep(g)]) == [b, c, d, f, g];
  }
}
