/** Encrypting and then decrypting through the gateway, whatever happens in between, restarts
    included. */
module RoundTrip {
  import opened Wrappers
  import opened Bytes
  import opened Protocol
  import opened Machine
  import opened Token
  import opened Answering
  import P = Pipeline
  import Chain
  import Config
  import Base64
  import M = HsmMachine
  import V = Provenance
  import Replies
  import C = Courses

  /** AES decryption undoes encryption under the same key and IV. */
  ghost predicate Inverse(c: Crypto) {
    forall key, iv, pt :: |iv| == 16 ==> c.decrypt(key, iv, c.encrypt(key, iv, pt)) == Some(pt)
  }

  /** `b` presents for decryption the three texts that `resp` gave back to `a`, under the same label. */
  predicate Presents(a: Request, resp: Response, b: Request) {
    && (a.EncryptRequest? || a.DeriveAndEncryptRequest?)
    && b.IntegrityInput().Some? && b.keyLabel == a.keyLabel
    && resp == Ok(Some(b.dataB64), None, Some(b.ivB64), Some(b.integrityB64))
  }

  /** It also asks for the matching operation, with the same peer. */
  predicate Decrypts(a: Request, resp: Response, b: Request) {
    && Presents(a, resp, b)
    && ((a.EncryptRequest? && b.DecryptRequest?)
        || (a.DeriveAndEncryptRequest? && b.DeriveAndDecryptRequest? && a.peerPublicKeyB64 == b.peerPublicKeyB64))
  }

  // ------------------------------------------------------- The plaintext

  lemma OneKey(token: Store, kind: Kind, name: string, h: Handle, k: Handle)
    requires IsTheKey(token, kind, name, h) && IsTheKey(token, kind, name, k)
    ensures h == k
  {
    assert h in Matches(token, kind, name);
  }

  /** Two true answers: the second gives back the text the first one started from. */
  lemma AnswersRoundTrip(e: Env, hsm: M.Hsm, s: Tid, a: Request, x: Response, t: Tid, b: Request, y: Response)
    requires Inverse(e.c) && Decrypts(a, x, b)
    requires True(e, hsm, s, a, x) && True(e, hsm, t, b, y)
    ensures y == OkResult(a.dataB64)
  {
    hide Base64.Decode, Base64.Encode, P.IntegrityPayload, Inverse, IsTheKey, UsedKey, Replies.MainCmd, Reports;
    var signed := hsm.signed;
    var m, u :| Replies.MainCmd(a, m) && Given(e, hsm, s, m, u) && Reports(e, signed, a, u, x);
    var n, v :| Replies.MainCmd(b, n) && Given(e, hsm, t, n, v) && Reports(e, signed, b, v, y);
    EncryptingCmd(a, m);
    DecryptingCmd(b, n);
    var h :| h in e.token && IsTheKey(e.token, KindFor(m), m.keyLabel, h)
             && M.LastingWith(e.c, UsedKey(e.c, e.token[h].key, m), signed, m, u);
    var k :| k in e.token && IsTheKey(e.token, KindFor(n), n.keyLabel, k)
             && M.LastingWith(e.c, UsedKey(e.c, e.token[k].key, n), signed, n, v);
    SameTexts(e, signed, a, x, b, u);
    Base64.DecodeEncode(u.ct);
    Base64.DecodeEncode(u.iv);
    OneKey(e.token, KindFor(m), m.keyLabel, h, k);
    SameUsedKey(e.c, e.token[h].key, m, n);
    Undone(e.c, UsedKey(e.c, e.token[h].key, m), u.iv, m.pt);
    PlainReported(e, signed, b, v, y);
    Base64.EncodeDecode(a.dataB64);
  }

  lemma PlainReported(e: Env, signed: Signed, b: Request, v: Answer, y: Response)
    requires Reports(e, signed, b, v, y) && v.Plaintext?
    ensures y == OkResult(Base64.Encode(v.pt))
  {
    hide Base64.Encode;
  }

  lemma EncryptingCmd(a: Request, m: Cmd)
    requires Replies.MainCmd(a, m)
    ensures m.keyLabel == a.keyLabel
    ensures a.EncryptRequest? ==> m.EncryptCmd? && Base64.Decode(a.dataB64) == Some(m.pt)
    ensures a.DeriveAndEncryptRequest? ==>
      m.DeriveEncryptCmd? && Base64.Decode(a.dataB64) == Some(m.pt) && Base64.Decode(a.peerPublicKeyB64) == Some(m.peer)
  {
    hide Base64.Decode;
  }

  lemma DecryptingCmd(b: Request, n: Cmd)
    requires Replies.MainCmd(b, n) && b.IntegrityInput().Some?
    ensures n.keyLabel == b.keyLabel && n.Decrypts()
    ensures Base64.Decode(b.dataB64) == Some(n.ct) && Base64.Decode(b.ivB64) == Some(n.iv)
    ensures b.DecryptRequest? <==> n.DecryptCmd?
    ensures b.DeriveAndDecryptRequest? ==> Base64.Decode(b.peerPublicKeyB64) == Some(n.peer)
  {
    hide Base64.Decode;
  }

  lemma SameTexts(e: Env, signed: Signed, a: Request, x: Response, b: Request, u: Answer)
    requires Presents(a, x, b) && Reports(e, signed, a, u, x) && u.Ciphertext?
    ensures b.dataB64 == Base64.Encode(u.ct) && b.ivB64 == Base64.Encode(u.iv)
  {
    hide Base64.Encode, SealedBy;
    var sig :| SealedBy(e, signed, a.keyLabel, u.iv, u.ct, sig)
               && x == Ok(Some(Base64.Encode(u.ct)), None, Some(Base64.Encode(u.iv)), Some(Base64.Encode(sig)));
  }

  lemma SameUsedKey(c: Crypto, key: seq<byte>, m: Cmd, n: Cmd)
    requires m.Derives() == n.Derives() && (m.Derives() ==> m.peer == n.peer)
    ensures UsedKey(c, key, m) == UsedKey(c, key, n)
  {
  }

  lemma Undone(c: Crypto, key: seq<byte>, iv: seq<byte>, pt: seq<byte>)
    requires Inverse(c) && |iv| == 16
    ensures c.decrypt(key, iv, c.encrypt(key, iv, pt)) == Some(pt)
  {
  }

  // ------------------------------------------------------- The signature

  /** The seal that `b` presents is on record under the gateway's private key. */
  ghost predicate OnRecord(e: Env, signed: Signed, b: Request) {
    && b.IntegrityInput().Some?
    && match (Base64.Decode(b.dataB64), Base64.Decode(b.ivB64), Base64.Decode(b.integrityB64))
       case (Some(ct), Some(iv), Some(sig)) => SealedBy(e, signed, b.keyLabel, iv, ct, sig)
       case _ => false
  }

  lemma AnswerIsOnRecord(e: Env, hsm: M.Hsm, t: Tid, a: Request, x: Response, b: Request)
    requires Presents(a, x, b) && True(e, hsm, t, a, x)
    ensures OnRecord(e, hsm.signed, b)
  {
    hide Base64.Decode, Base64.Encode, P.IntegrityPayload, SealedBy, Replies.MainCmd;
    var m, u :| Replies.MainCmd(a, m) && Given(e, hsm, t, m, u) && Reports(e, hsm.signed, a, u, x);
    EncryptingCmd(a, m);
    var sig :| SealedBy(e, hsm.signed, a.keyLabel, u.iv, u.ct, sig)
               && x == Ok(Some(Base64.Encode(u.ct)), None, Some(Base64.Encode(u.iv)), Some(Base64.Encode(sig)));
    Base64.DecodeEncode(u.ct);
    Base64.DecodeEncode(u.iv);
    Base64.DecodeEncode(sig);
  }

  lemma RecordGrows(e: Env, signed: Signed, now: Signed, b: Request)
    requires OnRecord(e, signed, b) && signed <= now
    ensures OnRecord(e, now, b)
  {
    hide Base64.Decode, SealedBy;
    SealedByGrows(e, signed, now, b.keyLabel, Base64.Decode(b.ivB64).value, Base64.Decode(b.dataB64).value,
                  Base64.Decode(b.integrityB64).value);
  }

  /** With its seal on record, the check of a request is never answered `false`. */
  lemma NeverFalse(e: Env, was: Signed, req: Request, cmd: Cmd, ans: Answer, now: Signed)
    requires EnvOk(e) && OnRecord(e, was, req) && Replies.IsCheck(e.integrity, req, cmd)
    requires Token.Answers(e.c, e.token, was, cmd, ans, now)
    ensures ans != Verdict(false)
  {
    hide Base64.Decode, P.IntegrityPayload, M.IsToken;
    if !ans.Failed? {
      var seal := SignCmd(cmd.keyLabel, cmd.data);
      var h :| h in e.token && IsTheKey(e.token, PublicKey, cmd.keyLabel, h)
               && AnswersWith(e.c, UsedKey(e.c, e.token[h].key, cmd), was, cmd, ans, now);
      var p :| p in e.token && IsTheKey(e.token, PrivateKey, cmd.keyLabel, p)
               && M.LastingWith(e.c, UsedKey(e.c, e.token[p].key, seal), was, seal, Signature(cmd.sig));
      assert h in Matches(e.token, PublicKey, cmd.keyLabel) && p in Matches(e.token, PrivateKey, cmd.keyLabel);
      assert e.token[p].key == e.token[h].key;
    }
  }

  /** The device has not found the signature wrong that request `tid` presents, `req` being this request. */
  ghost predicate NotFoundWrong(e: Env, uses: seq<M.Use>, tid: Tid, req: Request) {
    forall u :: u in uses && u.tid == tid && Replies.IsCheck(e.integrity, req, u.cmd) ==> u.ans != Verdict(false)
  }

  /** The seal that `req` presents is on record, and has not been found wrong. */
  ghost predicate Matched(e: Env, s: State, tid: Tid, req: Request) {
    AllInv(e, s) && OnRecord(e, s.hsm.signed, req) && NotFoundWrong(e, s.hsm.uses, tid, req)
  }

  lemma UseKeepsMatch(e: Env, s: State, st: M.Step, s': State, tid: Tid, req: Request)
    requires Matched(e, s, tid, req) && NextHsm(e, s, st) == Some(s')
    ensures NotFoundWrong(e, s'.hsm.uses, tid, req)
  {
    hide M.Inv, M.Next, V.Inv, Replies.IsCheck, OnRecord, Inv, PendingOk, TaskOk, CallTied, Token.Answers, P.AfterCall, EnvOk, LinesTied,
      Config.TableOk;
    M.UseIsAtomic(e.c, e.token, s.hsm, st, s'.hsm);
    if st.UseKey? {
      UserIsThere(e, s, st, s');
      var cmd := s.hsm.calls[st.tid].cmd;
      var ans :| Token.Answers(e.c, e.token, s.hsm.signed, cmd, ans, s'.hsm.signed)
                 && s'.hsm.uses == s.hsm.uses + [M.Use(st.tid, cmd, ans)];
      if Replies.IsCheck(e.integrity, req, cmd) {
        NeverFalse(e, s.hsm.signed, req, cmd, ans, s'.hsm.signed);
      }
    }
  }

  lemma UserIsThere(e: Env, s: State, st: M.Step, s': State)
    requires st.UseKey? && NextHsm(e, s, st) == Some(s')
    ensures st.tid in s.hsm.calls
  {
  }

  lemma NextMatched(e: Env, s: State, st: Step, s': State, tid: Tid, req: Request)
    requires Matched(e, s, tid, req) && Next(e, s, st) == Some(s')
    ensures Matched(e, s', tid, req) && HsmGrew(s.hsm, s'.hsm)
  {
    hide AllInv, NextLog, NextHsm, NotFoundWrong, OnRecord, P.Begin, RequestFits, NoticeOk, Config.TableOk, Chain.Chained;
    NextKeepsAll(e, s, st, s');
    StepGrows(e, s, st, s');
    RecordGrows(e, s.hsm.signed, s'.hsm.signed, req);
    match st
    case HsmStep(h) => UseKeepsMatch(e, s, h, s', tid, req);
    case LogStep(l) => LogStepFrame(e, s, l, s');
    case _ =>
  }

  lemma LaterMatched(e: Env, s: State, s': State, tid: Tid, req: Request)
    requires Matched(e, s, tid, req) && Leads(e, s, s')
    ensures Matched(e, s', tid, req) && HsmGrew(s.hsm, s'.hsm)
  {
    hide Matched, Next, Leads;
    forall r: State, st | Matched(e, r, tid, req) && HsmGrew(s.hsm, r.hsm) && Next(e, r, st).Some?
      ensures Matched(e, Next(e, r, st).value, tid, req) && HsmGrew(s.hsm, Next(e, r, st).value.hsm)
    {
      NextMatched(e, r, st, Next(e, r, st).value, tid, req);
    }
    HoldsLater(e, s, s', (r: State) => Matched(e, r, tid, req) && HsmGrew(s.hsm, r.hsm));
  }

  lemma StepGrows(e: Env, s: State, st: Step, s': State)
    requires AllInv(e, s) && Next(e, s, st) == Some(s')
    ensures Grows(s, s')
  {
    hide Ties, Next, V.Inv, Inv;
    NextGrows(e, s, st, s');
  }

  /** A request that has not arrived has used nothing. */
  lemma NoneOfNewcomer(e: Env, base: seq<Chain.Entry>, s: State, tid: Tid, req: Request)
    requires EnvOk(e) && Reached(e, base, s) && tid !in s.tasks
    ensures NotFoundWrong(e, s.hsm.uses, tid, req)
  {
    hide Reached, C.CourseOk, C.LastOfIts, Replies.IsCheck, Ties;
    C.ReachedCourses(e, base, s);
  }

  // --------------------------------------------------------- The theorem

  /** Once `a` has been answered with a ciphertext, a later request that presents that answer, in the
      same process or after any number of restarts, never has its seal found wrong; and if it is the
      matching request and is answered `ok`, the text is `a`'s, character for character, whatever else
      ran before, between and meanwhile. */
  lemma EncryptDecrypt(e: Env, base: seq<Chain.Entry>, s: State, a: Tid, s': State, b: Tid)
    requires EnvOk(e) && Reached(e, base, s) && Leads(e, s, s')
    requires a in s.tasks && s.tasks[a].pc.Done? && b !in s.tasks && b in s'.tasks
    requires Presents(s.tasks[a].req, s.tasks[a].pc.resp, s'.tasks[b].req)
    ensures NotFoundWrong(e, s'.hsm.uses, b, s'.tasks[b].req)
    ensures Inverse(e.c) && Decrypts(s.tasks[a].req, s.tasks[a].pc.resp, s'.tasks[b].req) && s'.tasks[b].pc.Done? && s'.tasks[b].pc.resp.Ok? ==>
      s'.tasks[b].pc.resp == OkResult(s.tasks[a].req.dataB64)
  {
    hide Leads, Reached, Ties, V.Inv, Inverse, Decrypts, Presents, True, OnRecord;
    ReachedAll(e, base, s);
    var x, y := s.tasks[a], s'.tasks[b];
    assert x.pc.resp.Ok? by { PresentedOk(x.req, x.pc.resp, y.req); }
    assert PcTrue(e, s.hsm, a, x.req, x.pc);
    AnswerIsOnRecord(e, s.hsm, a, x.req, x.pc.resp, y.req);
    NoneOfNewcomer(e, base, s, b, y.req);
    LaterMatched(e, s, s', b, y.req);
    if Inverse(e.c) && Decrypts(x.req, x.pc.resp, y.req) && y.pc.Done? && y.pc.resp.Ok? {
      assert PcTrue(e, s'.hsm, b, y.req, y.pc);
      TrueGrows(e, s.hsm, s'.hsm, a, x.req, x.pc.resp);
      AnswersRoundTrip(e, s'.hsm, a, x.req, x.pc.resp, b, y.req, y.pc.resp);
    }
  }

  lemma PresentedOk(a: Request, x: Response, b: Request)
    requires Presents(a, x, b)
    ensures x.Ok?
  {
  }
}
