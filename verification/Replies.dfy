/** What a client may expect in answer to one request, told event by event and without the automaton:
    which requests are refused, what is logged, which commands are given, and which of their answers
    are passed on. */
module Replies {
  import opened Wrappers
  import opened Bytes
  import opened Protocol
  import opened Token
  import opened World
  import P = Pipeline
  import Chain
  import Base64

  // ------------------------------------------- The commands of a request

  /** Each operation takes one mechanism, the deriving ones one pair. */
  predicate Supported(req: Request) {
    match req
    case SignRequest(_, mechanism, _) => mechanism == "ecdsa_sha256"
    case VerifyRequest(_, mechanism, _, _) => mechanism == "ecdsa_sha256"
    case EncryptRequest(_, mechanism, _) => mechanism == "aes_cbc_pad"
    case DecryptRequest(_, mechanism, _, _, _) => mechanism == "aes_cbc_pad"
    case DeriveAndEncryptRequest(_, derive, target, _, _) => derive == "ecdh1_derive" && target == "aes_cbc_pad"
    case DeriveAndDecryptRequest(_, derive, target, _, _, _, _) => derive == "ecdh1_derive" && target == "aes_cbc_pad"
  }

  /** The command a request stands for: its own label, and the bytes its texts decode to. */
  predicate MainCmd(req: Request, cmd: Cmd) {
    && Supported(req) && cmd.keyLabel == req.keyLabel
    && match req
       case SignRequest(_, _, data) => cmd.SignCmd? && Base64.Decode(data) == Some(cmd.data)
       case VerifyRequest(_, _, data, sig) =>
         cmd.VerifyCmd? && Base64.Decode(data) == Some(cmd.data) && Base64.Decode(sig) == Some(cmd.sig)
       case EncryptRequest(_, _, data) => cmd.EncryptCmd? && Base64.Decode(data) == Some(cmd.pt)
       case DecryptRequest(_, _, data, iv, _) =>
         cmd.DecryptCmd? && Base64.Decode(data) == Some(cmd.ct) && Base64.Decode(iv) == Some(cmd.iv)
       case DeriveAndEncryptRequest(_, _, _, peer, data) =>
         cmd.DeriveEncryptCmd? && Base64.Decode(peer) == Some(cmd.peer) && Base64.Decode(data) == Some(cmd.pt)
       case DeriveAndDecryptRequest(_, _, _, peer, iv, _, data) =>
         && cmd.DeriveDecryptCmd? && Base64.Decode(peer) == Some(cmd.peer)
         && Base64.Decode(data) == Some(cmd.ct) && Base64.Decode(iv) == Some(cmd.iv)
  }

  /** The operation that using a key in this way is. */
  function OperationFor(cmd: Cmd): Operation {
    match cmd
    case SignCmd(_, _) => Sign
    case VerifyCmd(_, _, _) => Verify
    case EncryptCmd(_, _) => Encrypt
    case DecryptCmd(_, _, _) => Decrypt
    case DeriveEncryptCmd(_, _, _) => DeriveAndEncrypt
    case DeriveDecryptCmd(_, _, _, _) => DeriveAndDecrypt
  }

  lemma MainIsOperation(req: Request, cmd: Cmd)
    requires MainCmd(req, cmd)
    ensures cmd.keyLabel == req.keyLabel && req.Op() == OperationFor(cmd)
  {
    hide Base64.Decode;
  }

  /** The check of the integrity signature that a decrypting request presents, over the very label, IV
      and ciphertext that it would have decrypted. */
  predicate IsCheck(integrity: string, req: Request, cmd: Cmd) {
    && Supported(req) && req.IntegrityInput().Some?
    && match (Base64.Decode(req.dataB64), Base64.Decode(req.ivB64), Base64.Decode(req.integrityB64))
       case (Some(ct), Some(iv), Some(sig)) => cmd == VerifyCmd(integrity, P.IntegrityPayload(req.keyLabel, iv, ct), sig)
       case _ => false
  }

  /** Every text of the request that is to be base64 is; a peer key has been looked at before. */
  predicate Decodes(req: Request) {
    match req
    case SignRequest(_, _, data) => Base64.Decode(data).Some?
    case VerifyRequest(_, _, data, sig) => Base64.Decode(data).Some? && Base64.Decode(sig).Some?
    case EncryptRequest(_, _, data) => Base64.Decode(data).Some?
    case DecryptRequest(_, _, data, iv, integ) =>
      Base64.Decode(data).Some? && Base64.Decode(iv).Some? && Base64.Decode(integ).Some?
    case DeriveAndEncryptRequest(_, _, _, _, data) => Base64.Decode(data).Some?
    case DeriveAndDecryptRequest(_, _, _, _, iv, integ, data) =>
      Base64.Decode(data).Some? && Base64.Decode(iv).Some? && Base64.Decode(integ).Some?
  }

  predicate Executable(req: Request) {
    Supported(req) && Decodes(req)
  }

  // ----------------------------------------------------- What is to be seen

  /** An entry about this request of this client. */
  predicate IsEntry(ev: Event, cn: string, req: Request, outcome: Chain.Outcome, detail: string) {
    && ev.Appended? && ev.cn == cn && OperationOf(ev.op) == Some(req.Op()) && ev.keyLabel == req.keyLabel
    && ev.outcome == outcome && ev.detail == detail
  }

  predicate IsClosing(ev: Event, cn: string, req: Request, resp: Response) {
    match resp
    case Ok(_, _, _, _) => IsEntry(ev, cn, req, Chain.Authorized, "")
    case Denied(reason) => IsEntry(ev, cn, req, Chain.Denied, reason)
    case Error(message) => IsEntry(ev, cn, req, Chain.Error, message)
  }

  /** The seal of a ciphertext of this request. */
  function SealOf(integrity: string, req: Request, iv: seq<byte>, ct: seq<byte>): Cmd {
    SignCmd(integrity, P.IntegrityPayload(req.keyLabel, iv, ct))
  }

  /** `resp` is this answer for the client; a ciphertext goes with its seal. */
  predicate Carries(ans: Answer, seal: seq<byte>, resp: Response) {
    match ans
    case Signature(sig) => resp == Ok(Some(Base64.Encode(sig)), None, None, None)
    case Verdict(valid) => resp == Ok(None, Some(valid), None, None)
    case Plaintext(pt) => resp == Ok(Some(Base64.Encode(pt)), None, None, None)
    case Ciphertext(iv, ct) =>
      resp == Ok(Some(Base64.Encode(ct)), None, Some(Base64.Encode(iv)), Some(Base64.Encode(seal)))
    case Failed => false
  }

  /** The command the request stands for is given once, its answer passed on, and a ciphertext only
      with its seal. */
  predicate Works(integrity: string, req: Request, calls: seq<Event>, resp: Response) {
    && calls != [] && calls[0].Called? && MainCmd(req, calls[0].cmd)
    && match calls[0].ans
       case Failed => |calls| == 1 && resp.Error?
       case Ciphertext(iv, ct) =>
         && |calls| == 2 && calls[1].Called? && calls[1].cmd == SealOf(integrity, req, iv, ct)
         && if calls[1].ans.Signature? then Carries(calls[0].ans, calls[1].ans.sig, resp) else resp.Error?
       case _ => |calls| == 1 && Carries(calls[0].ans, [], resp)
  }

  /** A request that cannot be executed is an error and calls nothing; a decrypting one is denied unless
      its check comes out valid. */
  predicate Executes(integrity: string, req: Request, calls: seq<Event>, resp: Response) {
    if !Executable(req) then calls == [] && resp.Error?
    else if req.IntegrityInput().None? then Works(integrity, req, calls, resp)
    else
      && calls != [] && calls[0].Called? && IsCheck(integrity, req, calls[0].cmd)
      && if calls[0].ans == Verdict(true) then Works(integrity, req, calls[1..], resp)
         else |calls| == 1 && resp == Denied("integrity check failed, ciphertext rejected")
  }

  /** All that happens for one request: a refusal, logged; or an intent that could not be logged, and
      nothing more; or intent, execution and closing entry. */
  predicate Story(g: P.Settings, cn: string, req: Request, evs: seq<Event>, resp: Response) {
    if !P.Permitted(g, cn, req) then
      |evs| == 1 && resp.Denied? && IsEntry(evs[0], cn, req, Chain.Denied, resp.reason)
    else
      && evs != [] && IsEntry(evs[0], cn, req, Chain.Intent, "")
      && if !evs[0].ok then |evs| == 1 && resp.Error?
         else
           && |evs| >= 2 && IsClosing(evs[|evs| - 1], cn, req, resp)
           && Executes(g.integrity, req, evs[1..|evs| - 1], resp)
  }

  /** A malformed line is an error, and nothing happens. */
  predicate Told(g: P.Settings, cn: string, parsed: Option<Request>, evs: seq<Event>, resp: Response) {
    match parsed
    case None => evs == [] && resp.Error?
    case Some(req) => Story(g, cn, req, evs, resp)
  }

  // ------------------------------------------------ The automaton says so

  lemma FirstEvent(g: P.Settings, cn: string, req: Request, pc: P.Pc, evs: seq<Event>)
    requires evs != [] && P.Replay(g, cn, req, pc, evs).Some?
    ensures P.Advance(g, cn, req, pc, evs[0]).Some?
    ensures P.Replay(g, cn, req, P.Advance(g, cn, req, pc, evs[0]).value, evs[1..]) == P.Replay(g, cn, req, pc, evs)
  {
    hide P.Advance, P.Replay;
    assert evs == [evs[0]] + evs[1..];
    P.ReplayConcat(g, cn, req, pc, [evs[0]], evs[1..]);
    P.ReplayOne(g, cn, req, pc, evs[0]);
  }

  lemma DoneIsLast(g: P.Settings, cn: string, req: Request, was: Response, evs: seq<Event>, pc: P.Pc)
    requires P.Replay(g, cn, req, P.Done(was), evs) == Some(pc)
    ensures evs == [] && pc == P.Done(was)
  {
    hide P.Replay;
    if evs != [] {
      FirstEvent(g, cn, req, P.Done(was), evs);
    } else {
      NothingReplayed(g, cn, req, P.Done(was));
    }
  }

  lemma NothingReplayed(g: P.Settings, cn: string, req: Request, pc: P.Pc)
    ensures P.Replay(g, cn, req, pc, []) == Some(pc)
  {
  }

  /** What is logged and then answered. */
  lemma LoggedIsEntry(g: P.Settings, cn: string, req: Request, pc: P.Pc, evs: seq<Event>, resp: Response)
    requires P.Logging(pc) && P.Replay(g, cn, req, pc, evs) == Some(P.Done(resp))
    ensures evs != [] && evs[0].Appended?
    ensures pc.Open? ==> IsEntry(evs[0], cn, req, Chain.Intent, "")
    ensures pc.Refuse? ==> IsEntry(evs[0], cn, req, Chain.Denied, pc.reason)
    ensures pc.Close? ==> IsClosing(evs[0], cn, req, pc.resp)
    ensures P.Replay(g, cn, req, P.AfterAppend(g, req, pc, evs[0].ok), evs[1..]) == Some(P.Done(resp))
  {
    hide P.Replay, P.AfterAppend, P.Start, OpName, OperationOf;
    if evs == [] {
      NothingReplayed(g, cn, req, pc);
    } else {
      FirstEvent(g, cn, req, pc, evs);
      OpNameReads(req.Op());
    }
  }

  lemma CloseIsTold(g: P.Settings, cn: string, req: Request, was: Response, evs: seq<Event>, resp: Response)
    requires P.Replay(g, cn, req, P.Close(was), evs) == Some(P.Done(resp))
    ensures |evs| == 1 && IsClosing(evs[0], cn, req, resp) && was == resp
  {
    hide P.Replay, IsClosing;
    LoggedIsEntry(g, cn, req, P.Close(was), evs, resp);
    DoneIsLast(g, cn, req, was, evs[1..], P.Done(resp));
  }

  lemma CallIsTold(g: P.Settings, cn: string, req: Request, cmd: Cmd, why: P.Why, evs: seq<Event>, resp: Response)
    requires P.Replay(g, cn, req, P.Call(cmd, why), evs) == Some(P.Done(resp))
    ensures evs != [] && evs[0].Called? && evs[0].cmd == cmd
    ensures P.Replay(g, cn, req, P.AfterCall(g, req, P.PeerOf(req), cmd, why, evs[0].ans), evs[1..]) == Some(P.Done(resp))
  {
    hide P.Replay, P.AfterCall;
    if evs == [] {
      NothingReplayed(g, cn, req, P.Call(cmd, why));
    } else {
      FirstEvent(g, cn, req, P.Call(cmd, why), evs);
    }
  }

  /** Events that end with the closing entry, the others being calls of this kind. */
  lemma WorkIsTold(g: P.Settings, cn: string, req: Request, cmd: Cmd, evs: seq<Event>, resp: Response)
    requires MainCmd(req, cmd) && P.Replay(g, cn, req, P.Call(cmd, P.Main), evs) == Some(P.Done(resp))
    ensures evs != [] && IsClosing(evs[|evs| - 1], cn, req, resp) && Works(g.integrity, req, evs[..|evs| - 1], resp)
  {
    hide P.Replay, MainCmd, Base64.Encode, P.IntegrityPayload, IsClosing;
    assert cmd.keyLabel == req.keyLabel by { MainLabel(req, cmd); }
    CallIsTold(g, cn, req, cmd, P.Main, evs, resp);
    var ans, rest := evs[0].ans, evs[1..];
    if ans.Ciphertext? {
      CallIsTold(g, cn, req, SealOf(g.integrity, req, ans.iv, ans.ct), P.Sealing(ans.iv, ans.ct), rest, resp);
      var was := P.AfterCall(g, req, P.PeerOf(req), rest[0].cmd, P.Sealing(ans.iv, ans.ct), rest[0].ans).resp;
      CloseIsTold(g, cn, req, was, rest[1..], resp);
      assert |evs| == 3 && evs[2] == rest[1..][0] && evs[1] == rest[0];
    } else {
      var was := P.AfterCall(g, req, P.PeerOf(req), cmd, P.Main, ans).resp;
      CloseIsTold(g, cn, req, was, rest, resp);
      assert |evs| == 2 && evs[1] == rest[0];
    }
  }

  /** A request stands for one command. */
  lemma OneMain(req: Request, cmd: Cmd, other: Cmd)
    requires MainCmd(req, cmd) && MainCmd(req, other)
    ensures cmd == other
  {
    hide Base64.Decode;
  }

  /** A request that needs no check can be executed as soon as it stands for a command. */
  lemma MainIsExecutable(req: Request, cmd: Cmd)
    requires MainCmd(req, cmd) && !cmd.Decrypts()
    ensures Executable(req) && req.IntegrityInput().None?
  {
    hide Base64.Decode;
  }

  lemma MainLabel(req: Request, cmd: Cmd)
    requires MainCmd(req, cmd)
    ensures cmd.keyLabel == req.keyLabel
  {
    hide Base64.Decode;
  }

  /** Where execution starts. */
  lemma StartIs(g: P.Settings, cn: string, req: Request)
    requires P.Permitted(g, cn, req)
    ensures var pc := P.Start(g, req, P.PeerOf(req));
      if !Executable(req) then pc.Close? && pc.resp.Error?
      else if req.IntegrityInput().None? then pc.Call? && pc.why == P.Main && MainCmd(req, pc.cmd)
      else pc.Call? && pc.why == P.Checking && IsCheck(g.integrity, req, pc.cmd)
  {
    hide Base64.Decode, P.IntegrityPayload;
  }

  /** Where a decrypting request goes after its check. */
  lemma AfterCheckIs(g: P.Settings, cn: string, req: Request, cmd: Cmd, ans: Answer)
    requires P.Permitted(g, cn, req) && Executable(req) && req.IntegrityInput().Some?
    ensures var pc := P.AfterCall(g, req, P.PeerOf(req), cmd, P.Checking, ans);
      if ans == Verdict(true) then pc.Call? && pc.why == P.Main && MainCmd(req, pc.cmd)
      else pc == P.Close(Denied("integrity check failed, ciphertext rejected"))
  {
    hide Base64.Decode, P.IntegrityPayload;
  }

  lemma ExecutionIsTold(g: P.Settings, cn: string, req: Request, evs: seq<Event>, resp: Response)
    requires P.Permitted(g, cn, req)
    requires P.Replay(g, cn, req, P.Start(g, req, P.PeerOf(req)), evs) == Some(P.Done(resp))
    ensures evs != [] && IsClosing(evs[|evs| - 1], cn, req, resp) && Executes(g.integrity, req, evs[..|evs| - 1], resp)
  {
    hide P.Replay, MainCmd, IsCheck, Executable, Works, IsClosing, P.Start, P.AfterCall, P.Permitted;
    StartIs(g, cn, req);
    var pc := P.Start(g, req, P.PeerOf(req));
    if pc.Close? {
      CloseIsTold(g, cn, req, pc.resp, evs, resp);
    } else if pc.why == P.Main {
      WorkIsTold(g, cn, req, pc.cmd, evs, resp);
    } else {
      CallIsTold(g, cn, req, pc.cmd, P.Checking, evs, resp);
      AfterCheckIs(g, cn, req, pc.cmd, evs[0].ans);
      var next, rest := P.AfterCall(g, req, P.PeerOf(req), pc.cmd, P.Checking, evs[0].ans), evs[1..];
      if next.Call? {
        WorkIsTold(g, cn, req, next.cmd, rest, resp);
        assert evs[..|evs| - 1][1..] == rest[..|rest| - 1];
      } else {
        CloseIsTold(g, cn, req, next.resp, rest, resp);
      }
    }
  }

  /** Every course of the automaton is such a story: for every line, whatever the log and the device
      answer. */
  lemma ServedAsTold(g: P.Settings, cn: string, parsed: Option<Request>, evs: seq<Event>, resp: Response)
    requires P.Serves(g, cn, parsed, evs, resp)
    ensures Told(g, cn, parsed, evs, resp)
  {
    hide P.Replay, P.Start, IsEntry, IsClosing, Executes;
    if parsed.Some? {
      var req := parsed.value;
      var pc := P.Begin(g, cn, parsed);
      RefusedIsDenied(g, cn, req);
      LoggedIsEntry(g, cn, req, pc, evs, resp);
      var rest := evs[1..];
      if pc.Refuse? {
        DoneIsLast(g, cn, req, Denied(pc.reason), rest, P.Done(resp));
      } else if evs[0].ok {
        ExecutionIsTold(g, cn, req, rest, resp);
        assert evs[1..|evs| - 1] == rest[..|rest| - 1];
      } else {
        IntentLost(g, cn, req, rest, resp);
      }
    }
  }

  lemma RefusedIsDenied(g: P.Settings, cn: string, req: Request)
    ensures var pc := P.Begin(g, cn, Some(req)); pc.Open? || pc.Refuse?
    ensures P.Permitted(g, cn, req) <==> P.Begin(g, cn, Some(req)).Open?
  {
  }

  lemma IntentLost(g: P.Settings, cn: string, req: Request, evs: seq<Event>, resp: Response)
    requires P.Replay(g, cn, req, P.AfterAppend(g, req, P.Open, false), evs) == Some(P.Done(resp))
    ensures evs == [] && resp.Error?
  {
    hide P.Replay;
    DoneIsLast(g, cn, req, P.AfterAppend(g, req, P.Open, false).resp, evs, P.Done(resp));
  }

  // ---------------------------------------------------- Answers and `ok`

  /** Some call of the request got this answer to the command it stands for. */
  ghost predicate GotAnswer(req: Request, evs: seq<Event>, ans: Answer) {
    !ans.Failed? && exists ev :: ev in evs && ev.Called? && MainCmd(req, ev.cmd) && ev.ans == ans
  }

  /** And the ciphertext it got was sealed with this signature. */
  predicate GotSeal(integrity: string, req: Request, evs: seq<Event>, ans: Answer, sig: seq<byte>)
    requires ans.Ciphertext?
  {
    Called(SealOf(integrity, req, ans.iv, ans.ct), Signature(sig)) in evs
  }

  /** `resp` passes this answer on. */
  ghost predicate PassesOn(integrity: string, req: Request, evs: seq<Event>, ans: Answer, resp: Response) {
    if ans.Ciphertext? then exists sig :: GotSeal(integrity, req, evs, ans, sig) && Carries(ans, sig, resp)
    else Carries(ans, [], resp)
  }

  /** The device answers each command in its own form. */
  predicate InForm(evs: seq<Event>) {
    forall ev :: ev in evs && ev.Called? && !ev.ans.Failed? ==> OfForm(ev.cmd, ev.ans)
  }

  predicate OfForm(cmd: Cmd, ans: Answer) {
    && (cmd.SignCmd? <==> ans.Signature?) && (cmd.VerifyCmd? <==> ans.Verdict?)
    && (cmd.Encrypts() <==> ans.Ciphertext?) && (cmd.Decrypts() <==> ans.Plaintext?)
  }

  /** The calls of an execution are all between the intent and the closing entry. */
  function CallsIn(evs: seq<Event>): seq<Event>
    requires |evs| >= 2
  {
    evs[1..|evs| - 1]
  }

  /** Whatever a line says, an `ok` is earned: the line is a request that is permitted and can be
      executed, its intent was written first, and the device gave the answer that is passed on. */
  lemma OkIsEarned(g: P.Settings, cn: string, parsed: Option<Request>, evs: seq<Event>, resp: Response)
    requires Told(g, cn, parsed, evs, resp) && resp.Ok?
    ensures parsed.Some? && P.Permitted(g, cn, parsed.value) && Executable(parsed.value)
    ensures evs != [] && IsEntry(evs[0], cn, parsed.value, Chain.Intent, "") && evs[0].ok
    ensures exists ans :: GotAnswer(parsed.value, evs, ans) && PassesOn(g.integrity, parsed.value, evs, ans, resp)
  {
    hide MainCmd, IsCheck, IsEntry, Base64.Encode, P.IntegrityPayload, Executable, P.Permitted;
    var req, calls := parsed.value, CallsIn(evs);
    if req.IntegrityInput().None? {
      WorkIsEarned(g.integrity, req, evs, calls, resp);
    } else {
      assert forall ev :: ev in calls[1..] ==> ev in calls;
      WorkIsEarned(g.integrity, req, evs, calls[1..], resp);
    }
  }

  lemma WorkIsEarned(integrity: string, req: Request, evs: seq<Event>, calls: seq<Event>, resp: Response)
    requires Works(integrity, req, calls, resp) && resp.Ok? && forall ev :: ev in calls ==> ev in evs
    ensures exists ans :: GotAnswer(req, evs, ans) && PassesOn(integrity, req, evs, ans, resp)
  {
    hide MainCmd, Base64.Encode, P.IntegrityPayload;
    var ans := calls[0].ans;
    assert calls[0] in evs && GotAnswer(req, evs, ans);
    if ans.Ciphertext? {
      assert calls[1] in evs && GotSeal(integrity, req, evs, ans, calls[1].ans.sig);
    }
    assert PassesOn(integrity, req, evs, ans, resp);
  }

  /** And what is earned is not withheld: an answer that the device gave to the command the request stands
      for is passed on, a ciphertext if it got sealed. */
  lemma AnswerIsPassedOn(g: P.Settings, cn: string, req: Request, evs: seq<Event>, resp: Response, ans: Answer)
    requires Story(g, cn, req, evs, resp) && InForm(evs) && GotAnswer(req, evs, ans)
    requires ans.Ciphertext? ==> exists sig :: GotSeal(g.integrity, req, evs, ans, sig)
    ensures resp.Ok? && PassesOn(g.integrity, req, evs, ans, resp)
  {
    hide MainCmd, IsCheck, Base64.Encode, P.IntegrityPayload, Executable, P.Permitted, IsEntry, IsClosing, GotAnswer, Works;
    OnlyCallsAnswer(g, cn, req, evs, resp, ans);
    var calls := CallsIn(evs);
    if req.IntegrityInput().None? {
      WorkIsPassedOn(g.integrity, req, evs, calls, resp, ans);
    } else {
      CheckIsNotMain(g.integrity, req, calls, ans);
      assert forall ev :: ev in calls[1..] ==> ev in calls;
      WorkIsPassedOn(g.integrity, req, evs, calls[1..], resp, ans);
    }
  }

  lemma OnlyCallsAnswer(g: P.Settings, cn: string, req: Request, evs: seq<Event>, resp: Response, ans: Answer)
    requires Story(g, cn, req, evs, resp) && GotAnswer(req, evs, ans)
    ensures |evs| >= 2 && P.Permitted(g, cn, req) && evs[0].Appended? && evs[0].ok
    ensures Executes(g.integrity, req, CallsIn(evs), resp) && GotAnswer(req, CallsIn(evs), ans)
    ensures forall ev :: ev in evs ==> ev in CallsIn(evs) || ev.Appended?
    ensures CallsIn(evs) != [] && forall ev :: ev in CallsIn(evs) ==> ev in evs
  {
    hide MainCmd, Executes, P.Permitted, OperationOf;
    forall ev | ev in evs ensures ev.Appended? || (|evs| >= 2 && ev in CallsIn(evs)) {
      var i :| 0 <= i < |evs| && evs[i] == ev;
      if 0 < i < |evs| - 1 {
        assert CallsIn(evs)[i - 1] == ev;
      }
    }
  }

  lemma CheckIsNotMain(integrity: string, req: Request, calls: seq<Event>, ans: Answer)
    requires calls != [] && calls[0].Called? && IsCheck(integrity, req, calls[0].cmd) && GotAnswer(req, calls, ans)
    ensures |calls| >= 2 && GotAnswer(req, calls[1..], ans)
    ensures forall x :: x in calls ==> x in calls[1..] || (x.Called? && !x.cmd.SignCmd?)
  {
    hide Base64.Decode, P.IntegrityPayload;
    var ev :| ev in calls && ev.Called? && MainCmd(req, ev.cmd) && ev.ans == ans;
    var i :| 0 <= i < |calls| && calls[i] == ev;
    assert i > 0 && calls[1..][i - 1] == ev;
    assert calls == [calls[0]] + calls[1..];
  }

  lemma WorkIsPassedOn(integrity: string, req: Request, evs: seq<Event>, calls: seq<Event>, resp: Response, ans: Answer)
    requires Works(integrity, req, calls, resp) && (forall ev :: ev in calls ==> ev in evs) && InForm(evs)
    requires (forall ev :: ev in evs ==> ev.Appended? || ev in calls || !ev.cmd.SignCmd?) && GotAnswer(req, calls, ans)
    requires ans.Ciphertext? ==> exists sig :: GotSeal(integrity, req, evs, ans, sig)
    ensures resp.Ok? && PassesOn(integrity, req, evs, ans, resp)
  {
    hide MainCmd, Base64.Encode, P.IntegrityPayload;
    var ev :| ev in calls && ev.Called? && MainCmd(req, ev.cmd) && ev.ans == ans;
    assert ev == calls[0] by { MainIsFirst(integrity, req, calls, resp, evs, ev); }
    if ans.Ciphertext? {
      var sig :| GotSeal(integrity, req, evs, ans, sig);
      assert Called(SealOf(integrity, req, ans.iv, ans.ct), Signature(sig)) == calls[1];
    }
  }

  lemma MainIsFirst(integrity: string, req: Request, calls: seq<Event>, resp: Response, evs: seq<Event>, ev: Event)
    requires Works(integrity, req, calls, resp) && (forall x :: x in calls ==> x in evs) && InForm(evs)
    requires ev in calls && ev.Called? && MainCmd(req, ev.cmd)
    ensures ev == calls[0]
  {
    hide Base64.Decode, Base64.Encode, P.IntegrityPayload;
    assert calls[0] in evs;
  }
}
