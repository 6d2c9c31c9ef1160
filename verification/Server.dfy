/** The gateway object (src/server.rs): the request pipeline over the shared log and HSM, and the
    line loop of a connection. */
module Server {
  import opened Wrappers
  import opened Bytes
  import opened Protocol
  import opened Text
  import opened Token
  import opened World
  import opened Pipeline
  import Chain
  import Config
  import Base64
  import LogFile
  import Hsm
  import Json
  import Replies

  // ------------------------------------------------------------ Framing

  /** The lines a connection answers: those that are not blank. */
  function NonBlank(lines: seq<string>): seq<string> {
    if lines == [] then []
    else
      var n := |lines| - 1;
      NonBlank(lines[..n]) + if Blank(lines[n]) then [] else [lines[n]]
  }

  /** Responses as they go out, one per line. */
  function Frames(rs: seq<Response>): (r: string)
    ensures Terminated(r)
  {
    if rs == [] then "" else Frames(rs[..|rs| - 1]) + Wire(rs[|rs| - 1]) + "\n"
  }

  function Wires(rs: seq<Response>): seq<string> {
    if rs == [] then [] else Wires(rs[..|rs| - 1]) + [Wire(rs[|rs| - 1])]
  }

  lemma WireIsOneLine(r: Response)
    ensures Lines(Wire(r) + "\n") == [Wire(r)]
  {
    hide Members, Lines;
    var w := Wire(r);
    Json.PrintPlain(Members(r));
    assert w[|w| - 1] in w;
    OneLine(w);
  }

  /** Splitting the output at line breaks gives the responses back, one for one. */
  lemma {:induction false} FramesSplit(rs: seq<Response>)
    ensures Lines(Frames(rs)) == Wires(rs)
  {
    if rs == [] {
      assert Lines("") == [];
    } else {
      hide Wire, Lines;
      var init, r := rs[..|rs| - 1], rs[|rs| - 1];
      FramesSplit(init);
      WireIsOneLine(r);
      LinesAppend(Frames(init), Wire(r) + "\n");
      Assoc(Frames(init), Wire(r), "\n");
    }
  }

  lemma {:induction false} WiresInjective(a: seq<Response>, b: seq<Response>)
    requires Wires(a) == Wires(b)
    ensures a == b
  {
    hide Wire;
    if a != [] && b != [] {
      var m, n := |a| - 1, |b| - 1;
      var x, y := Wires(a[..m]), Wires(b[..n]);
      assert Wires(a)[..|Wires(a)| - 1] == x && Wires(b)[..|Wires(b)| - 1] == y;
      assert Wires(a)[|x|] == Wire(a[m]) && Wires(b)[|y|] == Wire(b[n]);
      WireInjective(a[m], b[n]);
      WiresInjective(a[..m], b[..n]);
      assert a == a[..m] + [a[m]] && b == b[..n] + [b[n]];
    }
  }

  /** So the bytes on the wire determine the responses. */
  lemma FramesInjective(a: seq<Response>, b: seq<Response>)
    requires Frames(a) == Frames(b)
    ensures a == b
  {
    FramesSplit(a);
    FramesSplit(b);
    WiresInjective(a, b);
  }

  // ------------------------------------------------------------ Answers

  function Flatten(evss: seq<seq<Event>>): seq<Event> {
    if evss == [] then [] else Flatten(evss[..|evss| - 1]) + evss[|evss| - 1]
  }

  /** A reader of output that broke off in the middle of a frame still gets the whole responses. */
  lemma CutFrames(rs: seq<Response>, part: string)
    ensures Wires(rs) <= Lines(Frames(rs) + part)
  {
    hide Lines, Wires, Frames;
    FramesSplit(rs);
    LinesAppend(Frames(rs), part);
  }

  class Gateway {
    const authz: Config.AuthzTable
    const audit: LogFile.AuditLog
    const hsm: Hsm.HsmClient
    const integrity: string
    const maxCertValidityDays: int
    const certExpiryWarnDays: int
    /** The JSON reading of a request line; `None` is a malformed line. */
    const parse: string -> Option<Request>

    constructor (authz: Config.AuthzTable, hsm: Hsm.HsmClient, audit: LogFile.AuditLog, integrity: string,
                 maxCertValidityDays: int, certExpiryWarnDays: int, parse: string -> Option<Request>)
      ensures this.authz == authz && this.hsm == hsm && this.audit == audit && this.integrity == integrity
      ensures this.maxCertValidityDays == maxCertValidityDays && this.certExpiryWarnDays == certExpiryWarnDays
      ensures this.parse == parse
    {
      this.authz, this.hsm, this.audit, this.integrity := authz, hsm, audit, integrity;
      this.maxCertValidityDays, this.certExpiryWarnDays := maxCertValidityDays, certExpiryWarnDays;
      this.parse := parse;
    }

    function Settings(): Settings
      reads authz
    {
      Pipeline.Settings(authz.Value(), integrity)
    }

    ghost predicate Ready()
      reads hsm.device
    {
      hsm.device.Valid() && hsm.history == audit.history
    }

    method Now() returns (ts: string) {
      ts := *;
    }

    /** Serve one parsed or malformed line. The recorded events are exactly a run of the automaton:
        authorization, peer check, intent, HSM calls, closing entry, in that order. */
    method ProcessLine(cn: string, line: string) returns (resp: Response)
      requires Ready()
      modifies audit, audit.file, hsm.history, hsm.device
      ensures Ready() && hsm.device.objects == old(hsm.device.objects)
      ensures old(audit.Valid()) ==> audit.Valid()
      ensures old(hsm.history.events) <= hsm.history.events
      ensures Replied(Settings(), cn, parse(line), hsm.history.events[|old(hsm.history.events)|..], resp)
      ensures parse(line).None? ==> resp.Error? && hsm.history.events == old(hsm.history.events)
    {
      hide Base64.Decode, Replay, Start, AfterCall, LogFile.LineOf, LogFile.VerifyText, Chain.Seal, Terminated, OpName,
        Config.Authorized, Config.PeerAuthorized, LogFile.Do, Replies.Story;
      ghost var before := hsm.history.events;
      var parsed := parse(line);
      if parsed.None? {
        return Error("invalid request");
      }
      var req := parsed.value;
      var op := req.Op();
      var name := req.keyLabel;

      // 1. Authorization, before any session is opened
      if !authz.IsAuthorized(cn, op, name) {
        resp := Log(cn, req, Refuse("not authorized"));
        Replies.ServedAsTold(Settings(), cn, Some(req), hsm.history.events[|before|..], resp);
        return;
      }

      // 2. Peer-key allowlist for derive operations
      var peerKey: Option<seq<byte>> := None;
      var b64 := req.PeerKey();
      if b64.Some? {
        var bytes := Base64.Decode(b64.value);
        if bytes.None? {
          resp := Log(cn, req, Refuse("invalid peer_public_key_b64"));
          Replies.ServedAsTold(Settings(), cn, Some(req), hsm.history.events[|before|..], resp);
          return;
        }
        if !authz.IsPeerKeyAuthorized(cn, op, name, b64.value) {
          resp := Log(cn, req, Refuse("peer key not allowlisted"));
          Replies.ServedAsTold(Settings(), cn, Some(req), hsm.history.events[|before|..], resp);
          return;
        }
        peerKey := bytes;
      }

      // 3. Intent, fail-closed
      var ts := Now();
      var written := audit.Append(ts, cn, OpName(op), name, Chain.Intent, "");
      DidAppend(cn, req, Open, written, before);
      if !written {
        resp := Error("audit log unavailable, request rejected");
        Replies.ServedAsTold(Settings(), cn, Some(req), hsm.history.events[|before|..], resp);
        return;
      }

      // 4. Execute
      ghost var mid := hsm.history.events;
      resp := Execute(cn, req, peerKey);
      DidThen(cn, req, Open, before, mid, hsm.history.events, Close(resp));

      // 5. Closing entry
      mid := hsm.history.events;
      var final := Log(cn, req, Close(resp));
      DidThen(cn, req, Open, before, mid, hsm.history.events, Done(resp));
      Replies.ServedAsTold(Settings(), cn, Some(req), hsm.history.events[|before|..], resp);
    }

    /** A refusal or a closing entry is logged best effort, and the response goes out either way. */
    method Log(cn: string, req: Request, pc: Pc) returns (resp: Response)
      requires Ready() && (pc.Refuse? || pc.Close?)
      modifies audit, audit.file, hsm.history
      ensures old(audit.Valid()) ==> audit.Valid()
      ensures resp == if pc.Refuse? then Denied(pc.reason) else pc.resp
      ensures Did(cn, req, pc, old(hsm.history.events), hsm.history.events, Done(resp))
    {
      hide LogFile.LineOf, LogFile.VerifyText, Chain.Seal, Replay;
      ghost var before := hsm.history.events;
      var ts := Now();
      var due := Due(pc);
      var written := audit.Append(ts, cn, OpName(req.Op()), req.keyLabel, due.0, due.1);
      DidAppend(cn, req, pc, written, before);
      return if pc.Refuse? then Denied(pc.reason) else pc.resp;
    }

    /** Run the request on the HSM. */
    method Execute(cn: string, req: Request, peer: Option<seq<byte>>) returns (resp: Response)
      requires Ready() && peer == PeerOf(req)
      modifies hsm.history, hsm.device
      ensures Ready() && hsm.device.objects == old(hsm.device.objects)
      ensures old(hsm.history.events) <= hsm.history.events
      ensures Did(cn, req, Start(Settings(), req, peer), old(hsm.history.events), hsm.history.events, Close(resp))
    {
      hide Base64.Decode, Base64.Encode, Replay, IntegrityPayload, Token.Answers;
      ghost var before, s0 := hsm.history.events, hsm.device.signed;
      DidNothing(cn, req, Start(Settings(), req, peer), before);
      match req {
        case SignRequest(name, mechanism, dataB64) =>
          if mechanism != MECH_ECDSA_SHA256 {
            return Error("unsupported sign mechanism");
          }
          var data := Base64.Decode(dataB64);
          if data.None? {
            return BAD_BASE64;
          }
          var ans := hsm.SignEcdsaSha256(name, data.value);
          DidOne(cn, req, SignCmd(name, data.value), Main, ans, before, s0);
          return if ans.Signature? then OkResult(Base64.Encode(ans.sig)) else Error("HSM call failed");
        case VerifyRequest(name, mechanism, dataB64, signatureB64) =>
          if mechanism != MECH_ECDSA_SHA256 {
            return Error("unsupported verify mechanism");
          }
          var data, sig := Base64.Decode(dataB64), Base64.Decode(signatureB64);
          if data.None? || sig.None? {
            return Error("invalid data_b64/signature_b64");
          }
          var ans := hsm.VerifyEcdsaSha256(name, data.value, sig.value);
          DidOne(cn, req, VerifyCmd(name, data.value, sig.value), Main, ans, before, s0);
          return if ans.Verdict? then Ok(None, Some(ans.valid), None, None) else Error("HSM call failed");
        case EncryptRequest(name, mechanism, dataB64) =>
          if mechanism != MECH_AES_CBC_PAD {
            return Error("unsupported encrypt mechanism");
          }
          var data := Base64.Decode(dataB64);
          if data.None? {
            return BAD_BASE64;
          }
          var ans := hsm.EncryptAesCbcPad(name, data.value);
          ghost var cmd := EncryptCmd(name, data.value);
          DidOne(cn, req, cmd, Main, ans, before, s0);
          if !ans.Ciphertext? {
            return Error("HSM call failed");
          }
          ghost var mid := hsm.history.events;
          resp := SealResponse(cn, req, name, ans.iv, ans.ct);
          DidThen(cn, req, Call(cmd, Main), before, mid, hsm.history.events, Close(resp));
        case DecryptRequest(name, mechanism, dataB64, ivB64, integrityB64) =>
          if mechanism != MECH_AES_CBC_PAD {
            return Error("unsupported decrypt mechanism");
          }
          resp := CheckedDecrypt(cn, req, peer);
        case DeriveAndEncryptRequest(name, derive, target, _, dataB64) =>
          if derive != MECH_ECDH1_DERIVE || target != MECH_AES_CBC_PAD {
            return Error("unsupported derive pair");
          }
          var data := Base64.Decode(dataB64);
          if data.None? {
            return BAD_BASE64;
          }
          var ans := hsm.DeriveAndEncrypt(name, OrEmpty(peer), data.value);
          ghost var cmd := DeriveEncryptCmd(name, OrEmpty(peer), data.value);
          DidOne(cn, req, cmd, Main, ans, before, s0);
          if !ans.Ciphertext? {
            return Error("HSM call failed");
          }
          ghost var mid := hsm.history.events;
          resp := SealResponse(cn, req, name, ans.iv, ans.ct);
          DidThen(cn, req, Call(cmd, Main), before, mid, hsm.history.events, Close(resp));
        case DeriveAndDecryptRequest(name, derive, target, _, ivB64, integrityB64, dataB64) =>
          if derive != MECH_ECDH1_DERIVE || target != MECH_AES_CBC_PAD {
            return Error("unsupported derive pair");
          }
          resp := CheckedDecrypt(cn, req, peer);
      }
    }

    /** The decrypting branches: integrity before decrypt. */
    method CheckedDecrypt(cn: string, req: Request, peer: Option<seq<byte>>) returns (resp: Response)
      requires Ready() && peer == PeerOf(req) && req.IntegrityInput().Some?
      modifies hsm.history, hsm.device
      ensures Ready() && hsm.device.objects == old(hsm.device.objects)
      ensures old(hsm.history.events) <= hsm.history.events
      ensures Did(cn, req, Check(Settings(), req.keyLabel, req.dataB64, req.ivB64, req.integrityB64),
                  old(hsm.history.events), hsm.history.events, Close(resp))
    {
      hide Base64.Decode, Base64.Encode, Replay, IntegrityPayload, Token.Answers;
      ghost var before, s0 := hsm.history.events, hsm.device.signed;
      ghost var check := Check(Settings(), req.keyLabel, req.dataB64, req.ivB64, req.integrityB64);
      DidNothing(cn, req, check, before);
      var ct, iv, sig := Base64.Decode(req.dataB64), Base64.Decode(req.ivB64), Base64.Decode(req.integrityB64);
      if ct.None? || iv.None? || sig.None? {
        return Error("invalid data_b64/iv_b64/integrity_b64");
      }
      var ok := CheckIntegrity(cn, req, req.keyLabel, iv.value, ct.value, sig.value);
      if !ok {
        return Denied("integrity check failed, ciphertext rejected");
      }
      ghost var mid := hsm.history.events;
      s0 := hsm.device.signed;
      if req.DecryptRequest? {
        var ans := hsm.DecryptAesCbcPad(req.keyLabel, ct.value, iv.value);
        DidOne(cn, req, DecryptCmd(req.keyLabel, ct.value, iv.value), Main, ans, mid, s0);
        resp := if ans.Plaintext? then OkResult(Base64.Encode(ans.pt)) else Error("HSM call failed");
      } else {
        var ans := hsm.DeriveAndDecrypt(req.keyLabel, OrEmpty(peer), ct.value, iv.value);
        DidOne(cn, req, DeriveDecryptCmd(req.keyLabel, OrEmpty(peer), ct.value, iv.value), Main, ans, mid, s0);
        resp := if ans.Plaintext? then OkResult(Base64.Encode(ans.pt)) else Error("HSM call failed");
      }
      DidThen(cn, req, check, before, mid, hsm.history.events, Close(resp));
    }

    /** Sign label, IV and ciphertext; without a signature no ciphertext goes out. */
    method SealResponse(cn: string, req: Request, name: string, iv: seq<byte>, ct: seq<byte>) returns (resp: Response)
      requires Ready()
      modifies hsm.history, hsm.device
      ensures Ready() && hsm.device.objects == old(hsm.device.objects)
      ensures old(hsm.history.events) <= hsm.history.events
      ensures Did(cn, req, Call(SignCmd(integrity, IntegrityPayload(name, iv, ct)), Sealing(iv, ct)),
                  old(hsm.history.events), hsm.history.events, Close(resp))
    {
      hide Base64.Encode, Replay, EncodeParts, Utf8, Token.Answers;
      ghost var before, s0 := hsm.history.events, hsm.device.signed;
      var payload := FeedParts(PayloadParts(name, iv, ct));
      var ans := hsm.SignEcdsaSha256(integrity, payload);
      DidOne(cn, req, SignCmd(integrity, payload), Sealing(iv, ct), ans, before, s0);
      if !ans.Signature? {
        return Error("integrity signing failed");
      }
      return Ok(Some(Base64.Encode(ct)), None, Some(Base64.Encode(iv)), Some(Base64.Encode(ans.sig)));
    }

    /** Any error, and any signature that does not verify, is a rejection. */
    method CheckIntegrity(cn: string, req: Request, name: string, iv: seq<byte>, ct: seq<byte>, sig: seq<byte>)
      returns (ok: bool)
      requires Ready()
      modifies hsm.history, hsm.device
      ensures Ready() && hsm.device.objects == old(hsm.device.objects)
      ensures old(hsm.history.events) <= hsm.history.events
      ensures Did(cn, req, Call(VerifyCmd(integrity, IntegrityPayload(name, iv, ct), sig), Checking),
                  old(hsm.history.events), hsm.history.events,
                  if ok then DecryptCall(req, PeerOf(req)) else Close(Denied("integrity check failed, ciphertext rejected")))
    {
      hide Replay, EncodeParts, Utf8, Token.Answers, DecryptCall;
      ghost var before, s0 := hsm.history.events, hsm.device.signed;
      var payload := FeedParts(PayloadParts(name, iv, ct));
      var ans := hsm.VerifyEcdsaSha256(integrity, payload, sig);
      DidOne(cn, req, VerifyCmd(integrity, payload, sig), Checking, ans, before, s0);
      return ans == Verdict(true);
    }

    /** The events from `was` to `now` lead from one point of the automaton to another. */
    ghost predicate Did(cn: string, req: Request, from: Pc, was: seq<Event>, now: seq<Event>, to: Pc)
      reads authz
    {
      was <= now && Replay(Settings(), cn, req, from, now[|was|..]) == Some(to)
    }

    lemma DidNothing(cn: string, req: Request, pc: Pc, was: seq<Event>)
      ensures Did(cn, req, pc, was, was, pc)
    {
      assert was[|was|..] == [];
    }

    lemma DidOne(cn: string, req: Request, cmd: Cmd, why: Why, ans: Answer, was: seq<Event>, s0: Signed)
      requires Token.Answers(hsm.device.c, hsm.device.objects, s0, cmd, ans, hsm.device.signed)
      ensures ans.Failed? || (
        && (cmd.SignCmd? <==> ans.Signature?) && (cmd.VerifyCmd? <==> ans.Verdict?)
        && (cmd.Encrypts() <==> ans.Ciphertext?) && (cmd.Decrypts() <==> ans.Plaintext?))
      ensures Did(cn, req, Call(cmd, why), was, was + [Called(cmd, ans)],
                  AfterCall(Settings(), req, PeerOf(req), cmd, why, ans))
    {
      hide Replay, AfterCall, Token.Answers;
      if !ans.Failed? {
        AnswerShape(hsm.device.c, hsm.device.objects, s0, cmd, ans, hsm.device.signed);
      }
      var e := Called(cmd, ans);
      assert (was + [e])[|was|..] == [e];
      ReplayOne(Settings(), cn, req, Call(cmd, why), e);
    }

    lemma DidAppend(cn: string, req: Request, pc: Pc, ok: bool, was: seq<Event>)
      requires Logging(pc)
      ensures Did(cn, req, pc, was,
                  was + [Appended(cn, OpName(req.Op()), req.keyLabel, Due(pc).0, Due(pc).1, ok)],
                  AfterAppend(Settings(), req, pc, ok))
    {
      hide Replay, AfterAppend, Due, OpName;
      var e := Appended(cn, OpName(req.Op()), req.keyLabel, Due(pc).0, Due(pc).1, ok);
      assert (was + [e])[|was|..] == [e];
      ReplayOne(Settings(), cn, req, pc, e);
    }

    lemma DidThen(cn: string, req: Request, from: Pc, was: seq<Event>, mid: seq<Event>, now: seq<Event>, to: Pc)
      requires was <= mid <= now && Replay(Settings(), cn, req, from, mid[|was|..]).Some?
      requires var p := Replay(Settings(), cn, req, from, mid[|was|..]).value; Did(cn, req, p, mid, now, to)
      ensures Did(cn, req, from, was, now, to)
    {
      hide Replay;
      assert now[|was|..] == mid[|was|..] + now[|mid|..];
      ReplayConcat(Settings(), cn, req, from, mid[|was|..], now[|mid|..]);
    }

    // ------------------------------------------------------- Connection

    /** The certificate policy, enforced once per connection; its log entries are best effort. */
    method CertPolicy(cn: string, validityDays: int, daysLeft: int) returns (accepted: bool, ghost policy: seq<Event>)
      modifies audit, audit.file, hsm.history
      requires Ready()
      ensures old(audit.Valid()) ==> audit.Valid()
      ensures accepted <==> validityDays <= maxCertValidityDays
      ensures hsm.history.events == old(hsm.history.events) + policy
      ensures |policy| == if !accepted || daysLeft <= certExpiryWarnDays then 1 else 0
      ensures forall e :: e in policy ==>
        e.Appended? && e.cn == cn && e.op == "connect" && e.keyLabel == ""
        && e.outcome == (if accepted then Chain.CertExpiringSoon else Chain.Denied)
        && (!accepted ==> e.detail == "cert_policy_violation: validity exceeds maximum")
    {
      hide LogFile.LineOf, LogFile.VerifyText, Chain.Seal;
      policy := [];
      if validityDays > maxCertValidityDays {
        var ts := Now();
        var done := audit.Append(ts, cn, "connect", "", Chain.Denied, "cert_policy_violation: validity exceeds maximum");
        policy := [Appended(cn, "connect", "", Chain.Denied, "cert_policy_violation: validity exceeds maximum", done)];
        return false, policy;
      }
      if daysLeft <= certExpiryWarnDays {
        var ts := Now();
        var done := audit.Append(ts, cn, "connect", "", Chain.CertExpiringSoon, "expires soon");
        policy := [Appended(cn, "connect", "", Chain.CertExpiringSoon, "expires soon", done)];
      }
      return true, policy;
    }

    /** Serve a connection: the certificate policy, then line by line until the input ends or a write
        fails. Every non-blank line served, malformed or not, is answered by one response, in order;
        all responses go out but possibly the last, of which a failed write sent some part. */
    method HandleConnection(cn: string, validityDays: int, daysLeft: int, lines: seq<string>)
      returns (accepted: bool, out: string, ghost rs: seq<Response>, ghost evss: seq<seq<Event>>,
               ghost sent: nat, ghost part: string, ghost policy: seq<Event>)
      requires Ready()
      modifies audit, audit.file, hsm.history, hsm.device
      ensures Ready() && hsm.device.objects == old(hsm.device.objects)
      ensures old(audit.Valid()) ==> audit.Valid()
      ensures accepted <==> validityDays <= maxCertValidityDays
      ensures hsm.history.events == old(hsm.history.events) + policy + Flatten(evss)
      ensures forall e :: e in policy ==> e.Appended? && e.op == "connect" && e.outcome != Chain.Intent
      ensures AllServed(Settings(), cn, parse, NonBlank(lines), evss, rs)
      ensures sent <= |rs| <= sent + 1 && out == Frames(rs[..sent]) + part
      ensures if sent < |rs| then part <= Wire(rs[sent]) + "\n" else part == ""
      ensures if accepted then sent == |rs| ==> |rs| == |NonBlank(lines)| else rs == []
    {
      NothingServed(Settings(), cn, parse, lines);
      hide Wire, Blank, Begin, LogFile.LineOf, LogFile.VerifyText, Chain.Seal, Replied, Terminated,
        AllServed, NonBlank, Frames, Flatten, LogFile.Do, LogFile.Agrees;
      out, rs, evss, sent, part := "", [], [], 0, "";
      accepted, policy := CertPolicy(cn, validityDays, daysLeft);
      ghost var start := hsm.history.events;
      if !accepted {
        return;
      }
      for i := 0 to |lines|
        invariant Ready() && hsm.device.objects == old(hsm.device.objects)
        invariant old(audit.Valid()) ==> audit.Valid()
        invariant hsm.history.events == start + Flatten(evss)
        invariant AllServed(Settings(), cn, parse, NonBlank(lines[..i]), evss, rs)
        invariant sent == |rs| == |NonBlank(lines[..i])| && out == Frames(rs) && part == ""
      {
        NonBlankNext(lines, i);
        if Blank(lines[i]) {
          continue;
        }
        ghost var was := hsm.history.events;
        var resp := ProcessLine(cn, lines[i]);
        ghost var evs := hsm.history.events[|was|..];
        ServedOneMore(Settings(), cn, parse, NonBlank(lines[..i]), lines[i], evss, evs, rs, resp);
        assert hsm.history.events == was + evs;
        evss, rs := evss + [evs], rs + [resp];
        ServedMore(Settings(), cn, parse, NonBlank(lines[..i + 1]), NonBlank(lines), evss, rs);
        var frame := Wire(resp) + "\n";
        var ok: bool := *;
        if !ok {
          var through: nat :| through <= |frame|;
          part := frame[..through];
          assert rs[..sent] == rs[..|rs| - 1];
          out := out + frame[..through];
          return;
        }
        out := out + frame;
        sent := sent + 1;
        assert rs[..|rs| - 1] + [resp] == rs;
      }
      assert lines[..|lines|] == lines && rs[..sent] == rs;
    }
  }

  /** The k-th response answers the k-th line asked, by the k-th run of events. */
  predicate AllServed(g: Settings, cn: string, parse: string -> Option<Request>, asked: seq<string>,
                      evss: seq<seq<Event>>, rs: seq<Response>)
  {
    |evss| == |rs| <= |asked| && forall k :: 0 <= k < |rs| ==> Replied(g, cn, parse(asked[k]), evss[k], rs[k])
  }

  /** By a run of the automaton, which is a story with all that it promises. */
  predicate Replied(g: Settings, cn: string, parsed: Option<Request>, evs: seq<Event>, resp: Response) {
    Serves(g, cn, parsed, evs, resp) && Replies.Told(g, cn, parsed, evs, resp)
  }

  /** So on a connection a malformed line is answered with an error and does nothing, and an `ok` is
      earned by a permitted request with its intent written first and an answer of the device. */
  lemma ConnectionEarns(g: Settings, cn: string, parse: string -> Option<Request>, asked: seq<string>,
                        evss: seq<seq<Event>>, rs: seq<Response>, k: nat)
    requires AllServed(g, cn, parse, asked, evss, rs) && k < |rs|
    ensures parse(asked[k]).None? ==> rs[k].Error? && evss[k] == []
    ensures rs[k].Ok? ==>
      && parse(asked[k]).Some? && Permitted(g, cn, parse(asked[k]).value) && Replies.Executable(parse(asked[k]).value)
      && evss[k] != [] && Replies.IsEntry(evss[k][0], cn, parse(asked[k]).value, Chain.Intent, "") && evss[k][0].ok
      && exists ans :: Replies.GotAnswer(parse(asked[k]).value, evss[k], ans)
                       && Replies.PassesOn(g.integrity, parse(asked[k]).value, evss[k], ans, rs[k])
  {
    hide Serves, Replies.Story;
    assert Replied(g, cn, parse(asked[k]), evss[k], rs[k]);
    if rs[k].Ok? {
      Replies.OkIsEarned(g, cn, parse(asked[k]), evss[k], rs[k]);
    }
  }

  lemma ServedOneMore(g: Settings, cn: string, parse: string -> Option<Request>, asked: seq<string>, line: string,
                      evss: seq<seq<Event>>, evs: seq<Event>, rs: seq<Response>, r: Response)
    requires AllServed(g, cn, parse, asked, evss, rs) && |rs| == |asked|
    requires Replied(g, cn, parse(line), evs, r)
    ensures AllServed(g, cn, parse, asked + [line], evss + [evs], rs + [r])
    ensures Flatten(evss + [evs]) == Flatten(evss) + evs
    ensures Frames(rs + [r]) == Frames(rs) + (Wire(r) + "\n")
  {
    hide Replied, Wire;
    Assoc(Frames(rs), Wire(r), "\n");
    assert (evss + [evs])[..|evss|] == evss;
    assert (rs + [r])[..|rs|] == rs;
  }

  lemma ServedMore(g: Settings, cn: string, parse: string -> Option<Request>, asked: seq<string>, all: seq<string>,
                   evss: seq<seq<Event>>, rs: seq<Response>)
    requires AllServed(g, cn, parse, asked, evss, rs) && asked <= all
    ensures AllServed(g, cn, parse, all, evss, rs)
  {
    hide Replied;
  }

  lemma NothingServed(g: Settings, cn: string, parse: string -> Option<Request>, lines: seq<string>)
    ensures AllServed(g, cn, parse, NonBlank(lines), [], [])
    ensures NonBlank(lines[..0]) == [] && AllServed(g, cn, parse, NonBlank(lines[..0]), [], [])
    ensures Flatten([]) == [] && Frames([]) == ""
  {
  }

  lemma NonBlankNext(lines: seq<string>, i: nat)
    requires i < |lines|
    ensures Blank(lines[i]) ==> NonBlank(lines[..i + 1]) == NonBlank(lines[..i])
    ensures !Blank(lines[i]) ==> NonBlank(lines[..i + 1]) == NonBlank(lines[..i]) + [lines[i]]
    ensures NonBlank(lines[..i + 1]) <= NonBlank(lines)
  {
    assert lines[..i + 1][..i] == lines[..i];
    NonBlankPrefix(lines, i + 1);
  }

  lemma {:induction false} NonBlankPrefix(lines: seq<string>, n: nat)
    requires n <= |lines|
    ensures NonBlank(lines[..n]) <= NonBlank(lines)
  {
    if n < |lines| {
      var init := lines[..|lines| - 1];
      NonBlankPrefix(init, n);
      assert init[..n] == lines[..n];
    } else {
      assert lines[..n] == lines;
    }
  }
}
