/** What one request does (src/server.rs), as an automaton: at each point it is about to append an
    audit entry, about to call the HSM, or done, and the answer it gets decides where it goes. */
module Pipeline {
  import opened Wrappers
  import opened Bytes
  import opened Protocol
  import opened Token
  import opened World
  import Config
  import Chain
  import Base64

  const INTEGRITY_DOMAIN := "pico-hsm-api-connector/integrity-v1"
  const MECH_ECDSA_SHA256 := "ecdsa_sha256"
  const MECH_AES_CBC_PAD := "aes_cbc_pad"
  const MECH_ECDH1_DERIVE := "ecdh1_derive"

  // --------------------------------------------------- Integrity payload

  function PayloadParts(keyLabel: string, iv: seq<byte>, ct: seq<byte>): seq<seq<byte>> {
    [Utf8(INTEGRITY_DOMAIN), Utf8(keyLabel), iv, ct]
  }

  /** What an integrity signature covers. */
  function IntegrityPayload(keyLabel: string, iv: seq<byte>, ct: seq<byte>): seq<byte> {
    EncodeParts(PayloadParts(keyLabel, iv, ct))
  }

  /** Sizes no Rust value reaches. */
  predicate Fits(keyLabel: string, iv: seq<byte>, ct: seq<byte>) {
    |Utf8(keyLabel)| < U64 && |iv| < U64 && |ct| < U64
  }

  lemma PartsFit(keyLabel: string, iv: seq<byte>, ct: seq<byte>)
    requires Fits(keyLabel, iv, ct)
    ensures Fit(PayloadParts(keyLabel, iv, ct))
  {
    hide Utf8;
    assert |INTEGRITY_DOMAIN| == 35;
  }

  /** What a reader of the payload finds: the domain separator, the label, the IV and the ciphertext. */
  lemma PayloadReads(keyLabel: string, iv: seq<byte>, ct: seq<byte>)
    requires Fits(keyLabel, iv, ct)
    ensures ParseParts(IntegrityPayload(keyLabel, iv, ct)) ==
      Some([Utf8("pico-hsm-api-connector/integrity-v1"), Utf8(keyLabel), iv, ct])
  {
    hide Utf8, ParseParts;
    PartsFit(keyLabel, iv, ct);
    ParseEncode(PayloadParts(keyLabel, iv, ct));
  }

  /** One payload belongs to one label, IV and ciphertext. */
  lemma PayloadInjective(l1: string, iv1: seq<byte>, ct1: seq<byte>, l2: string, iv2: seq<byte>, ct2: seq<byte>)
    requires Fits(l1, iv1, ct1) && Fits(l2, iv2, ct2)
    requires IntegrityPayload(l1, iv1, ct1) == IntegrityPayload(l2, iv2, ct2)
    ensures l1 == l2 && iv1 == iv2 && ct1 == ct2
  {
    hide Utf8;
    var x, y := PayloadParts(l1, iv1, ct1), PayloadParts(l2, iv2, ct2);
    PartsFit(l1, iv1, ct1);
    PartsFit(l2, iv2, ct2);
    EncodePartsInjective(x, y);
    assert x[1] == y[1] && x[2] == y[2] && x[3] == y[3];
    Utf8Injective(l1, l2);
  }

  // --------------------------------------------------------- Automaton

  /** The tables and the label of the gateway's own signing key. */
  datatype Settings = Settings(table: Config.Table, integrity: string)

  datatype Why = Main | Checking | Sealing(iv: seq<byte>, ct: seq<byte>)

  datatype Pc =
    | Refuse(reason: string)        // about to append `denied`, before any intent
    | Open                          // about to append `intent`
    | Call(cmd: Cmd, why: Why)      // about to call the HSM
    | Close(resp: Response)         // about to append the closing entry
    | Done(resp: Response)

  /** Steps 1 and 2 of `process_line`: parsing, authorization, and the peer-key allowlist. */
  function Begin(g: Settings, cn: string, parsed: Option<Request>): Pc {
    match parsed
    case None => Done(Error("invalid request"))
    case Some(req) =>
      if !Config.Authorized(g.table, cn, req.Op(), req.keyLabel) then Refuse("not authorized")
      else match req.PeerKey()
        case None => Open
        case Some(b64) =>
          if Base64.Decode(b64).None? then Refuse("invalid peer_public_key_b64")
          else if !Config.PeerAuthorized(g.table, cn, req.Op(), req.keyLabel, b64) then Refuse("peer key not allowlisted")
          else Open
  }

  /** The peer bytes handed to `execute`. */
  function PeerOf(req: Request): Option<seq<byte>> {
    match req.PeerKey() case None => None case Some(b64) => Base64.Decode(b64)
  }

  /** `unwrap_or_default`. */
  function OrEmpty(peer: Option<seq<byte>>): seq<byte> {
    match peer case None => [] case Some(bytes) => bytes
  }

  const BAD_BASE64 := Error("invalid base64 input")

  /** Where `execute` starts: an error found before any HSM call, or the first call. */
  function Start(g: Settings, req: Request, peer: Option<seq<byte>>): Pc {
    match req
    case SignRequest(name, mechanism, data) =>
      if mechanism != MECH_ECDSA_SHA256 then Close(Error("unsupported sign mechanism"))
      else (match Base64.Decode(data)
            case None => Close(BAD_BASE64)
            case Some(d) => Call(SignCmd(name, d), Main))
    case VerifyRequest(name, mechanism, data, sig) =>
      if mechanism != MECH_ECDSA_SHA256 then Close(Error("unsupported verify mechanism"))
      else (match (Base64.Decode(data), Base64.Decode(sig))
            case (Some(d), Some(s)) => Call(VerifyCmd(name, d, s), Main)
            case _ => Close(Error("invalid data_b64/signature_b64")))
    case EncryptRequest(name, mechanism, data) =>
      if mechanism != MECH_AES_CBC_PAD then Close(Error("unsupported encrypt mechanism"))
      else (match Base64.Decode(data)
            case None => Close(BAD_BASE64)
            case Some(d) => Call(EncryptCmd(name, d), Main))
    case DecryptRequest(name, mechanism, data, iv, integ) =>
      if mechanism != MECH_AES_CBC_PAD then Close(Error("unsupported decrypt mechanism"))
      else Check(g, name, data, iv, integ)
    case DeriveAndEncryptRequest(name, derive, target, _, data) =>
      if derive != MECH_ECDH1_DERIVE || target != MECH_AES_CBC_PAD then Close(Error("unsupported derive pair"))
      else (match Base64.Decode(data)
            case None => Close(BAD_BASE64)
            case Some(d) => Call(DeriveEncryptCmd(name, OrEmpty(peer), d), Main))
    case DeriveAndDecryptRequest(name, derive, target, _, iv, integ, data) =>
      if derive != MECH_ECDH1_DERIVE || target != MECH_AES_CBC_PAD then Close(Error("unsupported derive pair"))
      else Check(g, name, data, iv, integ)
  }

  /** Both decrypting requests verify the integrity signature before anything else. */
  function Check(g: Settings, name: string, data: string, iv: string, integ: string): Pc {
    match (Base64.Decode(data), Base64.Decode(iv), Base64.Decode(integ))
    case (Some(c), Some(i), Some(s)) => Call(VerifyCmd(g.integrity, IntegrityPayload(name, i, c), s), Checking)
    case _ => Close(Error("invalid data_b64/iv_b64/integrity_b64"))
  }

  /** The decrypt a verified request goes on to. */
  function DecryptCall(req: Request, peer: Option<seq<byte>>): Pc {
    match req.IntegrityInput()
    case None => Close(Error("decrypt request missing integrity fields"))
    case Some((ivB64, _, dataB64)) =>
      match (Base64.Decode(dataB64), Base64.Decode(ivB64))
      case (Some(ct), Some(iv)) =>
        if req.DecryptRequest? then Call(DecryptCmd(req.keyLabel, ct, iv), Main)
        else Call(DeriveDecryptCmd(req.keyLabel, OrEmpty(peer), ct, iv), Main)
      case _ => Close(Error("invalid data_b64/iv_b64/integrity_b64"))
  }

  /** After an HSM call answered. */
  function AfterCall(g: Settings, req: Request, peer: Option<seq<byte>>, cmd: Cmd, why: Why, ans: Answer): Pc {
    match why
    case Checking =>
      if ans == Verdict(true) then DecryptCall(req, peer)
      else Close(Denied("integrity check failed, ciphertext rejected"))
    case Sealing(iv, ct) =>
      (match ans
       case Signature(sig) =>
         Close(Ok(Some(Base64.Encode(ct)), None, Some(Base64.Encode(iv)), Some(Base64.Encode(sig))))
       case _ => Close(Error("integrity signing failed")))
    case Main =>
      match ans
      case Signature(sig) => Close(OkResult(Base64.Encode(sig)))
      case Verdict(valid) => Close(Ok(None, Some(valid), None, None))
      case Ciphertext(iv, ct) =>
        Call(SignCmd(g.integrity, IntegrityPayload(cmd.keyLabel, iv, ct)), Sealing(iv, ct))
      case Plaintext(pt) => Close(OkResult(Base64.Encode(pt)))
      case Failed => Close(Error("HSM call failed"))
  }

  predicate Logging(pc: Pc) {
    pc.Refuse? || pc.Open? || pc.Close?
  }

  /** Outcome and detail of the entry that is due. */
  function Due(pc: Pc): (Chain.Outcome, string)
    requires Logging(pc)
  {
    match pc
    case Refuse(reason) => (Chain.Denied, reason)
    case Open => (Chain.Intent, "")
    case Close(Ok(_, _, _, _)) => (Chain.Authorized, "")
    case Close(Denied(reason)) => (Chain.Denied, reason)
    case Close(Error(message)) => (Chain.Error, message)
  }

  /** After an append: only the intent is fail-closed, all other entries are best effort. */
  function AfterAppend(g: Settings, req: Request, pc: Pc, ok: bool): Pc
    requires Logging(pc)
  {
    match pc
    case Refuse(reason) => Done(Denied(reason))
    case Open => if ok then Start(g, req, PeerOf(req)) else Done(Error("audit log unavailable, request rejected"))
    case Close(resp) => Done(resp)
  }

  // ------------------------------------------------------------- Replay

  /** One event, if it is the one the automaton is waiting for. */
  function Advance(g: Settings, cn: string, req: Request, pc: Pc, e: Event): Option<Pc> {
    match e
    case Appended(c, op, name, outcome, detail, ok) =>
      if Logging(pc) && c == cn && op == OpName(req.Op()) && name == req.keyLabel && Due(pc) == (outcome, detail)
      then Some(AfterAppend(g, req, pc, ok)) else None
    case Called(cmd, ans) =>
      if pc.Call? && pc.cmd == cmd then Some(AfterCall(g, req, PeerOf(req), cmd, pc.why, ans)) else None
  }

  /** Where a request stands after these events. */
  function Replay(g: Settings, cn: string, req: Request, pc: Pc, evs: seq<Event>): Option<Pc> {
    if evs == [] then Some(pc)
    else match Replay(g, cn, req, pc, evs[..|evs| - 1])
      case None => None
      case Some(p) => Advance(g, cn, req, p, evs[|evs| - 1])
  }

  lemma ReplaySnoc(g: Settings, cn: string, req: Request, pc: Pc, evs: seq<Event>, e: Event)
    ensures Replay(g, cn, req, pc, evs + [e]) ==
      match Replay(g, cn, req, pc, evs) case None => None case Some(p) => Advance(g, cn, req, p, e)
  {
    assert (evs + [e])[..|evs|] == evs;
  }

  lemma ReplayOne(g: Settings, cn: string, req: Request, pc: Pc, e: Event)
    ensures Replay(g, cn, req, pc, [e]) == Advance(g, cn, req, pc, e)
  {
    assert [e] == [] + [e];
    ReplaySnoc(g, cn, req, pc, [], e);
  }

  lemma {:induction false} ReplayConcat(g: Settings, cn: string, req: Request, pc: Pc, a: seq<Event>, b: seq<Event>)
    ensures Replay(g, cn, req, pc, a + b) ==
      match Replay(g, cn, req, pc, a) case None => None case Some(p) => Replay(g, cn, req, p, b)
  {
    if b == [] {
      assert a + b == a;
    } else {
      var init, e := b[..|b| - 1], b[|b| - 1];
      assert a + b == (a + init) + [e] && b == init + [e];
      ReplayConcat(g, cn, req, pc, a, init);
      ReplaySnoc(g, cn, req, pc, a + init, e);
    }
  }

  /** These events are a whole run of the automaton for this line, ending in this response. */
  predicate Serves(g: Settings, cn: string, parsed: Option<Request>, evs: seq<Event>, resp: Response) {
    match parsed
    case None => evs == [] && Begin(g, cn, None) == Done(resp)
    case Some(req) => Replay(g, cn, req, Begin(g, cn, parsed), evs) == Some(Done(resp))
  }

  // ----------------------------------------------------------- Decision

  /** The request passed authorization and the peer-key check. */
  predicate Permitted(g: Settings, cn: string, req: Request) {
    Begin(g, cn, Some(req)).Open?
  }

  /** These events include an HSM call. */
  predicate CallsHsm(evs: seq<Event>) {
    exists i :: 0 <= i < |evs| && evs[i].Called?
  }

  lemma Shapes(g: Settings, req: Request, peer: Option<seq<byte>>, cmd: Cmd, why: Why, ans: Answer)
    ensures Start(g, req, peer).Call? || Start(g, req, peer).Close?
    ensures AfterCall(g, req, peer, cmd, why, ans).Call? || AfterCall(g, req, peer, cmd, why, ans).Close?
  {
  }

  lemma BeginShape(g: Settings, cn: string, parsed: Option<Request>)
    ensures var pc := Begin(g, cn, parsed); pc.Done? || pc.Refuse? || pc.Open?
  {
  }

  /** What one event does to the question whether the request is being executed. */
  lemma AdvanceShape(g: Settings, cn: string, req: Request, q: Pc, e: Event, p: Pc)
    requires Advance(g, cn, req, q, e) == Some(p)
    ensures !p.Open? && !p.Refuse?
    ensures e.Called? <==> q.Call?
    ensures p.Call? || p.Close? <==>
      q.Call? || (q.Open? && e == Appended(cn, OpName(req.Op()), req.keyLabel, Chain.Intent, "", true))
  {
    hide Start, AfterCall, OpName;
    match e
    case Called(cmd, ans) => Shapes(g, req, PeerOf(req), cmd, q.why, ans);
    case Appended(_, _, _, _, _, _) => Shapes(g, req, PeerOf(req), SignCmd("", []), Main, Failed);
  }

  /** A request is executed, with whatever HSM calls that takes, exactly when it was permitted and
      its intent was written before anything else. */
  lemma {:induction false} IntentFirst(g: Settings, cn: string, req: Request, evs: seq<Event>, p: Pc)
    requires Replay(g, cn, req, Begin(g, cn, Some(req)), evs) == Some(p)
    ensures p.Call? || p.Close? || CallsHsm(evs) ==>
      Permitted(g, cn, req) && evs != []
      && evs[0] == Appended(cn, OpName(req.Op()), req.keyLabel, Chain.Intent, "", true)
    ensures p.Open? || p.Refuse? ==> evs == []
    ensures p.Open? ==> Permitted(g, cn, req)
  {
    hide Start, AfterCall, OpName, Begin, Advance;
    BeginShape(g, cn, Some(req));
    if evs != [] {
      var n := |evs| - 1;
      var init, e := evs[..n], evs[n];
      var q := Replay(g, cn, req, Begin(g, cn, Some(req)), init).value;
      IntentFirst(g, cn, req, init, q);
      AdvanceShape(g, cn, req, q, e, p);
      assert forall i :: 0 <= i < n ==> evs[i] == init[i];
    }
  }
}
