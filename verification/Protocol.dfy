/** Requests and responses (src/protocol.rs) and the operation names (src/config.rs, src/server.rs). */
module Protocol {
  import opened Wrappers
  import opened Bytes
  import Json

  datatype Operation = Sign | Verify | Encrypt | Decrypt | DeriveAndEncrypt | DeriveAndDecrypt

  predicate IsDerive(op: Operation) {
    op.DeriveAndEncrypt? || op.DeriveAndDecrypt?
  }

  function OpName(op: Operation): string {
    match op
    case Sign => "sign"
    case Verify => "verify"
    case Encrypt => "encrypt"
    case Decrypt => "decrypt"
    case DeriveAndEncrypt => "derive_and_encrypt"
    case DeriveAndDecrypt => "derive_and_decrypt"
  }

  /** The operation that a name in the log stands for. */
  function OperationOf(name: string): Option<Operation> {
    if name == "sign" then Some(Sign)
    else if name == "verify" then Some(Verify)
    else if name == "encrypt" then Some(Encrypt)
    else if name == "decrypt" then Some(Decrypt)
    else if name == "derive_and_encrypt" then Some(DeriveAndEncrypt)
    else if name == "derive_and_decrypt" then Some(DeriveAndDecrypt)
    else None
  }

  lemma OpNameReads(op: Operation)
    ensures OperationOf(OpName(op)) == Some(op)
  {
    assert |"sign"| == 4 && |"verify"| == 6 && |"encrypt"| == 7 && |"decrypt"| == 7;
    assert |"derive_and_encrypt"| == 18 && |"derive_and_decrypt"| == 18;
    assert "encrypt"[0] == 'e' && "decrypt"[0] == 'd';
    assert "derive_and_encrypt"[11] == 'e' && "derive_and_decrypt"[11] == 'd';
  }

  datatype Request =
    | SignRequest(keyLabel: string, mechanism: string, dataB64: string)
    | VerifyRequest(keyLabel: string, mechanism: string, dataB64: string, signatureB64: string)
    | EncryptRequest(keyLabel: string, mechanism: string, dataB64: string)
    | DecryptRequest(keyLabel: string, mechanism: string, dataB64: string, ivB64: string, integrityB64: string)
    | DeriveAndEncryptRequest(keyLabel: string, deriveMechanism: string, targetMechanism: string,
                              peerPublicKeyB64: string, dataB64: string)
    | DeriveAndDecryptRequest(keyLabel: string, deriveMechanism: string, targetMechanism: string,
                              peerPublicKeyB64: string, ivB64: string, integrityB64: string, dataB64: string)
  {
    function Op(): Operation {
      match this
      case SignRequest(_, _, _) => Sign
      case VerifyRequest(_, _, _, _) => Verify
      case EncryptRequest(_, _, _) => Encrypt
      case DecryptRequest(_, _, _, _, _) => Decrypt
      case DeriveAndEncryptRequest(_, _, _, _, _) => DeriveAndEncrypt
      case DeriveAndDecryptRequest(_, _, _, _, _, _, _) => DeriveAndDecrypt
    }

    /** The peer key text; only the derive requests carry one. */
    function PeerKey(): Option<string> {
      if DeriveAndEncryptRequest? || DeriveAndDecryptRequest? then Some(peerPublicKeyB64) else None
    }

    /** `(iv_b64, integrity_b64, data_b64)`; only the decrypting requests carry them. */
    function IntegrityInput(): Option<(string, string, string)> {
      if DecryptRequest? || DeriveAndDecryptRequest? then Some((ivB64, integrityB64, dataB64)) else None
    }
  }

  datatype Response =
    | Ok(resultB64: Option<string>, verified: Option<bool>, ivB64: Option<string>, integrityB64: Option<string>)
    | Denied(reason: string)
    | Error(message: string)

  function OkResult(b64: string): Response {
    Ok(Some(b64), None, None, None)
  }

  // ------------------------------------------------------------- Wire form

  function OptionalString(s: Option<string>): Json.Value {
    match s case None => Json.Null case Some(t) => Json.Str(t)
  }

  function OptionalBool(b: Option<bool>): Json.Value {
    match b case None => Json.Null case Some(t) => Json.Bool(t)
  }

  function Members(r: Response): seq<Json.Member> {
    match r
    case Ok(result, verified, iv, integrity) =>
      [ Json.Member("status", Json.Str("ok")),
        Json.Member("result_b64", OptionalString(result)),
        Json.Member("verified", OptionalBool(verified)),
        Json.Member("iv_b64", OptionalString(iv)),
        Json.Member("integrity_b64", OptionalString(integrity)) ]
    case Denied(reason) =>
      [ Json.Member("status", Json.Str("denied")), Json.Member("reason", Json.Str(reason)) ]
    case Error(message) =>
      [ Json.Member("status", Json.Str("error")), Json.Member("message", Json.Str(message)) ]
  }

  /** One response as one line of JSON. */
  function Wire(r: Response): string {
    Json.Print(Members(r))
  }

  /** What a client reads: the status, and under each name the value that belongs there. */
  lemma WireReads(r: Response)
    ensures Json.Parse(Wire(r)).Some?
    ensures var ms := Json.Parse(Wire(r)).value;
      match r
      case Ok(result, verified, iv, integrity) =>
        && |ms| == 5 && Json.Get(ms, "status") == Json.One(Json.Str("ok"))
        && Json.Get(ms, "result_b64") == Json.One(OptionalString(result))
        && Json.Get(ms, "verified") == Json.One(OptionalBool(verified))
        && Json.Get(ms, "iv_b64") == Json.One(OptionalString(iv))
        && Json.Get(ms, "integrity_b64") == Json.One(OptionalString(integrity))
      case Denied(reason) =>
        |ms| == 2 && Json.Get(ms, "status") == Json.One(Json.Str("denied")) && Json.Get(ms, "reason") == Json.One(Json.Str(reason))
      case Error(message) =>
        |ms| == 2 && Json.Get(ms, "status") == Json.One(Json.Str("error")) && Json.Get(ms, "message") == Json.One(Json.Str(message))
  {
    hide Json.Get, Json.Parse, Json.Print;
    var ms := Members(r);
    Json.ParsePrinted(ms);
    forall k | 0 <= k < |ms| ensures Json.Get(ms, ms[k].key) == Json.One(ms[k].value) {
      MemberReads(r, k);
    }
    assert ms[0].key == "status";
    match r
    case Ok(_, _, _, _) =>
      assert ms[1].key == "result_b64" && ms[2].key == "verified" && ms[3].key == "iv_b64" && ms[4].key == "integrity_b64";
    case Denied(_) => assert ms[1].key == "reason";
    case Error(_) => assert ms[1].key == "message";
  }

  lemma MemberReads(r: Response, k: nat)
    requires k < |Members(r)|
    ensures Json.Get(Members(r), Members(r)[k].key) == Json.One(Members(r)[k].value)
  {
    hide Json.Get, Members;
    forall i | 0 <= i < |Members(r)| && i != k ensures Members(r)[i].key != Members(r)[k].key {
      if i < k { NamesDiffer(r, i, k); } else { NamesDiffer(r, k, i); }
    }
    Json.GetOne(Members(r), k);
  }

  lemma NamesDiffer(r: Response, i: nat, j: nat)
    requires i < j < |Members(r)|
    ensures Members(r)[i].key != Members(r)[j].key
  {
    assert |"status"| == 6 && |"reason"| == 6 && |"message"| == 7 && "status"[0] == 's' && "reason"[0] == 'r';
    assert |"result_b64"| == 10 && |"verified"| == 8 && |"iv_b64"| == 6 && |"integrity_b64"| == 13 && "iv_b64"[0] == 'i';
  }

  /** No two responses look the same on the wire. */
  lemma WireInjective(a: Response, b: Response)
    requires Wire(a) == Wire(b)
    ensures a == b
  {
    Json.ParsePrinted(Members(a));
    Json.ParsePrinted(Members(b));
    MembersInjective(a, b);
  }

  function Status(r: Response): string {
    match r case Ok(_, _, _, _) => "ok" case Denied(_) => "denied" case Error(_) => "error"
  }

  lemma MembersInjective(a: Response, b: Response)
    requires Members(a) == Members(b)
    ensures a == b
  {
    var x, y := Members(a), Members(b);
    assert x[0].value == Json.Str(Status(a)) && y[0].value == Json.Str(Status(b));
    assert |Status(a)| == |Status(b)| && Status(a)[0] == Status(b)[0];
    assert x[1].value == y[1].value;
    if a.Ok? {
      assert x[2].value == y[2].value;
      assert x[3].value == y[3].value;
      assert x[4].value == y[4].value;
    }
  }
}
