/** From the configuration file to the HSM: which requests are executed. */
module Decision {
  import opened Wrappers
  import opened Protocol
  import opened Config
  import opened World
  import P = Pipeline
  import Chain
  import Base64
  import Token

  /** The file lets this client run this request: some entry grants operation and label, and for a
      derive operation the peer's bytes are those of a key listed by the last entry doing so. */
  ghost predicate Allows(ls: seq<Listing>, cn: string, req: Request) {
    var g := Grant(cn, req.Op(), req.keyLabel);
    && Granted(ls, g)
    && (IsDerive(req.Op()) ==> Base64.Decode(req.peerPublicKeyB64).Some? && PeerListed(ls, g, req.peerPublicKeyB64))
  }

  ghost predicate PeerListed(ls: seq<Listing>, g: Grant, peerB64: string) {
    exists n, key :: 0 <= n < |ls| && Governs(ls, n, g) && key in AllowlistOf(ls, n)
                     && Base64.Decode(key) == Base64.Decode(peerB64)
  }

  lemma OneGoverns(ls: seq<Listing>, g: Grant, m: nat, n: nat)
    requires m < |ls| && n < |ls| && Governs(ls, m, g) && Governs(ls, n, g)
    ensures m == n
  {
  }

  /** The two checks of the gateway, on the loaded tables, are the declarative reading of the file. */
  lemma PermittedIffAllowed(ls: seq<Listing>, table: Table, integrity: string, cn: string, req: Request)
    requires Means(table, ls) && TableOk(table, integrity)
    ensures P.Permitted(P.Settings(table, integrity), cn, req) <==> Allows(ls, cn, req)
  {
    hide Base64.Decode, Names, AllowlistOf;
    var g := Grant(cn, req.Op(), req.keyLabel);
    assert g in table.grants <==> Granted(ls, g);
    if IsDerive(req.Op()) && g in table.grants && Base64.Decode(req.peerPublicKeyB64).Some? {
      PeerIffListed(ls, table, integrity, cn, req);
    }
  }

  lemma PeerIffListed(ls: seq<Listing>, table: Table, integrity: string, cn: string, req: Request)
    requires Means(table, ls) && TableOk(table, integrity) && IsDerive(req.Op())
    requires Granted(ls, Grant(cn, req.Op(), req.keyLabel)) && Base64.Decode(req.peerPublicKeyB64).Some?
    ensures PeerAuthorized(table, cn, req.Op(), req.keyLabel, req.peerPublicKeyB64) <==>
      PeerListed(ls, Grant(cn, req.Op(), req.keyLabel), req.peerPublicKeyB64)
  {
    hide Base64.Decode, Names, AllowlistOf, Governs;
    var g, peer := Grant(cn, req.Op(), req.keyLabel), req.peerPublicKeyB64;
    AllowlistIsOfBytes(table, integrity, cn, req.Op(), req.keyLabel, peer);
    var n := GoverningEntry(ls, g);
    assert g in table.peers && table.peers[g] == AllowlistOf(ls, n);
    if PeerListed(ls, g, peer) {
      var m, key :| 0 <= m < |ls| && Governs(ls, m, g) && key in AllowlistOf(ls, m)
                    && Base64.Decode(key) == Base64.Decode(peer);
      OneGoverns(ls, g, m, n);
    }
  }

  /** Somewhere in these events the request was being executed. */
  ghost predicate Executed(g: P.Settings, cn: string, req: Request, evs: seq<Event>) {
    exists n :: 0 <= n <= |evs| && ExecutingAfter(g, cn, req, evs, n)
  }

  ghost predicate ExecutingAfter(g: P.Settings, cn: string, req: Request, evs: seq<Event>, n: nat)
    requires n <= |evs|
  {
    match P.Replay(g, cn, req, P.Begin(g, cn, Some(req)), evs[..n])
    case None => false
    case Some(pc) => pc.Call? || pc.Close?
  }

  function IntentEvent(cn: string, req: Request): Event {
    Appended(cn, OpName(req.Op()), req.keyLabel, Chain.Intent, "", true)
  }

  /** A parsed request is executed exactly when the file allows it and its intent was written, as
      the very first thing it did; and then a derive operation has its peer key. */
  lemma ExecutedIff(ls: seq<Listing>, table: Table, integrity: string, cn: string, req: Request, evs: seq<Event>, resp: Response)
    requires Means(table, ls) && TableOk(table, integrity)
    requires P.Serves(P.Settings(table, integrity), cn, Some(req), evs, resp)
    ensures Executed(P.Settings(table, integrity), cn, req, evs) <==>
      Allows(ls, cn, req) && evs != [] && evs[0] == IntentEvent(cn, req)
    ensures P.CallsHsm(evs) ==> Executed(P.Settings(table, integrity), cn, req, evs)
    ensures Allows(ls, cn, req) && IsDerive(req.Op()) ==> P.PeerOf(req).Some?
  {
    hide P.Start, P.AfterCall, OpName, P.Advance, P.Begin, Allows, P.Replay, P.PeerOf;
    var g := P.Settings(table, integrity);
    PermittedIffAllowed(ls, table, integrity, cn, req);
    var begin := P.Begin(g, cn, Some(req));
    P.IntentFirst(g, cn, req, evs, P.Done(resp));
    if Executed(g, cn, req, evs) {
      var n :| 0 <= n <= |evs| && ExecutingAfter(g, cn, req, evs, n);
      P.IntentFirst(g, cn, req, evs[..n], P.Replay(g, cn, req, begin, evs[..n]).value);
    }
    if P.Permitted(g, cn, req) && evs != [] && evs[0] == IntentEvent(cn, req) {
      FirstStep(g, cn, req, evs);
      assert ExecutingAfter(g, cn, req, evs, 1);
    }
    if P.Permitted(g, cn, req) {
      PeerThere(g, cn, req);
    }
  }

  lemma PeerThere(g: P.Settings, cn: string, req: Request)
    requires P.Permitted(g, cn, req)
    ensures IsDerive(req.Op()) ==> P.PeerOf(req).Some?
  {
  }

  lemma FirstStep(g: P.Settings, cn: string, req: Request, evs: seq<Event>)
    requires P.Permitted(g, cn, req) && evs != [] && evs[0] == IntentEvent(cn, req)
    ensures ExecutingAfter(g, cn, req, evs, 1)
  {
    hide P.Start, OpName, P.Begin;
    assert evs[..1] == [evs[0]];
    P.ReplayOne(g, cn, req, P.Begin(g, cn, Some(req)), evs[0]);
    P.Shapes(g, req, P.PeerOf(req), Token.SignCmd("", []), P.Main, Token.Failed);
  }
}
