/** Results about the whole life of the gateway that join the parts: the configuration file, the
    automaton, the log and the token. */
module EndToEnd {
  import opened Wrappers
  import opened Bytes
  import opened Machine
  import opened Token
  import P = Pipeline
  import Protocol
  import Chain
  import Config
  import Base64
  import Text
  import Decision
  import F = FailClosed
  import A = Appends
  import M = HsmMachine
  import R = RoundTrip
  import An = Answering
  import Served
  import Replies

  // ---------------------------------------- From the file to every key use

  /** This use serves a request that the file allows: its command is one that this request leads to, and
      if it is the one the request stands for, then what it does with the key is granted. */
  ghost predicate UseAllowed(e: Env, ls: seq<Config.Listing>, s: State, u: M.Use)
    requires u.tid in s.tasks
  {
    && Decision.Allows(ls, s.tasks[u.tid].cn, s.tasks[u.tid].req)
    && (exists x :: x in s.started && x.tid == u.tid && x.cmd == u.cmd && F.Covered(e, s, x))
    && (Replies.MainCmd(s.tasks[u.tid].req, u.cmd) ==>
          Config.Granted(ls, Config.Grant(s.tasks[u.tid].cn, Replies.OperationFor(u.cmd), u.cmd.keyLabel)))
  }

  /** In every run, restarts included, every use of a key serves a request that is allowed by the file
      in force when it arrived and whose intent had been logged before. */
  lemma EveryUseAllowed(e: Env, base: seq<Chain.Entry>, s: State, u: M.Use, ls: seq<Config.Listing>)
    requires EnvOk(e) && Reached(e, base, s) && u in s.hsm.uses
    ensures u.tid in s.tasks && (Config.Means(s.tasks[u.tid].g.table, ls) ==> UseAllowed(e, ls, s, u))
  {
    hide Reached, Config.Means, Decision.Allows, P.Permitted, Config.TableOk, F.Asks, F.IsIntent, Config.Granted, Replies.MainCmd;
    F.EveryCallHasIntent(e, base, s);
    assert F.WasStarted(s, u.tid, u.cmd);
    var k :| 0 <= k < |s.started| && s.started[k].tid == u.tid && s.started[k].cmd == u.cmd;
    assert F.Covered(e, s, s.started[k]);
    var t := s.tasks[u.tid];
    if Config.Means(t.g.table, ls) {
      SettingsOf(e, base, s, u.tid);
      Decision.PermittedIffAllowed(ls, t.g.table, e.integrity, t.cn, t.req);
      if Replies.MainCmd(t.req, u.cmd) {
        Replies.MainIsOperation(t.req, u.cmd);
        AllowedIsGranted(ls, t.cn, t.req);
      }
    }
  }

  lemma AllowedIsGranted(ls: seq<Config.Listing>, cn: string, req: Protocol.Request)
    requires Decision.Allows(ls, cn, req)
    ensures Config.Granted(ls, Config.Grant(cn, req.Op(), req.keyLabel))
  {
    hide Config.Granted, Base64.Decode;
  }

  lemma SettingsOf(e: Env, base: seq<Chain.Entry>, s: State, tid: Tid)
    requires EnvOk(e) && Reached(e, base, s) && tid in s.tasks
    ensures s.tasks[tid].g == P.Settings(s.tasks[tid].g.table, e.integrity) && Config.TableOk(s.tasks[tid].g.table, e.integrity)
  {
    hide Reached, M.Inv, Config.TableOk, P.Permitted, RequestFits, Course;
    ReachedTies(e, base, s);
    assert TaskOk(e, s, tid);
  }

  // -------------------------------------------------- Answers in sequence

  lemma NextInOrder(e: Env, s: State, st: Step, s': State)
    requires Ties(e, s) && M.OneAtATime(e.c, e.token, e.outside, s.hsm) && Next(e, s, st) == Some(s')
    ensures M.OneAtATime(e.c, e.token, e.outside, s'.hsm)
  {
    hide M.OneAtATime, M.Next, M.Inv, P.Begin, RequestFits, P.AfterCall, A.Next, IsDue, EnvOk, TaskOk, PendingOk, CallTied,
      LinesTied, LinesAfter, Moved, Config.TableOk, NoticeOk, Chain.Chained;
    if st.HsmStep? {
      M.NextKeepsOrder(e.c, e.token, e.outside, s.hsm, st.hsmStep, s'.hsm);
    } else {
      if st.LogStep? {
        LogStepFrame(e, s, st.logStep, s');
      }
      M.SameOrder(e.c, e.token, e.outside, s.hsm, s'.hsm);
    }
  }

  lemma ReachedInOrder(e: Env, base: seq<Chain.Entry>, s: State)
    requires EnvOk(e) && Reached(e, base, s)
    ensures Ties(e, s) && M.OneAtATime(e.c, e.token, e.outside, s.hsm)
  {
    hide Ties, Next, Reached, M.OneAtATime;
    forall table | Config.TableOk(table, e.integrity)
      ensures Ties(e, Machine.Start(e, table, base)) && M.OneAtATime(e.c, e.token, e.outside, Machine.Start(e, table, base).hsm)
    {
      StartTies(e, table, base);
      M.ReadyInOrder(e.c, e.token, e.outside);
    }
    forall r: State, st | Ties(e, r) && M.OneAtATime(e.c, e.token, e.outside, r.hsm) && Next(e, r, st).Some?
      ensures Ties(e, Next(e, r, st).value) && M.OneAtATime(e.c, e.token, e.outside, Next(e, r, st).value.hsm)
    {
      NextKeepsTies(e, r, st, Next(e, r, st).value);
      NextInOrder(e, r, st, Next(e, r, st).value);
    }
    HoldsOfReached(e, base, s, (r: State) => Ties(e, r) && M.OneAtATime(e.c, e.token, e.outside, r.hsm));
  }

  /** `resp` says whether the data had been signed with this label's key when use `j` came: outside,
      or by one of the uses before it. */
  ghost predicate SaysWhetherSigned(e: Env, uses: seq<M.Use>, j: nat, req: Protocol.Request, resp: Protocol.Response)
    requires j < |uses| && req.VerifyRequest?
  {
    exists h :: h in e.token && IsTheKey(e.token, PublicKey, req.keyLabel, h)
      && match (Base64.Decode(req.dataB64), Base64.Decode(req.signatureB64))
         case (Some(data), Some(sig)) =>
           resp == Protocol.Ok(None, Some((e.token[h].key, data, sig) in M.RecordOf(e.token, e.outside, uses[..j])), None, None)
         case _ => false
  }

  /** In every run, restarts included, an answered verification is right about the moment its key was
      used: `verified` is true exactly if this signature over these data had been made by then,
      outside or by any use before it, in this process or an earlier one. */
  lemma VerifiedIffSigned(e: Env, base: seq<Chain.Entry>, s: State, t: Tid)
    requires EnvOk(e) && Reached(e, base, s)
    requires t in s.tasks && s.tasks[t].req.VerifyRequest? && s.tasks[t].pc.Done? && s.tasks[t].pc.resp.Ok?
    ensures exists j :: 0 <= j < |s.hsm.uses| && s.hsm.uses[j].tid == t
                        && SaysWhetherSigned(e, s.hsm.uses, j, s.tasks[t].req, s.tasks[t].pc.resp)
  {
    hide Reached, Ties, Base64.Decode, An.SealedBy, M.RecordOf, M.Lasting, SaysWhetherSigned;
    An.OkAnswersAreTrue(e, base, s, t);
    ReachedInOrder(e, base, s);
    var req, resp := s.tasks[t].req, s.tasks[t].pc.resp;
    var cmd, ans :| Replies.MainCmd(req, cmd) && An.Given(e, s.hsm, t, cmd, ans) && An.Reports(e, s.hsm.signed, req, ans, resp);
    var j :| 0 <= j < |s.hsm.uses| && s.hsm.uses[j] == M.Use(t, cmd, ans);
    assert M.InOrder(e.c, e.token, e.outside, s.hsm.uses, j);
    UseSays(e, s.hsm.signed, s.hsm.uses, j, req, resp);
  }

  lemma UseSays(e: Env, signed: Signed, uses: seq<M.Use>, j: nat, req: Protocol.Request, resp: Protocol.Response)
    requires j < |uses| && req.VerifyRequest? && M.InOrder(e.c, e.token, e.outside, uses, j)
    requires Replies.MainCmd(req, uses[j].cmd) && An.Reports(e, signed, req, uses[j].ans, resp)
    ensures SaysWhetherSigned(e, uses, j, req, resp)
  {
    hide Base64.Decode, An.SealedBy, M.RecordOf;
    var cmd, ans := uses[j].cmd, uses[j].ans;
    var was, now := M.RecordOf(e.token, e.outside, uses[..j]), M.RecordOf(e.token, e.outside, uses[..j + 1]);
    var h :| IsTheKey(e.token, KindFor(cmd), cmd.keyLabel, h) && h in e.token
             && AnswersWith(e.c, UsedKey(e.c, e.token[h].key, cmd), was, cmd, ans, now);
    assert UsedKey(e.c, e.token[h].key, cmd) == e.token[h].key;
  }

  // ------------------------------------------------------- Derived keys

  /** In every run, with any number of derivations under way, a lookup by a label that can be
      granted finds exactly the token's own objects; and once all calls are over nothing is left. */
  lemma DerivedKeysStayOut(e: Env, base: seq<Chain.Entry>, s: State, table: Config.Table, g: Config.Grant, kind: Kind)
    requires EnvOk(e) && Reached(e, base, s)
    requires Config.TableOk(table, e.integrity) && g in table.grants
    ensures Matches(s.hsm.objects, kind, g.keyLabel) == Matches(e.token, kind, g.keyLabel)
    ensures forall h :: h in e.token ==> h in s.hsm.objects && s.hsm.objects[h] == e.token[h]
    ensures s.hsm.calls == map[] ==> s.hsm.objects == e.token
  {
    hide Reached, TaskOk, PendingOk, CallTied, M.CallOk, M.OneAtATime, LinesTied;
    ReachedInOrder(e, base, s);
    M.LookupsSeeTokenObjects(e.c, e.token, s.hsm, kind, g.keyLabel);
  }

  // ------------------------------------ The assumptions can all be met

  function Copy(key: seq<byte>, iv: seq<byte>, text: seq<byte>): seq<byte> { text }

  function CopyBack(key: seq<byte>, iv: seq<byte>, text: seq<byte>): Option<seq<byte>> { Some(text) }

  function FirstArg(key: seq<byte>, peer: seq<byte>, shared: string, len: nat): seq<byte> { key }

  const EXAMPLE: Config.ClientEntry :=
    Config.ClientEntry("app", [Config.PermissionEntry(Protocol.Encrypt, ["k1"], None),
                               Config.PermissionEntry(Protocol.Decrypt, ["k1"], None)])

  const IV: seq<byte> := [0, 0, 0, 0, 0, 0, 0, 0, 0, 0, 0, 0, 0, 0, 0, 0]

  function EncryptNothing(): Protocol.Request {
    Protocol.EncryptRequest("k1", P.MECH_AES_CBC_PAD, "")
  }

  /** The request that decrypts the answer to it. */
  function DecryptNothing(): Protocol.Request {
    Protocol.DecryptRequest("k1", P.MECH_AES_CBC_PAD, Base64.Encode([]), Base64.Encode(IV), Base64.Encode([]))
  }

  /** There are a valid configuration, tables that mean it, and a token with a key for the client and a
      key pair of the gateway's own. */
  lemma AssumptionsHold(sha: Chain.Sha) returns (e: Env, table: Config.Table)
    ensures EnvOk(e) && R.Inverse(e.c) && e.sha == sha && IsExample(e, table)
    ensures Config.ConfigOk([EXAMPLE], e.integrity) && Config.Means(table, Config.Listings([EXAMPLE]))
    ensures Config.TableOk(table, e.integrity)
  {
    var gateway := "gateway-integrity-key";
    assert |gateway| == 21;
    e := Env(Crypto(Copy, CopyBack, FirstArg), sha, gateway, ExampleToken(gateway), {});
    hide Config.Means, Config.TableOk, Config.ConfigOk, Config.Listings, EnvOk, ExampleToken;
    table := ExampleTable(gateway);
    ExampleEnvOk(e);
  }

  lemma ExampleEnvOk(e: Env)
    requires e.token == ExampleToken(e.integrity) && e.outside == {}
    ensures EnvOk(e)
  {
    assert forall h :: h in e.token <==> h == 0 || h == 1 || h == 2;
  }

  /** In that setting, from the first start on an empty log: an encryption is answered, the gateway is
      started again, and the decrypt is answered with the text that was encrypted. */
  lemma ExampleRun(sha: Chain.Sha) returns (e: Env, mid: State, s: State)
    ensures EnvOk(e) && R.Inverse(e.c) && e.sha == sha
    ensures Reached(e, [], mid) && 0 in mid.tasks && mid.tasks[0].pc.Done? && 1 !in mid.tasks
    ensures R.Decrypts(EncryptNothing(), mid.tasks[0].pc.resp, DecryptNothing())
    ensures Leads(e, mid, s) && 1 in s.tasks && s.tasks[1].req == DecryptNothing()
    ensures s.tasks[1].pc == P.Done(Protocol.OkResult(""))
  {
    hide EnvOk, R.Inverse, Config.TableOk, Config.Means, Config.ConfigOk, Config.Listings, Reached, Leads, Served.CanEncrypt, Served.CanCheck,
      Replies.MainCmd, R.Decrypts, Base64.Encode, IsExample;
    var table;
    e, table := AssumptionsHold(sha);
    ExampleEncrypts(e, table);
    ExampleDecrypts(e, table);
    mid, s := Served.ReachesDecryptAfterRestart(e, table, [], "app", EncryptNothing(), EncryptCmd("k1", []), 2, 0, 1, IV, [],
                                                table, "app", DecryptNothing());
  }

  /** The example's setting, as far as its runs depend on it. */
  ghost predicate IsExample(e: Env, table: Config.Table) {
    && table.grants == {Config.Grant("app", Protocol.Encrypt, "k1"), Config.Grant("app", Protocol.Decrypt, "k1")}
    && e.c.encrypt == Copy && e.token == ExampleToken(e.integrity)
  }

  function ExampleToken(integrity: string): Store {
    map[0 := Object(PrivateKey, integrity, [1], None, None),
        1 := Object(PublicKey, integrity, [1], None, None),
        2 := Object(SecretKey, "k1", [2], None, None)]
  }

  lemma ExampleEncrypts(e: Env, table: Config.Table)
    requires IsExample(e, table)
    ensures Served.CanEncrypt(e, P.Settings(table, e.integrity), "app", EncryptNothing(), EncryptCmd("k1", []), 2, 0, IV)
    ensures Replies.MainCmd(EncryptNothing(), EncryptCmd("k1", []))
  {
    hide P.Check, P.IntegrityPayload;
    assert |Utf8("k1")| <= 8;
  }

  lemma ExampleDecrypts(e: Env, table: Config.Table)
    requires IsExample(e, table)
    ensures Served.CanCheck(e, P.Settings(table, e.integrity), "app", DecryptNothing(), 1)
    ensures R.Decrypts(EncryptNothing(), Served.SealedAnswer(Served.CipherOf(e, EncryptCmd("k1", []), 2, IV), IV, []), DecryptNothing())
  {
    hide P.Check, P.IntegrityPayload, Base64.Encode, Base64.Decode;
    assert |Utf8("k1")| <= 8;
  }

  lemma ExampleTable(integrity: string) returns (table: Config.Table)
    requires |integrity| == 21
    ensures Config.ConfigOk([EXAMPLE], integrity) && Config.Means(table, Config.Listings([EXAMPLE]))
    ensures Config.TableOk(table, integrity)
    ensures table.grants == {Config.Grant("app", Protocol.Encrypt, "k1"), Config.Grant("app", Protocol.Decrypt, "k1")}
  {
    var none := Config.Table({}, map[]);
    var l, m := Config.Listing("app", EXAMPLE.permissions[0]), Config.Listing("app", EXAMPLE.permissions[1]);
    ExampleOk(integrity);
    Config.NothingLoaded(integrity);
    hide Config.TrimEach, Text.Trim, Config.PermissionOk, Config.Means, Config.TableOk, Config.Add, Config.ConfigOk, Config.ClientOk, Config.Listings;
    Config.CnsSnoc([], EXAMPLE, integrity);
    assert [] + [EXAMPLE] == [EXAMPLE] && Config.ListingsOf(EXAMPLE) == [l, m];
    assert Config.Listings([]) + [l, m] == [l, m] && [] + [l] == [l] && [l] + [m] == [l, m];
    Config.AddMeans(none, [], l, integrity);
    Config.AddKeepsInvariant(none, l, integrity);
    Config.AddMeans(Config.Add(none, l), [l], m, integrity);
    Config.AddKeepsInvariant(Config.Add(none, l), m, integrity);
    table := Config.Add(Config.Add(none, l), m);
    ExampleGrants(none, l, Protocol.Encrypt);
    ExampleGrants(Config.Add(none, l), m, Protocol.Decrypt);
  }

  lemma ExampleOk(integrity: string)
    requires |integrity| == 21
    ensures Text.Trim("app") == "app" && Text.Trim("k1") == "k1" && Config.TrimEach(["k1"]) == ["k1"]
    ensures forall p :: p in EXAMPLE.permissions ==> Config.PermissionOk(p, integrity)
    ensures Config.ClientOk(EXAMPLE, integrity)
    ensures Config.Listings([]) == [] && Config.Cns([]) == [] && Config.ConfigOk([], integrity)
  {
    hide Text.TrimStart, Text.TrimEnd;
    assert Text.Trimmed("app") && Text.Trimmed("k1");
  }

  lemma ExampleGrants(t: Config.Table, l: Config.Listing, op: Protocol.Operation)
    requires l == Config.Listing("app", Config.PermissionEntry(op, ["k1"], None))
    requires Config.TrimEach(["k1"]) == ["k1"]
    ensures Config.Add(t, l).grants == t.grants + {Config.Grant("app", op, "k1")}
  {
    assert Config.Elems(["k1"]) == {"k1"};
    assert Config.GrantsFor("app", op, {"k1"}) == {Config.Grant("app", op, "k1")};
  }
}
