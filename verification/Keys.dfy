/** Under which key a ciphertext can be decrypted: the integrity signature binds the label, not the
    key, so it takes a condition on the configuration for a decrypt to use the key that encrypted. */
module Keys {
  import opened Wrappers
  import opened Bytes
  import opened Protocol
  import opened Config
  import opened Machine
  import opened Token
  import P = Pipeline
  import Chain
  import Base64
  import A = Appends
  import M = HsmMachine
  import V = Provenance
  import F = FailClosed
  import R = RoundTrip
  import Served
  import Replies

  // --------------------------------------------------------- Condition

  predicate EncryptOp(op: Operation) {
    op.Encrypt? || op.DeriveAndEncrypt?
  }

  predicate DecryptOp(op: Operation) {
    op.Decrypt? || op.DeriveAndDecrypt?
  }

  /** A way in which the table lets a grant be used: plainly, or with a listed peer key. */
  predicate Way(t: Table, g: Grant, peer: Option<string>) {
    && g in t.grants
    && match peer
       case None => !IsDerive(g.op)
       case Some(p) => IsDerive(g.op) && g in t.peers && p in t.peers[g]
  }

  /** A way to encrypt, or to decrypt, with this label under one of these tables. */
  ghost predicate Encrypts(tables: set<Table>, name: string, way: Option<string>) {
    exists t: Table, g: Grant :: t in tables && g.keyLabel == name && EncryptOp(g.op) && Way(t, g, way)
  }

  ghost predicate Decrypts(tables: set<Table>, name: string, way: Option<string>) {
    exists t: Table, g: Grant :: t in tables && g.keyLabel == name && DecryptOp(g.op) && Way(t, g, way)
  }

  /** Whatever the tables let one encrypt with the label and whatever they let one decrypt with it, it is
      in one and the same way: all plainly, or all with the same peer key. */
  ghost predicate KeysAgree(tables: set<Table>, name: string) {
    forall way, way2 :: Encrypts(tables, name, way) && Decrypts(tables, name, way2) ==> way == way2
  }

  ghost predicate AllIn(tables: set<Table>, name: string, one: Option<string>) {
    forall way :: Encrypts(tables, name, way) || Decrypts(tables, name, way) ==> way == one
  }

  /** What an operator reads off the table: the label is not granted for encrypting at all, or not for
      decrypting, or all of these grants are plain, or all list one and the same peer key. */
  lemma AgreeReads(tables: set<Table>, name: string)
    ensures KeysAgree(tables, name) <==>
      || (forall way :: !Encrypts(tables, name, way)) || (forall way :: !Decrypts(tables, name, way))
      || exists one :: AllIn(tables, name, one)
  {
    hide Encrypts, Decrypts;
    if KeysAgree(tables, name) && (exists way :: Encrypts(tables, name, way)) && (exists way :: Decrypts(tables, name, way)) {
      var one :| Encrypts(tables, name, one);
      assert AllIn(tables, name, one);
    }
  }

  // --------------------------------------------------------- Statement

  /** Both commands work with the key itself, or both with the key derived for the same peer. */
  predicate SameKey(m: Cmd, n: Cmd) {
    m.Derives() == n.Derives() && (m.Derives() ==> m.peer == n.peer)
  }

  /** What `x` was to decrypt had been encrypted and sealed before, under the key that `x` decrypts with. */
  ghost predicate BySameKey(e: Env, uses: seq<M.Use>, x: Started)
    requires x.cmd.Decrypts()
  {
    exists t, i, k :: i < k < x.used
      && V.EncryptedAt(uses, i, t, x.cmd.keyLabel, x.cmd.iv, x.cmd.ct)
      && V.SignedAt(e, uses, k, t, x.cmd.keyLabel, x.cmd.iv, x.cmd.ct)
      && SameKey(uses[i].cmd, x.cmd)
  }

  /** Reached in processes that loaded only these tables. */
  ghost predicate ReachedWith(e: Env, tables: set<Table>, base: seq<Chain.Entry>, s: State) {
    exists table, steps :: table in tables && LoadsOnly(steps, tables) && Run(e, Machine.Start(e, table, base), steps) == Some(s)
  }

  ghost predicate LoadsOnly(steps: seq<Step>, tables: set<Table>) {
    forall st :: st in steps && st.Restart? ==> st.table in tables
  }

  ghost predicate TablesOk(e: Env, tables: set<Table>) {
    forall t :: t in tables ==> TableOk(t, e.integrity)
  }

  // ------------------------------------------------- With the condition

  /** Every request runs under one of the tables. */
  ghost predicate Under(tables: set<Table>, s: State) {
    s.table in tables && forall t :: t in s.tasks ==> s.tasks[t].g.table in tables
  }

  lemma NextUnder(e: Env, tables: set<Table>, s: State, st: Step, s': State)
    requires Under(tables, s) && Next(e, s, st) == Some(s') && (st.Restart? ==> st.table in tables)
    ensures Under(tables, s')
  {
    hide NextLog, M.Next, P.Begin, RequestFits, NoticeOk, Chain.Chained, TableOk, P.AfterCall;
    if st.LogStep? {
      LogStepFrame(e, s, st.logStep, s');
      LogKeepsTable(e, s, st.logStep, s');
    }
  }

  lemma LogKeepsTable(e: Env, s: State, st: A.Step, s': State)
    requires NextLog(e, s, st) == Some(s')
    ensures st.tid in s.tasks && st.tid in s'.tasks ==> s'.tasks[st.tid].g == s.tasks[st.tid].g
  {
    hide A.Next, IsDue, LinesAfter, P.AfterAppend, P.Due, OpName;
  }

  lemma ReachedUnder(e: Env, tables: set<Table>, base: seq<Chain.Entry>, s: State)
    requires ReachedWith(e, tables, base, s) && TablesOk(e, tables)
    ensures Under(tables, s) && Reached(e, base, s)
  {
    hide Run, Next, Under, TableOk;
    var table, steps :| table in tables && LoadsOnly(steps, tables) && Run(e, Machine.Start(e, table, base), steps) == Some(s);
    assert Under(tables, Machine.Start(e, table, base)) by { StartUnder(e, tables, table, base); }
    forall r: State, st | st in steps && Under(tables, r) && Next(e, r, st).Some?
      ensures Under(tables, Next(e, r, st).value)
    {
      NextUnder(e, tables, r, st, Next(e, r, st).value);
    }
    HoldsOfRun(e, Machine.Start(e, table, base), steps, s, (r: State) => Under(tables, r));
  }

  lemma StartUnder(e: Env, tables: set<Table>, table: Table, base: seq<Chain.Entry>)
    requires table in tables
    ensures Under(tables, Machine.Start(e, table, base))
  {
  }

  /** The way a permitted request is allowed to take, and the command that takes it. */
  lemma WayOfCommand(g: P.Settings, cn: string, req: Request, cmd: Cmd) returns (way: Option<string>)
    requires P.Permitted(g, cn, req) && Replies.MainCmd(req, cmd)
    ensures Way(g.table, Grant(cn, req.Op(), req.keyLabel), way)
    ensures match way
            case None => !cmd.Derives()
            case Some(p) => cmd.Derives() && Base64.Decode(p) == Some(cmd.peer)
  {
    hide Base64.Decode;
    way := req.PeerKey();
  }

  /** The request behind a command that encrypts or decrypts, and the way it takes. */
  lemma WayOfStarted(e: Env, tables: set<Table>, s: State, x: Started) returns (way: Option<string>)
    requires F.Covered(e, s, x) && Under(tables, s) && (x.cmd.Encrypts() || x.cmd.Decrypts())
    ensures x.cmd.Encrypts() ==> Encrypts(tables, x.cmd.keyLabel, way)
    ensures x.cmd.Decrypts() ==> Decrypts(tables, x.cmd.keyLabel, way)
    ensures match way
            case None => !x.cmd.Derives()
            case Some(p) => x.cmd.Derives() && Base64.Decode(p) == Some(x.cmd.peer)
  {
    hide Base64.Decode, P.Permitted, F.IsIntent, P.IntegrityPayload, Way;
    var t := s.tasks[x.tid];
    OperationOf(t.req, x.cmd);
    way := WayOfCommand(t.g, t.cn, t.req, x.cmd);
    var g := Grant(t.cn, t.req.Op(), t.req.keyLabel);
    assert t.g.table in tables && g.keyLabel == x.cmd.keyLabel;
  }

  lemma OperationOf(req: Request, cmd: Cmd)
    requires Replies.MainCmd(req, cmd)
    ensures cmd.keyLabel == req.keyLabel
    ensures cmd.Encrypts() <==> EncryptOp(req.Op())
    ensures cmd.Decrypts() <==> DecryptOp(req.Op())
  {
    hide Base64.Decode;
  }

  /** If the keys agree, then in every run whatever is handed to a decrypt of the label was encrypted with
      the very key that it is decrypted with. */
  lemma AgreeingKeysSuffice(e: Env, tables: set<Table>, base: seq<Chain.Entry>, name: string, s: State, x: Started)
    requires EnvOk(e) && TablesOk(e, tables) && KeysAgree(tables, name)
    requires ReachedWith(e, tables, base, s) && x in s.started && x.cmd.Decrypts() && x.cmd.keyLabel == name
    ensures BySameKey(e, s.hsm.uses, x)
  {
    hide ReachedWith, Reached, F.Covered, V.EncryptedAt, V.SignedAt, Encrypts, Decrypts, EnvOk, TablesOk, P.IntegrityPayload,
      Base64.Decode, Under;
    ReachedUnder(e, tables, base, s);
    V.OnlySealedIsDecrypted(e, base, s, x);
    F.EveryCallHasIntent(e, base, s);
    var t, i, k :| i < k < x.used && V.EncryptedAt(s.hsm.uses, i, t, x.cmd.keyLabel, x.cmd.iv, x.cmd.ct)
                   && V.SignedAt(e, s.hsm.uses, k, t, x.cmd.keyLabel, x.cmd.iv, x.cmd.ct);
    var y := StartOfUse(e, s, i, t, x.cmd.keyLabel, x.cmd.iv, x.cmd.ct);
    var way := WayOfStarted(e, tables, s, y);
    var way2 := WayOfStarted(e, tables, s, x);
    assert way == way2;
    assert SameKey(s.hsm.uses[i].cmd, x.cmd);
  }

  lemma StartOfUse(e: Env, s: State, i: int, t: Tid, name: string, iv: seq<byte>, ct: seq<byte>) returns (y: Started)
    requires V.EncryptedAt(s.hsm.uses, i, t, name, iv, ct)
    requires forall u :: u in s.hsm.uses ==> F.WasStarted(s, u.tid, u.cmd)
    ensures 0 <= i < |s.hsm.uses| && y in s.started && y.cmd == s.hsm.uses[i].cmd && y.cmd.Encrypts() && y.cmd.keyLabel == name
  {
    assert s.hsm.uses[i] in s.hsm.uses;
    var k :| 0 <= k < |s.started| && s.started[k].tid == s.hsm.uses[i].tid && s.started[k].cmd == s.hsm.uses[i].cmd;
    y := s.started[k];
  }

  /** The same key, not only the same way of using it. */
  lemma SameKeyIsSame(c: Crypto, key: seq<byte>, m: Cmd, n: Cmd)
    requires SameKey(m, n) && (m.Encrypts() || m.Decrypts()) && (n.Encrypts() || n.Decrypts())
    ensures UsedKey(c, key, m) == UsedKey(c, key, n) && KindFor(m) == KindFor(n)
  {
  }

  // ---------------------------------------------- Without the condition

  /** The request that encrypts nothing in this way, and its command. */
  function EncryptIn(name: string, way: Option<string>): Request {
    match way
    case None => EncryptRequest(name, P.MECH_AES_CBC_PAD, "")
    case Some(p) => DeriveAndEncryptRequest(name, P.MECH_ECDH1_DERIVE, P.MECH_AES_CBC_PAD, p, "")
  }

  function EncryptCmdIn(name: string, way: Option<string>): Cmd {
    match way
    case None => EncryptCmd(name, [])
    case Some(p) => DeriveEncryptCmd(name, P.OrEmpty(Base64.Decode(p)), [])
  }

  /** The request that presents these bytes for decryption in this way. */
  function DecryptIn(name: string, way: Option<string>, ct: seq<byte>, iv: seq<byte>): Request {
    match way
    case None => DecryptRequest(name, P.MECH_AES_CBC_PAD, Base64.Encode(ct), Base64.Encode(iv), Base64.Encode([]))
    case Some(p) =>
      DeriveAndDecryptRequest(name, P.MECH_ECDH1_DERIVE, P.MECH_AES_CBC_PAD, p, Base64.Encode(iv), Base64.Encode([]), Base64.Encode(ct))
  }

  /** The token has what encrypting in this way takes, and the answer is of a size that can be sent back. */
  ghost predicate Works(e: Env, name: string, way: Option<string>, h: Handle, iv: seq<byte>) {
    var cmd := EncryptCmdIn(name, way);
    && h in e.token && IsTheKey(e.token, KindFor(cmd), name, h) && |iv| == 16
    && |Base64.Encode(Served.CipherOf(e, cmd, h, iv))| < U64
  }

  /** The token has the gateway's key pair and a key for each way to encrypt with the label. */
  ghost predicate Equipped(e: Env, tables: set<Table>, name: string) {
    && |Utf8(name)| < U64
    && (exists p :: p in e.token && IsTheKey(e.token, PrivateKey, e.integrity, p))
    && (exists q :: q in e.token && IsTheKey(e.token, PublicKey, e.integrity, q))
    && (forall way :: Encrypts(tables, name, way) ==> exists h, iv :: Works(e, name, way, h, iv))
  }

  lemma EncryptInWorks(e: Env, t: Table, g: Grant, way: Option<string>, h: Handle, p: Handle, iv: seq<byte>)
    requires TableOk(t, e.integrity) && EncryptOp(g.op) && Way(t, g, way) && |Utf8(g.keyLabel)| < U64
    requires Works(e, g.keyLabel, way, h, iv) && p in e.token && IsTheKey(e.token, PrivateKey, e.integrity, p)
    ensures var req, cmd := EncryptIn(g.keyLabel, way), EncryptCmdIn(g.keyLabel, way);
      Served.CanEncrypt(e, P.Settings(t, e.integrity), g.cn, req, cmd, h, p, iv) && cmd.keyLabel == req.keyLabel
  {
    hide IsTheKey, Utf8;
    var req := EncryptIn(g.keyLabel, way);
    assert Grant(g.cn, req.Op(), req.keyLabel) == g;
    assert Base64.Decode("") == Some([]);
    hide Base64.Decode, Base64.Encode;
  }

  lemma DecryptInChecks(e: Env, t: Table, g: Grant, way: Option<string>, q: Handle, ct: seq<byte>, iv: seq<byte>)
    requires TableOk(t, e.integrity) && DecryptOp(g.op) && Way(t, g, way) && |Utf8(g.keyLabel)| < U64
    requires |Base64.Encode(ct)| < U64 && |iv| == 16 && q in e.token && IsTheKey(e.token, PublicKey, e.integrity, q)
    ensures Served.CanCheck(e, P.Settings(t, e.integrity), g.cn, DecryptIn(g.keyLabel, way, ct, iv), q)
  {
    hide IsTheKey, Utf8, Base64.Decode, Base64.Encode, P.IntegrityPayload;
    var req := DecryptIn(g.keyLabel, way, ct, iv);
    assert Grant(g.cn, req.Op(), req.keyLabel) == g;
  }

  /** Different ways use different keys. */
  lemma WaysDiffer(e: Env, tables: set<Table>, name: string, way: Option<string>, way2: Option<string>, n: Cmd, ct: seq<byte>, iv: seq<byte>)
    requires TablesOk(e, tables) && Encrypts(tables, name, way) && Decrypts(tables, name, way2) && way != way2
    requires Replies.MainCmd(DecryptIn(name, way2, ct, iv), n)
    ensures !SameKey(EncryptCmdIn(name, way), n) && n.Decrypts() && n.keyLabel == name
  {
    hide Base64.Decode, Base64.Encode, TableOk;
    if way.Some? && way2.Some? {
      ListedDecodes(e, tables, name, way.value);
      ListedDecodes(e, tables, name, way2.value);
      if Base64.Decode(way.value) == Base64.Decode(way2.value) {
        Base64.DecodeInjective(way.value, way2.value);
      }
    }
  }

  lemma ListedDecodes(e: Env, tables: set<Table>, name: string, p: string)
    requires TablesOk(e, tables) && (Encrypts(tables, name, Some(p)) || Decrypts(tables, name, Some(p)))
    ensures Base64.Decode(p).Some?
  {
    hide Base64.Decode;
  }

  /** The process that encrypts in one way and then, started with another table perhaps, hands the
      ciphertext to a decrypt in the other way. */
  lemma CrossedRun(e: Env, base: seq<Chain.Entry>, t: Table, g: Grant, way: Option<string>, t2: Table, g2: Grant, way2: Option<string>,
                   h: Handle, p: Handle, q: Handle, iv: seq<byte>) returns (s: State, x: Started)
    requires EnvOk(e) && Chain.Chained(e.sha, base) && TableOk(t, e.integrity) && TableOk(t2, e.integrity)
    requires EncryptOp(g.op) && Way(t, g, way) && DecryptOp(g2.op) && Way(t2, g2, way2) && g2.keyLabel == g.keyLabel
    requires |Utf8(g.keyLabel)| < U64 && Works(e, g.keyLabel, way, h, iv)
    requires p in e.token && IsTheKey(e.token, PrivateKey, e.integrity, p) && q in e.token && IsTheKey(e.token, PublicKey, e.integrity, q)
    ensures ReachedWith(e, {t, t2}, base, s) && x in s.started && x.cmd.keyLabel == g.keyLabel
    ensures var ct := Served.CipherOf(e, EncryptCmdIn(g.keyLabel, way), h, iv);
      Replies.MainCmd(DecryptIn(g.keyLabel, way2, ct, iv), x.cmd)
    ensures |s.hsm.uses| == 3 && s.hsm.uses[0].cmd == EncryptCmdIn(g.keyLabel, way)
    ensures !s.hsm.uses[1].cmd.Encrypts() && !s.hsm.uses[2].cmd.Encrypts()
  {
    hide Ties, Served.Quietly, TableOk, IsTheKey, Works, Served.CanEncrypt, Served.CanCheck, EncryptIn, DecryptIn, EncryptCmdIn, Replies.MainCmd,
      Served.CipherOf, R.Presents, R.OnRecord, Served.Calm, Served.SealedAnswer, P.IntegrityPayload, Chain.Chained, Way, Next, EnvOk, Utf8;
    var name := g.keyLabel;
    var req, cmd := EncryptIn(name, way), EncryptCmdIn(name, way);
    EncryptInWorks(e, t, g, way, h, p, iv);
    Served.CanParts(e, P.Settings(t, e.integrity), g.cn, req, cmd, h, p, iv);
    var s0 := Machine.Start(e, t, base);
    StartTies(e, t, base);
    Served.StartCalm(e, t, base);
    var s1 := Served.EncryptAlone(e, s0, 0, g.cn, req, cmd, h, p, iv, []);
    var s2 := Served.RestartAlone(e, s1, t2);
    var ct := Served.CipherOf(e, cmd, h, iv);
    var req2 := DecryptIn(name, way2, ct, iv);
    SizesOf(e, name, way, h, iv);
    DecryptInChecks(e, t2, g2, way2, q, ct, iv);
    PresentsIt(name, way, way2, ct, iv);
    Served.SealRecorded(e, s2.hsm.signed, req, cmd, h, p, iv, [], req2);
    var s3 := Served.CheckAlone(e, s2, 1, g2.cn, req2, q);
    s, x := EnterNow(e, s3, 1);
    LabelOf(req2, x.cmd, name, way2, ct, iv);
    CrossedReach(e, t, t2, base, s0, s1, s2, s3, s, HsmStep(M.Enter(1, x.cmd)));
  }

  lemma SizesOf(e: Env, name: string, way: Option<string>, h: Handle, iv: seq<byte>)
    requires Works(e, name, way, h, iv)
    ensures h in e.token && EncryptCmdIn(name, way).Encrypts() && |iv| == 16
    ensures |Base64.Encode(Served.CipherOf(e, EncryptCmdIn(name, way), h, iv))| < U64
  {
    hide Base64.Encode, Base64.Decode;
  }

  lemma PresentsIt(name: string, way: Option<string>, way2: Option<string>, ct: seq<byte>, iv: seq<byte>)
    ensures R.Presents(EncryptIn(name, way), Served.SealedAnswer(ct, iv, []), DecryptIn(name, way2, ct, iv))
    ensures EncryptIn(name, way).keyLabel == name && EncryptCmdIn(name, way).keyLabel == name
  {
    hide Base64.Encode, Base64.Decode;
  }

  lemma LabelOf(req: Request, cmd: Cmd, name: string, way: Option<string>, ct: seq<byte>, iv: seq<byte>)
    requires req == DecryptIn(name, way, ct, iv) && Replies.MainCmd(req, cmd)
    ensures cmd.keyLabel == name
  {
    hide Base64.Encode, Base64.Decode;
  }

  lemma EnterNow(e: Env, s: State, tid: Tid) returns (s': State, x: Started)
    requires TaskCalls(s, tid) && tid !in s.hsm.calls
    ensures x.cmd == s.tasks[tid].pc.cmd && Next(e, s, HsmStep(M.Enter(tid, x.cmd))) == Some(s')
    ensures x in s'.started && s'.hsm.uses == s.hsm.uses
  {
    s' := NextHsm(e, s, M.Enter(tid, s.tasks[tid].pc.cmd)).value;
    x := s'.started[|s.started|];
  }

  lemma CrossedReach(e: Env, t: Table, t2: Table, base: seq<Chain.Entry>, s0: State, s1: State, s2: State, s3: State, s4: State, st: Step)
    requires s0 == Machine.Start(e, t, base) && Served.Quietly(e, s0, s1) && Next(e, s1, Restart(t2)) == Some(s2)
    requires Served.Quietly(e, s2, s3) && Next(e, s3, st) == Some(s4) && !st.Restart?
    ensures ReachedWith(e, {t, t2}, base, s4)
  {
    hide Run, Next;
    var a :| Served.NoRestart(a) && Run(e, s0, a) == Some(s1);
    var b :| Served.NoRestart(b) && Run(e, s2, b) == Some(s3);
    Served.RunOne(e, s1, Restart(t2), s2);
    Served.RunOne(e, s3, st, s4);
    Served.RunConcat(e, s2, b, s3, [st], s4);
    Served.RunConcat(e, s1, [Restart(t2)], s2, b + [st], s4);
    Served.RunConcat(e, s0, a, s1, [Restart(t2)] + (b + [st]), s4);
    assert LoadsOnly(a + ([Restart(t2)] + (b + [st])), {t, t2});
  }

  lemma MoreTables(e: Env, some: set<Table>, all: set<Table>, base: seq<Chain.Entry>, s: State)
    requires ReachedWith(e, some, base, s) && some <= all
    ensures ReachedWith(e, all, base, s)
  {
    hide Run;
    var table, steps :| table in some && LoadsOnly(steps, some) && Run(e, Machine.Start(e, table, base), steps) == Some(s);
    assert LoadsOnly(steps, all);
  }

  /** If the keys do not agree, there is a run in which a ciphertext is handed to a decrypt under another
      key than the one that made it. */
  lemma DisagreeingKeysFail(e: Env, tables: set<Table>, base: seq<Chain.Entry>, name: string) returns (s: State, x: Started)
    requires EnvOk(e) && TablesOk(e, tables) && Chain.Chained(e.sha, base) && Equipped(e, tables, name) && !KeysAgree(tables, name)
    ensures ReachedWith(e, tables, base, s) && x in s.started && x.cmd.Decrypts() && x.cmd.keyLabel == name
    ensures !BySameKey(e, s.hsm.uses, x)
  {
    hide EnvOk, TableOk, Chain.Chained, IsTheKey, Works, Way, ReachedWith, EncryptIn, DecryptIn, EncryptCmdIn, Replies.MainCmd, Utf8, SameKey,
      V.SignedAt, Served.CipherOf;
    var way, way2 :| Encrypts(tables, name, way) && Decrypts(tables, name, way2) && way != way2;
    var t: Table, g: Grant :| t in tables && g.keyLabel == name && EncryptOp(g.op) && Way(t, g, way);
    var t2: Table, g2: Grant :| t2 in tables && g2.keyLabel == name && DecryptOp(g2.op) && Way(t2, g2, way2);
    var h, iv :| Works(e, name, way, h, iv);
    var p :| p in e.token && IsTheKey(e.token, PrivateKey, e.integrity, p);
    var q :| q in e.token && IsTheKey(e.token, PublicKey, e.integrity, q);
    SizesOf(e, name, way, h, iv);
    s, x := CrossedRun(e, base, t, g, way, t2, g2, way2, h, p, q, iv);
    MoreTables(e, {t, t2}, tables, base, s);
    WaysDiffer(e, tables, name, way, way2, x.cmd, Served.CipherOf(e, EncryptCmdIn(name, way), h, iv), iv);
    forall i, u | V.EncryptedAt(s.hsm.uses, i, u, x.cmd.keyLabel, x.cmd.iv, x.cmd.ct) ensures !SameKey(s.hsm.uses[i].cmd, x.cmd) {
      assert i == 0 || i == 1 || i == 2;
    }
  }

  /** Every ciphertext is decrypted only under the key that made it, in every run of processes that load
      these tables, exactly if the tables let one encrypt and decrypt with the label in one way only. */
  lemma SameKeyIffAgree(e: Env, tables: set<Table>, base: seq<Chain.Entry>, name: string)
    requires EnvOk(e) && TablesOk(e, tables) && Chain.Chained(e.sha, base) && Equipped(e, tables, name)
    ensures KeysAgree(tables, name) <==>
      forall s, x :: ReachedWith(e, tables, base, s) && x in s.started && x.cmd.Decrypts() && x.cmd.keyLabel == name ==>
        BySameKey(e, s.hsm.uses, x)
  {
    hide EnvOk, TablesOk, Chain.Chained, Equipped, KeysAgree, ReachedWith, BySameKey;
    if KeysAgree(tables, name) {
      forall s, x | ReachedWith(e, tables, base, s) && x in s.started && x.cmd.Decrypts() && x.cmd.keyLabel == name
        ensures BySameKey(e, s.hsm.uses, x)
      {
        AgreeingKeysSuffice(e, tables, base, name, s, x);
      }
    } else {
      var s, x := DisagreeingKeysFail(e, tables, base, name);
    }
  }
}
