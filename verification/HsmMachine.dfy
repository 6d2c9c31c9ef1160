/** HSM commands running side by side (src/hsm.rs): each opens a session, finds its key, perhaps
    derives a session key, uses it, and closes. Every step is a step of its own. */
module HsmMachine {
  import opened Wrappers
  import opened Bytes
  import opened Token

  type Tid = nat

  datatype Call =
    | Entered(cmd: Cmd)
    | InSession(cmd: Cmd)
    | HasKey(cmd: Cmd, h: Handle)
    | HasDerived(cmd: Cmd, h: Handle)
    | Answered(cmd: Cmd, ans: Answer)

  /** One key use on the device: who asked for what, and the answer. */
  datatype Use = Use(tid: Tid, cmd: Cmd, ans: Answer)

  datatype Hsm = Hsm(objects: Store, signed: Signed, calls: map<Tid, Call>, uses: seq<Use>)

  datatype Step =
    | Enter(tid: Tid, cmd: Cmd)
    | OpenSession(tid: Tid)
    | FindKey(tid: Tid)
    | Derive(tid: Tid, h: Handle)
    | UseKey(tid: Tid, random: seq<byte>)
    | GiveUp(tid: Tid)
    | Finish(tid: Tid)

  /** A token with these objects and these signatures made so far. */
  function Ready(objects: Store, signed: Signed): Hsm {
    Hsm(objects, signed, map[], [])
  }

  /** After the process using it has died: its sessions are gone with all they held. */
  function Restarted(token: Store, s: Hsm): Hsm {
    Hsm(token, s.signed, map[], s.uses)
  }

  ghost function Next(c: Crypto, s: Hsm, st: Step): Option<Hsm> {
    if st.Enter? then
      if st.tid in s.calls then None else Some(Put(s, st.tid, Entered(st.cmd)))
    else if st.tid !in s.calls then None
    else
      match st
      case OpenSession(t) => OpenNow(s, t)
      case FindKey(t) => FindNow(s, t)
      case Derive(t, h) => DeriveNow(c, s, t, h)
      case UseKey(t, random) => UseNow(c, s, t, random)
      case GiveUp(t) => if s.calls[t].Answered? then None else Some(Put(s, t, Answered(s.calls[t].cmd, Failed)))
      case Finish(t) =>
        if s.calls[t].Answered?
        then Some(s.(calls := s.calls - {t}, objects := WithoutSession(s.objects, t))) else None
      case Enter(_, _) => None
  }

  function Put(s: Hsm, t: Tid, call: Call): Hsm {
    s.(calls := s.calls[t := call])
  }

  /** An IV of the wrong length is refused before any session is opened. */
  ghost function OpenNow(s: Hsm, t: Tid): Option<Hsm>
    requires t in s.calls
  {
    var cmd := s.calls[t].cmd;
    if s.calls[t].Entered? && (cmd.Decrypts() ==> |cmd.iv| == 16) then Some(Put(s, t, InSession(cmd))) else None
  }

  ghost function FindNow(s: Hsm, t: Tid): Option<Hsm>
    requires t in s.calls
  {
    var cmd := s.calls[t].cmd;
    if !s.calls[t].InSession? then None
    else if h :| h in s.objects && IsTheKey(s.objects, KindFor(cmd), cmd.keyLabel, h) then
      Some(Put(s, t, HasKey(cmd, h)))
    else Some(Put(s, t, Answered(cmd, Failed)))
  }

  ghost function DeriveNow(c: Crypto, s: Hsm, t: Tid, h: Handle): Option<Hsm>
    requires t in s.calls
  {
    var call := s.calls[t];
    if call.HasKey? && call.h in s.objects && call.cmd.Derives() && h !in s.objects then
      var template := Template(SecretKey, true, DERIVED_AES_LEN, false, true, true, true);
      var derived := Derived(c, s.objects[call.h].key, call.cmd.peer, KDF_SHARED_DATA, template, t);
      Some(Put(s, t, HasDerived(call.cmd, h)).(objects := s.objects[h := derived]))
    else None
  }

  ghost predicate CanUse(s: Hsm, t: Tid)
    requires t in s.calls
  {
    var call := s.calls[t];
    (if call.cmd.Derives() then call.HasDerived? else call.HasKey?) && call.h in s.objects
  }

  /** The device works with the key; `random` is the signature or the IV it produces. */
  ghost function UseNow(c: Crypto, s: Hsm, t: Tid, random: seq<byte>): Option<Hsm>
    requires t in s.calls
  {
    if !CanUse(s, t) then None
    else
      var cmd, key := s.calls[t].cmd, s.objects[s.calls[t].h].key;
      match Result(c, s.signed, cmd, key, random)
      case None => None
      case Some(ans) =>
        Some(Put(s, t, Answered(cmd, ans)).(
          uses := s.uses + [Use(t, cmd, ans)],
          signed := if cmd.SignCmd? then s.signed + {(key, cmd.data, random)} else s.signed))
  }

  ghost function Result(c: Crypto, signed: Signed, cmd: Cmd, key: seq<byte>, random: seq<byte>): Option<Answer> {
    match cmd
    case SignCmd(_, _) => Some(Signature(random))
    case VerifyCmd(_, data, sig) => Some(Verdict((key, data, sig) in signed))
    case EncryptCmd(_, pt) => ResultEncrypt(c, key, pt, random)
    case DeriveEncryptCmd(_, _, pt) => ResultEncrypt(c, key, pt, random)
    case DecryptCmd(_, ct, iv) => Some(ResultDecrypt(c, key, ct, iv))
    case DeriveDecryptCmd(_, _, ct, iv) => Some(ResultDecrypt(c, key, ct, iv))
  }

  ghost function ResultEncrypt(c: Crypto, key: seq<byte>, pt: seq<byte>, iv: seq<byte>): Option<Answer> {
    if |iv| == 16 && |c.encrypt(key, iv, pt)| < U64 then Some(Ciphertext(iv, c.encrypt(key, iv, pt))) else None
  }

  ghost function ResultDecrypt(c: Crypto, key: seq<byte>, ct: seq<byte>, iv: seq<byte>): Answer {
    if |iv| != 16 then Failed
    else match c.decrypt(key, iv, ct) case None => Failed case Some(pt) => Plaintext(pt)
  }

  // --------------------------------------------------------- Invariant

  /** A lookup that cannot be meant for an unlabelled session key. */
  predicate Named(cmd: Cmd) {
    KindFor(cmd) == SecretKey ==> cmd.keyLabel != ""
  }

  ghost predicate IsToken(token: Store) {
    forall h :: h in token ==> token[h].owner.None?
  }

  /** Beyond the token objects there are only the session keys of running calls: unlabelled, sensitive, for
      AES-256. */
  ghost predicate StoreOk(token: Store, s: Hsm) {
    && (forall h :: h in token ==> h in s.objects && s.objects[h] == token[h])
    && (forall h :: h in s.objects && h !in token ==>
          && s.objects[h].owner.Some? && s.objects[h].owner.value in s.calls
          && IsSessionAesKey(s.objects[h], s.objects[h].owner.value))
  }

  /** What an answer says of the one key it came from, for good. */
  ghost predicate Lasting(c: Crypto, token: Store, signed: Signed, cmd: Cmd, ans: Answer) {
    exists h :: h in token && IsTheKey(token, KindFor(cmd), cmd.keyLabel, h)
                && LastingWith(c, UsedKey(c, token[h].key, cmd), signed, cmd, ans)
  }

  ghost predicate LastingWith(c: Crypto, key: seq<byte>, signed: Signed, cmd: Cmd, ans: Answer) {
    match cmd
    case SignCmd(_, data) => ans.Signature? && (key, data, ans.sig) in signed
    case VerifyCmd(_, data, sig) => ans.Verdict? && (ans.valid ==> (key, data, sig) in signed)
    case EncryptCmd(_, pt) => Encrypted(c, key, pt, ans)
    case DeriveEncryptCmd(_, _, pt) => Encrypted(c, key, pt, ans)
    case DecryptCmd(_, ct, iv) => Decrypted(c, key, ct, iv, ans)
    case DeriveDecryptCmd(_, _, ct, iv) => Decrypted(c, key, ct, iv, ans)
  }

  lemma LastingGrows(c: Crypto, token: Store, signed: Signed, now: Signed, cmd: Cmd, ans: Answer)
    requires Lasting(c, token, signed, cmd, ans) && signed <= now
    ensures Lasting(c, token, now, cmd, ans)
  {
    var h :| h in token && IsTheKey(token, KindFor(cmd), cmd.keyLabel, h)
             && LastingWith(c, UsedKey(c, token[h].key, cmd), signed, cmd, ans);
    assert LastingWith(c, UsedKey(c, token[h].key, cmd), now, cmd, ans);
  }

  /** An answer given now lasts. */
  lemma AnswersLast(c: Crypto, token: Store, was: Signed, cmd: Cmd, ans: Answer, now: Signed)
    requires Token.Answers(c, token, was, cmd, ans, now) && !ans.Failed?
    ensures Lasting(c, token, now, cmd, ans)
  {
    var h :| IsTheKey(token, KindFor(cmd), cmd.keyLabel, h) && h in token
             && AnswersWith(c, UsedKey(c, token[h].key, cmd), was, cmd, ans, now);
    assert LastingWith(c, UsedKey(c, token[h].key, cmd), now, cmd, ans);
  }

  ghost predicate CallOk(c: Crypto, token: Store, s: Hsm, t: Tid)
    requires t in s.calls
  {
    var cmd := s.calls[t].cmd;
    && Named(cmd)
    && match s.calls[t]
       case Entered(_) => true
       case InSession(_) => cmd.Decrypts() ==> |cmd.iv| == 16
       case HasKey(_, h) =>
         (cmd.Decrypts() ==> |cmd.iv| == 16) && h in token && IsTheKey(token, KindFor(cmd), cmd.keyLabel, h)
       case HasDerived(_, h) =>
         && (cmd.Decrypts() ==> |cmd.iv| == 16) && cmd.Derives()
         && h in s.objects && h !in token && s.objects[h].owner == Some(t)
         && exists b :: b in token && IsTheKey(token, KindFor(cmd), cmd.keyLabel, b)
                        && s.objects[h].key == UsedKey(c, token[b].key, cmd)
       case Answered(_, ans) => ans.Failed? || (Use(t, cmd, ans) in s.uses && Lasting(c, token, s.signed, cmd, ans))
  }

  ghost predicate Inv(c: Crypto, token: Store, s: Hsm) {
    IsToken(token) && StoreOk(token, s) && forall t :: t in s.calls ==> CallOk(c, token, s, t)
  }

  /** Derived keys are out of reach: whatever is being derived at the moment, a lookup finds exactly
      the token objects it would find with nothing going on. */
  lemma LookupsSeeTokenObjects(c: Crypto, token: Store, s: Hsm, kind: Kind, keyLabel: string)
    requires Inv(c, token, s)
    ensures kind != SecretKey || keyLabel != "" ==> Matches(s.objects, kind, keyLabel) == Matches(token, kind, keyLabel)
  {
  }

  /** A step of one call leaves the others where they are. */
  lemma OthersKeep(c: Crypto, token: Store, s: Hsm, s': Hsm, t: Tid)
    requires Inv(c, token, s)
    requires forall u :: u != t ==> (u in s'.calls <==> u in s.calls)
    requires forall u :: u != t && u in s.calls ==> s'.calls[u] == s.calls[u]
    requires forall h :: h in s.objects && s.objects[h].owner != Some(t) ==> h in s'.objects && s'.objects[h] == s.objects[h]
    requires s.uses <= s'.uses && s.signed <= s'.signed
    ensures forall u :: u != t && u in s'.calls ==> CallOk(c, token, s', u)
  {
    forall u | u != t && u in s'.calls
      ensures CallOk(c, token, s', u)
    {
      hide IsTheKey, UsedKey, Lasting;
      assert CallOk(c, token, s, u);
      if s.calls[u].Answered? && !s.calls[u].ans.Failed? {
        LastingGrows(c, token, s.signed, s'.signed, s.calls[u].cmd, s.calls[u].ans);
      }
    }
  }

  lemma PutKeepsInv(c: Crypto, token: Store, s: Hsm, t: Tid, call: Call)
    requires Inv(c, token, s) && CallOk(c, token, Put(s, t, call), t)
    ensures Inv(c, token, Put(s, t, call))
  {
    OthersKeep(c, token, s, Put(s, t, call), t);
  }

  lemma FindKeepsInv(c: Crypto, token: Store, s: Hsm, t: Tid, s': Hsm)
    requires Inv(c, token, s) && t in s.calls && FindNow(s, t) == Some(s')
    ensures Inv(c, token, s')
  {
    var cmd := s.calls[t].cmd;
    assert CallOk(c, token, s, t);
    LookupsSeeTokenObjects(c, token, s, KindFor(cmd), cmd.keyLabel);
    if s'.calls[t].HasKey? {
      assert s'.calls[t].h in Matches(token, KindFor(cmd), cmd.keyLabel);
    }
    PutKeepsInv(c, token, s, t, s'.calls[t]);
  }

  lemma DeriveKeepsInv(c: Crypto, token: Store, s: Hsm, t: Tid, h: Handle, s': Hsm)
    requires Inv(c, token, s) && t in s.calls && DeriveNow(c, s, t, h) == Some(s')
    ensures Inv(c, token, s')
  {
    var b := s.calls[t].h;
    assert CallOk(c, token, s, t);
    assert b in token && IsTheKey(token, KindFor(s.calls[t].cmd), s.calls[t].cmd.keyLabel, b);
    assert s'.objects[h].key == UsedKey(c, token[b].key, s.calls[t].cmd);
    OthersKeep(c, token, s, s', t);
    assert CallOk(c, token, s', t);
  }

  lemma ResultAnswers(c: Crypto, signed: Signed, cmd: Cmd, key: seq<byte>, random: seq<byte>, now: Signed)
    requires Result(c, signed, cmd, key, random).Some?
    requires now == if cmd.SignCmd? then signed + {(key, cmd.data, random)} else signed
    ensures var ans := Result(c, signed, cmd, key, random).value;
      if ans.Failed? then now == signed else AnswersWith(c, key, signed, cmd, ans, now)
  {
  }

  /** Side by side is as good as one at a time: the only step that signs anything or works with a
      key is one that answers its command just as if it ran alone on the token objects. */
  lemma UseIsAtomic(c: Crypto, token: Store, s: Hsm, st: Step, s': Hsm)
    requires Inv(c, token, s) && Next(c, s, st) == Some(s')
    ensures !st.UseKey? ==> s'.signed == s.signed && s'.uses == s.uses
    ensures st.UseKey? ==>
      var cmd := s.calls[st.tid].cmd;
      exists ans ::
        && Answers(c, token, s.signed, cmd, ans, s'.signed)
        && s'.uses == s.uses + [Use(st.tid, cmd, ans)] && s'.calls == s.calls[st.tid := Answered(cmd, ans)]
  {
    if st.UseKey? {
      var t := st.tid;
      var cmd := s.calls[t].cmd;
      assert CallOk(c, token, s, t);
      var h := s.calls[t].h;
      var key := s.objects[h].key;
      var ans := Result(c, s.signed, cmd, key, st.random).value;
      ResultAnswers(c, s.signed, cmd, key, st.random, s'.signed);
      if !ans.Failed? {
        var b := if cmd.Derives() then TheBase(c, token, s, t) else h;
        AnswersByKey(c, token, s.signed, cmd, b, ans, s'.signed);
      }
      assert Answers(c, token, s.signed, cmd, ans, s'.signed);
    }
  }

  /** The token key a derived key came from. */
  ghost function TheBase(c: Crypto, token: Store, s: Hsm, t: Tid): (b: Handle)
    requires t in s.calls && s.calls[t].HasDerived? && CallOk(c, token, s, t)
    ensures b in token && IsTheKey(token, KindFor(s.calls[t].cmd), s.calls[t].cmd.keyLabel, b)
    ensures s.objects[s.calls[t].h].key == UsedKey(c, token[b].key, s.calls[t].cmd)
  {
    var cmd := s.calls[t].cmd;
    var b :| b in token && IsTheKey(token, KindFor(cmd), cmd.keyLabel, b)
             && s.objects[s.calls[t].h].key == UsedKey(c, token[b].key, cmd);
    b
  }

  lemma UseKeepsInv(c: Crypto, token: Store, s: Hsm, t: Tid, random: seq<byte>, s': Hsm)
    requires Inv(c, token, s) && t in s.calls && UseNow(c, s, t, random) == Some(s')
    ensures Inv(c, token, s')
  {
    hide CallOk, IsTheKey, UsedKey, Result;
    OthersKeep(c, token, s, s', t);
    UsedOk(c, token, s, t, random, s');
  }

  lemma UsedOk(c: Crypto, token: Store, s: Hsm, t: Tid, random: seq<byte>, s': Hsm)
    requires Inv(c, token, s) && t in s.calls && UseNow(c, s, t, random) == Some(s')
    ensures t in s'.calls && CallOk(c, token, s', t)
  {
    hide Lasting, IsTheKey, UsedKey, Result, StoreOk;
    assert CallOk(c, token, s, t);
    assert s'.uses[|s.uses|] in s'.uses;
    UseIsAtomic(c, token, s, UseKey(t, random), s');
    var cmd, ans := s.calls[t].cmd, s'.calls[t].ans;
    if !ans.Failed? {
      AnswersLast(c, token, s.signed, cmd, ans, s'.signed);
    }
  }

  lemma FinishKeepsInv(c: Crypto, token: Store, s: Hsm, t: Tid, s': Hsm)
    requires Inv(c, token, s) && Next(c, s, Finish(t)) == Some(s')
    ensures Inv(c, token, s')
  {
    OthersKeep(c, token, s, s', t);
  }

  lemma NextKeepsInv(c: Crypto, token: Store, s: Hsm, st: Step, s': Hsm)
    requires Inv(c, token, s) && Next(c, s, st) == Some(s')
    requires st.Enter? ==> Named(st.cmd)
    ensures Inv(c, token, s')
  {
    var t := st.tid;
    if t in s.calls {
      assert CallOk(c, token, s, t);
    }
    match st
    case Enter(_, cmd) => PutKeepsInv(c, token, s, t, Entered(cmd));
    case OpenSession(_) => PutKeepsInv(c, token, s, t, s'.calls[t]);
    case FindKey(_) => FindKeepsInv(c, token, s, t, s');
    case Derive(_, h) => DeriveKeepsInv(c, token, s, t, h, s');
    case UseKey(_, random) => UseKeepsInv(c, token, s, t, random, s');
    case GiveUp(_) => PutKeepsInv(c, token, s, t, s'.calls[t]);
    case Finish(_) => FinishKeepsInv(c, token, s, t, s');
  }

  ghost function Run(c: Crypto, s: Hsm, steps: seq<Step>): Option<Hsm>
    decreases |steps|
  {
    if steps == [] then Some(s)
    else match Next(c, s, steps[0])
      case None => None
      case Some(r) => Run(c, r, steps[1..])
  }

  /** In every run of any number of calls: lookups only ever see token objects, the token objects
      stay as they are, and when no call is under way nothing else is left. */
  lemma {:induction false} RunKeepsToken(c: Crypto, token: Store, s: Hsm, steps: seq<Step>, s': Hsm)
    requires Inv(c, token, s) && Run(c, s, steps) == Some(s')
    requires forall st :: st in steps && st.Enter? ==> Named(st.cmd)
    ensures Inv(c, token, s')
    ensures forall kind, keyLabel :: kind != SecretKey || keyLabel != "" ==>
      Matches(s'.objects, kind, keyLabel) == Matches(token, kind, keyLabel)
    ensures s'.calls == map[] ==> s'.objects == token
    decreases |steps|
  {
    if steps == [] {
      forall kind, keyLabel | kind != SecretKey || keyLabel != ""
        ensures Matches(s'.objects, kind, keyLabel) == Matches(token, kind, keyLabel)
      {
        LookupsSeeTokenObjects(c, token, s', kind, keyLabel);
      }
    } else {
      var r := Next(c, s, steps[0]).value;
      NextKeepsInv(c, token, s, steps[0], r);
      RunKeepsToken(c, token, r, steps[1..], s');
    }
  }

  // --------------------------------------------------- One at a time

  /** What one use adds to the record of signatures. */
  function Recorded(token: Store, u: Use): Signed {
    if u.cmd.SignCmd? && u.ans.Signature?
    then set h | h in token && IsTheKey(token, PrivateKey, u.cmd.keyLabel, h) :: (token[h].key, u.cmd.data, u.ans.sig)
    else {}
  }

  /** Everything signed after these uses, the signatures in `made` being there before. */
  function RecordOf(token: Store, made: Signed, uses: seq<Use>): Signed {
    if uses == [] then made else RecordOf(token, made, uses[..|uses| - 1]) + Recorded(token, uses[|uses| - 1])
  }

  /** Use `j` answers just as a command run alone would, given exactly what the uses before it signed. */
  ghost predicate InOrder(c: Crypto, token: Store, made: Signed, uses: seq<Use>, j: nat)
    requires j < |uses|
  {
    Answers(c, token, RecordOf(token, made, uses[..j]), uses[j].cmd, uses[j].ans, RecordOf(token, made, uses[..j + 1]))
  }

  /** The interleaved calls are worth the sequence of their key uses, run one at a time. */
  ghost predicate OneAtATime(c: Crypto, token: Store, made: Signed, s: Hsm) {
    s.signed == RecordOf(token, made, s.uses) && forall j :: 0 <= j < |s.uses| ==> InOrder(c, token, made, s.uses, j)
  }

  lemma AnswerRecords(c: Crypto, token: Store, was: Signed, u: Use, now: Signed)
    requires Answers(c, token, was, u.cmd, u.ans, now)
    ensures now == was + Recorded(token, u)
  {
    if !u.ans.Failed? {
      var h :| IsTheKey(token, KindFor(u.cmd), u.cmd.keyLabel, h) && h in token
               && AnswersWith(c, UsedKey(c, token[h].key, u.cmd), was, u.cmd, u.ans, now);
      assert forall k :: k in token && IsTheKey(token, KindFor(u.cmd), u.cmd.keyLabel, k) ==> k == h by {
        assert h in Matches(token, KindFor(u.cmd), u.cmd.keyLabel);
      }
    }
  }

  lemma OneMoreUse(c: Crypto, token: Store, made: Signed, s: Hsm, u: Use, s': Hsm)
    requires OneAtATime(c, token, made, s) && s'.uses == s.uses + [u]
    requires Answers(c, token, s.signed, u.cmd, u.ans, s'.signed)
    ensures OneAtATime(c, token, made, s')
  {
    hide Answers, Recorded;
    AnswerRecords(c, token, s.signed, u, s'.signed);
    var n := |s.uses|;
    assert s'.uses[..n] == s.uses && s'.uses[..n + 1] == s'.uses;
    forall j | 0 <= j < |s'.uses| ensures InOrder(c, token, made, s'.uses, j) {
      if j < n {
        assert s'.uses[..j] == s.uses[..j] && s'.uses[..j + 1] == s.uses[..j + 1];
        assert InOrder(c, token, made, s.uses, j);
      }
    }
  }

  lemma NextKeepsOrder(c: Crypto, token: Store, made: Signed, s: Hsm, st: Step, s': Hsm)
    requires Inv(c, token, s) && OneAtATime(c, token, made, s) && Next(c, s, st) == Some(s')
    ensures OneAtATime(c, token, made, s')
  {
    hide Inv, Next, OneAtATime, Answers;
    UseIsAtomic(c, token, s, st, s');
    if st.UseKey? {
      UseThere(c, s, st, s');
      var cmd := s.calls[st.tid].cmd;
      var ans :| Answers(c, token, s.signed, cmd, ans, s'.signed) && s'.uses == s.uses + [Use(st.tid, cmd, ans)];
      OneMoreUse(c, token, made, s, Use(st.tid, cmd, ans), s');
    } else {
      SameOrder(c, token, made, s, s');
    }
  }

  lemma UseThere(c: Crypto, s: Hsm, st: Step, s': Hsm)
    requires Next(c, s, st) == Some(s') && st.UseKey?
    ensures st.tid in s.calls
  {
  }

  lemma SameOrder(c: Crypto, token: Store, made: Signed, s: Hsm, s': Hsm)
    requires OneAtATime(c, token, made, s) && s'.signed == s.signed && s'.uses == s.uses
    ensures OneAtATime(c, token, made, s')
  {
  }

  /** In every run, interleaved calls answer as the sequence of their key uses would, run one at a
      time: in particular a verification says `true` exactly if those data were signed before. */
  lemma {:induction false} RunsAreSequential(c: Crypto, token: Store, made: Signed, s: Hsm, steps: seq<Step>, s': Hsm)
    requires Inv(c, token, s) && OneAtATime(c, token, made, s) && Run(c, s, steps) == Some(s')
    requires forall st :: st in steps && st.Enter? ==> Named(st.cmd)
    ensures OneAtATime(c, token, made, s')
    decreases |steps|
  {
    hide Inv, Next, OneAtATime;
    if steps != [] {
      var r := Next(c, s, steps[0]).value;
      NextKeepsInv(c, token, s, steps[0], r);
      NextKeepsOrder(c, token, made, s, steps[0], r);
      RunsAreSequential(c, token, made, r, steps[1..], s');
    }
  }

  lemma ReadyInOrder(c: Crypto, token: Store, made: Signed)
    ensures OneAtATime(c, token, made, Ready(token, made))
  {
  }

  lemma ReadyInv(c: Crypto, token: Store, signed: Signed)
    requires IsToken(token)
    ensures Inv(c, token, Ready(token, signed))
  {
  }

  lemma RestartedInv(c: Crypto, token: Store, s: Hsm)
    requires IsToken(token)
    ensures Inv(c, token, Restarted(token, s))
  {
  }
}
