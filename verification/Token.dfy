/** The HSM as an object store (src/hsm.rs): keys looked up by label and class, six commands,
    and what each command may answer. */
module Token {
  import opened Wrappers
  import opened Bytes

  type Handle = nat
  type Session = nat

  datatype Kind = PrivateKey | PublicKey | SecretKey

  /** The attributes a key is derived with. */
  datatype Template = Template(kind: Kind, aes: bool, valueLen: nat, onToken: bool,
                               sensitive: bool, encrypt: bool, decrypt: bool)

  /** `key` is the identity of the key material; the two halves of a key pair share it. A token
      object has no owner, a session object belongs to the session that created it; a derived one
      remembers its template. */
  datatype Object = Object(kind: Kind, keyLabel: string, key: seq<byte>, owner: Option<Session>, template: Option<Template>)

  type Store = map<Handle, Object>

  /** Who signed what: key, data, signature. */
  type Signed = set<(seq<byte>, seq<byte>, seq<byte>)>

  /** The primitives of the token, taken as functions. */
  datatype Crypto = Crypto(
    encrypt: (seq<byte>, seq<byte>, seq<byte>) -> seq<byte>,
    decrypt: (seq<byte>, seq<byte>, seq<byte>) -> Option<seq<byte>>,
    derive: (seq<byte>, seq<byte>, string, nat) -> seq<byte>)

  const KDF_SHARED_DATA := "pico-hsm-api-connector/kdf-v1"
  const DERIVED_AES_LEN: nat := 32

  /** The object that deriving from `base` creates in session `s`: it is given no label. */
  function Derived(c: Crypto, base: seq<byte>, peer: seq<byte>, shared: string, t: Template, s: Session): Object {
    Object(t.kind, "", c.derive(base, peer, shared, t.valueLen), if t.onToken then None else Some(s), Some(t))
  }

  /** A sensitive AES key for encryption and decryption that lives and dies with the session. */
  predicate IsSessionAesKey(o: Object, s: Session) {
    && o.kind == SecretKey && o.keyLabel == "" && o.owner == Some(s)
    && o.template == Some(Template(SecretKey, true, DERIVED_AES_LEN, false, true, true, true))
  }

  datatype Cmd =
    | SignCmd(keyLabel: string, data: seq<byte>)
    | VerifyCmd(keyLabel: string, data: seq<byte>, sig: seq<byte>)
    | EncryptCmd(keyLabel: string, pt: seq<byte>)
    | DecryptCmd(keyLabel: string, ct: seq<byte>, iv: seq<byte>)
    | DeriveEncryptCmd(keyLabel: string, peer: seq<byte>, pt: seq<byte>)
    | DeriveDecryptCmd(keyLabel: string, peer: seq<byte>, ct: seq<byte>, iv: seq<byte>)
  {
    predicate Derives() { DeriveEncryptCmd? || DeriveDecryptCmd? }
    predicate Decrypts() { DecryptCmd? || DeriveDecryptCmd? }
    predicate Encrypts() { EncryptCmd? || DeriveEncryptCmd? }
  }

  datatype Answer =
    | Signature(sig: seq<byte>)
    | Verdict(valid: bool)
    | Ciphertext(iv: seq<byte>, ct: seq<byte>)
    | Plaintext(pt: seq<byte>)
    | Failed

  /** The class of object each command looks up. */
  function KindFor(cmd: Cmd): Kind {
    match cmd
    case SignCmd(_, _) => PrivateKey
    case VerifyCmd(_, _, _) => PublicKey
    case EncryptCmd(_, _) => SecretKey
    case DecryptCmd(_, _, _) => SecretKey
    case DeriveEncryptCmd(_, _, _) => PrivateKey
    case DeriveDecryptCmd(_, _, _, _) => PrivateKey
  }

  /** The handles `C_FindObjects` yields for a class and label template. */
  function Matches(objects: Store, kind: Kind, keyLabel: string): set<Handle> {
    set h | h in objects && objects[h].kind == kind && objects[h].keyLabel == keyLabel
  }

  /** `h` is the one object with this label and class. */
  predicate IsTheKey(objects: Store, kind: Kind, keyLabel: string, h: Handle) {
    Matches(objects, kind, keyLabel) == {h}
  }

  predicate HasKey(objects: Store, kind: Kind, keyLabel: string) {
    exists h :: h in objects && IsTheKey(objects, kind, keyLabel, h)
  }

  /** The command can be carried out: there is the one key, and to decrypt an IV of the right length and a
      ciphertext that the key, or the one derived from it, decrypts. */
  predicate Doable(c: Crypto, objects: Store, cmd: Cmd) {
    exists h ::
      && h in objects && IsTheKey(objects, KindFor(cmd), cmd.keyLabel, h)
      && (cmd.Decrypts() ==> |cmd.iv| == 16 && c.decrypt(UsedKey(c, objects[h].key, cmd), cmd.iv, cmd.ct).Some?)
  }

  /** What a command may answer on this store, given what was signed before and after it: either it
      fails and signs nothing, or it used the one key its label names. */
  ghost predicate Answers(c: Crypto, objects: Store, was: Signed, cmd: Cmd, ans: Answer, now: Signed) {
    if ans.Failed? then now == was
    else exists h ::
      && IsTheKey(objects, KindFor(cmd), cmd.keyLabel, h) && h in objects
      && AnswersWith(c, UsedKey(c, objects[h].key, cmd), was, cmd, ans, now)
  }

  /** The key a command works with: the object itself, or the key derived from it and the peer. */
  function UsedKey(c: Crypto, key: seq<byte>, cmd: Cmd): seq<byte> {
    if cmd.Derives() then c.derive(key, cmd.peer, KDF_SHARED_DATA, DERIVED_AES_LEN) else key
  }

  ghost predicate AnswersWith(c: Crypto, key: seq<byte>, was: Signed, cmd: Cmd, ans: Answer, now: Signed) {
    match cmd
    case SignCmd(_, data) => ans.Signature? && now == was + {(key, data, ans.sig)}
    case VerifyCmd(_, data, sig) => ans == Verdict((key, data, sig) in was) && now == was
    case EncryptCmd(_, pt) => Encrypted(c, key, pt, ans) && now == was
    case DeriveEncryptCmd(_, _, pt) => Encrypted(c, key, pt, ans) && now == was
    case DecryptCmd(_, ct, iv) => Decrypted(c, key, ct, iv, ans) && now == was
    case DeriveDecryptCmd(_, _, ct, iv) => Decrypted(c, key, ct, iv, ans) && now == was
  }

  /** AES-CBC under a fresh 16-byte IV. */
  ghost predicate Encrypted(c: Crypto, key: seq<byte>, pt: seq<byte>, ans: Answer) {
    ans.Ciphertext? && |ans.iv| == 16 && |ans.ct| < U64 && ans.ct == c.encrypt(key, ans.iv, pt)
  }

  ghost predicate Decrypted(c: Crypto, key: seq<byte>, ct: seq<byte>, iv: seq<byte>, ans: Answer) {
    |iv| == 16 && ans.Plaintext? && c.decrypt(key, iv, ct) == Some(ans.pt)
  }

  lemma AnswersByKey(c: Crypto, objects: Store, was: Signed, cmd: Cmd, h: Handle, ans: Answer, now: Signed)
    requires h in objects && IsTheKey(objects, KindFor(cmd), cmd.keyLabel, h)
    requires AnswersWith(c, UsedKey(c, objects[h].key, cmd), was, cmd, ans, now)
    ensures Answers(c, objects, was, cmd, ans, now)
  {
  }

  /** The form of an answer follows from the command. */
  lemma AnswerShape(c: Crypto, objects: Store, was: Signed, cmd: Cmd, ans: Answer, now: Signed)
    requires Answers(c, objects, was, cmd, ans, now) && !ans.Failed?
    ensures cmd.SignCmd? <==> ans.Signature?
    ensures cmd.VerifyCmd? <==> ans.Verdict?
    ensures cmd.Encrypts() <==> ans.Ciphertext?
    ensures cmd.Decrypts() <==> ans.Plaintext?
  {
  }

  /** The objects that survive the end of a session. */
  function WithoutSession(objects: Store, s: Session): Store {
    map h | h in objects && objects[h].owner != Some(s) :: objects[h]
  }

  lemma SessionLeavesNothing(objects: Store, s: Session, h: Handle, o: Object)
    requires forall k :: k in objects ==> objects[k].owner != Some(s)
    requires h !in objects && o.owner == Some(s)
    ensures WithoutSession(objects, s) == objects
    ensures WithoutSession(objects[h := o], s) == objects
  {
  }

  /** Which it is, if this is the one key. */
  lemma DoableBy(c: Crypto, objects: Store, cmd: Cmd, h: Handle)
    requires h in objects && IsTheKey(objects, KindFor(cmd), cmd.keyLabel, h)
    ensures Doable(c, objects, cmd) <==>
      (cmd.Decrypts() ==> |cmd.iv| == 16 && c.decrypt(UsedKey(c, objects[h].key, cmd), cmd.iv, cmd.ct).Some?)
  {
    forall k | k in objects && IsTheKey(objects, KindFor(cmd), cmd.keyLabel, k) ensures k == h {
      assert k in Matches(objects, KindFor(cmd), cmd.keyLabel);
    }
  }
}
