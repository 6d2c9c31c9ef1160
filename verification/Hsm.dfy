/** The PKCS#11 client (src/hsm.rs), call by call, over a device that may fail at every step. */
module Hsm {
  import opened Wrappers
  import opened Bytes
  import opened Token
  import opened World

  /** The device: its objects, the record of what was signed, and fresh names for sessions and
      objects. A session object lives until its session is closed. */
  class Device {
    const c: Crypto
    var objects: Store
    var signed: Signed
    var nextSession: Session
    var nextHandle: Handle
    /** Everything the random number generator has given out. */
    ghost var drawn: seq<seq<byte>>
    /** How many calls have failed on the device's side. */
    ghost var failures: nat

    ghost predicate Valid()
      reads this
    {
      && (forall h :: h in objects ==> h < nextHandle)
      && (forall h :: h in objects && objects[h].owner.Some? ==> objects[h].owner.value < nextSession)
    }

    constructor (c: Crypto, tokenObjects: seq<Object>, made: Signed)
      requires forall i :: 0 <= i < |tokenObjects| ==> tokenObjects[i].owner.None?
      ensures Valid() && this.c == c && signed == made && drawn == [] && failures == 0
      ensures objects == map i: nat | i < |tokenObjects| :: tokenObjects[i]
    {
      this.c := c;
      objects := map i: nat | i < |tokenObjects| :: tokenObjects[i];
      signed := made;
      drawn, failures := [], 0;
      nextSession, nextHandle := 0, |tokenObjects|;
    }

    /** `C_OpenSession` and `C_Login`. */
    method OpenSession() returns (r: Option<Session>)
      requires Valid()
      modifies this`nextSession, this`failures
      ensures Valid()
      ensures failures == old(failures) + if r.None? then 1 else 0
      ensures r.Some? ==> r.value < nextSession && forall h :: h in objects ==> objects[h].owner != Some(r.value)
    {
      var works: bool := *;
      if !works {
        failures := failures + 1;
        return None;
      }
      r := Some(nextSession);
      nextSession := nextSession + 1;
    }

    /** Dropping a session destroys its objects. */
    method Close(s: Session)
      requires Valid()
      modifies this`objects
      ensures Valid()
      ensures objects == WithoutSession(old(objects), s)
    {
      objects := WithoutSession(objects, s);
    }

    /** Every object matching a class and label template, once each. */
    method FindObjects(kind: Kind, keyLabel: string) returns (r: Option<seq<Handle>>)
      modifies this`failures
      ensures failures == old(failures) + if r.None? then 1 else 0
      ensures r.Some? ==>
        && (forall h :: h in r.value <==> h in Matches(objects, kind, keyLabel))
        && (forall i, j :: 0 <= i < j < |r.value| ==> r.value[i] != r.value[j])
    {
      var works: bool := *;
      if !works {
        failures := failures + 1;
        return None;
      }
      var rest := Matches(objects, kind, keyLabel);
      var found: seq<Handle> := [];
      while rest != {}
        invariant forall h :: h in found || h in rest <==> h in Matches(objects, kind, keyLabel)
        invariant forall h :: h in found ==> h !in rest
        invariant forall i, j :: 0 <= i < j < |found| ==> found[i] != found[j]
        decreases rest
      {
        var h :| h in rest;
        found, rest := found + [h], rest - {h};
      }
      return Some(found);
    }

    method Sign(h: Handle, data: seq<byte>) returns (r: Option<seq<byte>>)
      requires h in objects
      modifies this`signed, this`failures
      ensures failures == old(failures) + if r.None? then 1 else 0
      ensures signed == if r.Some? then old(signed) + {(objects[h].key, data, r.value)} else old(signed)
    {
      var works: bool := *;
      if !works {
        failures := failures + 1;
        return None;
      }
      var sig: seq<byte> := *;
      signed := signed + {(objects[h].key, data, sig)};
      return Some(sig);
    }

    /** A signature is valid if it was made with the other half of this key over this data. */
    method Verify(h: Handle, data: seq<byte>, sig: seq<byte>) returns (r: Option<bool>)
      requires h in objects
      modifies this`failures
      ensures failures == old(failures) + if r.None? then 1 else 0
      ensures r.Some? ==> r.value == ((objects[h].key, data, sig) in signed)
    {
      var works: bool := *;
      if !works {
        failures := failures + 1;
        return None;
      }
      return Some((objects[h].key, data, sig) in signed);
    }

    method Encrypt(h: Handle, iv: seq<byte>, pt: seq<byte>) returns (r: Option<seq<byte>>)
      requires h in objects
      modifies this`failures
      ensures failures == old(failures) + if r.None? then 1 else 0
      ensures r.Some? ==> r.value == c.encrypt(objects[h].key, iv, pt) && |r.value| < U64
    {
      var works: bool := *;
      var ct := c.encrypt(objects[h].key, iv, pt);
      if !works || |ct| >= U64 {
        failures := failures + 1;
        return None;
      }
      return Some(ct);
    }

    /** That the key does not decrypt the ciphertext is no failure. */
    method Decrypt(h: Handle, iv: seq<byte>, ct: seq<byte>) returns (r: Option<seq<byte>>)
      requires h in objects
      modifies this`failures
      ensures old(failures) <= failures <= old(failures) + 1
      ensures r.None? <==> failures > old(failures) || c.decrypt(objects[h].key, iv, ct).None?
      ensures r.Some? ==> r == c.decrypt(objects[h].key, iv, ct)
    {
      var works: bool := *;
      if !works {
        failures := failures + 1;
        return None;
      }
      return c.decrypt(objects[h].key, iv, ct);
    }

    /** `C_DeriveKey`: a new object with the attributes of the template, and no label. */
    method DeriveKey(s: Session, base: Handle, peer: seq<byte>, shared: string, t: Template)
      returns (r: Option<Handle>)
      requires Valid() && base in objects && s < nextSession
      modifies this`objects, this`nextHandle, this`failures
      ensures Valid()
      ensures failures == old(failures) + if r.None? then 1 else 0
      ensures r.None? ==> objects == old(objects)
      ensures r.Some? ==>
        && r.value !in old(objects)
        && objects == old(objects)[r.value := Derived(c, old(objects)[base].key, peer, shared, t, s)]
    {
      var works: bool := *;
      if !works {
        failures := failures + 1;
        return None;
      }
      var h := nextHandle;
      objects := objects[h := Derived(c, objects[base].key, peer, shared, t, s)];
      nextHandle := nextHandle + 1;
      return Some(h);
    }

    /** Giving out another number of bytes than asked for is a failure, too. */
    method GenerateRandom(n: nat) returns (r: Option<seq<byte>>)
      modifies this`drawn, this`failures
      ensures failures == old(failures) + if r.None? || |r.value| != n then 1 else 0
      ensures drawn == if r.Some? then old(drawn) + [r.value] else old(drawn)
    {
      var works: bool := *;
      var bytes: seq<byte> := *;
      if !works {
        failures := failures + 1;
        return None;
      }
      drawn := drawn + [bytes];
      failures := failures + if |bytes| != n then 1 else 0;
      return Some(bytes);
    }
  }

  class HsmClient {
    const device: Device
    const history: History

    constructor (device: Device, history: History)
      ensures this.device == device && this.history == history
    {
      this.device, this.history := device, history;
    }

    ghost method Record(cmd: Cmd, ans: Answer)
      modifies history
      ensures history.events == old(history.events) + [Called(cmd, ans)]
    {
      history.events := history.events + [Called(cmd, ans)];
    }

    /** Exactly one object with this label and class, or an error. */
    method FindKeyByLabel(keyLabel: string, kind: Kind) returns (r: Option<Handle>)
      modifies device`failures
      ensures r.Some? ==> r.value in device.objects && IsTheKey(device.objects, kind, keyLabel, r.value)
      ensures old(device.failures) <= device.failures
      ensures r.None? <==> device.failures > old(device.failures) || !HasKey(device.objects, kind, keyLabel)
    {
      var found := device.FindObjects(kind, keyLabel);
      if found.None? {
        return None;
      }
      OneFound(device.objects, kind, keyLabel, found.value);
      if |found.value| != 1 {
        return None;
      }
      return Some(found.value[0]);
    }

    method DeriveAesKey(session: Session, base: Handle, peer: seq<byte>) returns (r: Option<Handle>)
      requires device.Valid() && base in device.objects && session < device.nextSession
      modifies device`objects, device`nextHandle, device`failures
      ensures device.failures == old(device.failures) + if r.None? then 1 else 0
      ensures device.Valid()
      ensures r.None? ==> device.objects == old(device.objects)
      ensures r.Some? ==>
        && r.value !in old(device.objects) && r.value in device.objects
        && device.objects == old(device.objects)[r.value := device.objects[r.value]]
        && IsSessionAesKey(device.objects[r.value], session)
        && device.objects[r.value].key ==
             device.c.derive(old(device.objects)[base].key, peer, "pico-hsm-api-connector/kdf-v1", 32)
    {
      var template := Template(SecretKey, true, DERIVED_AES_LEN, false, true, true, true);
      r := device.DeriveKey(session, base, peer, KDF_SHARED_DATA, template);
    }

    /** Sixteen bytes drawn from the device now. */
    method RandomIv() returns (r: Option<seq<byte>>)
      modifies device`drawn, device`failures
      ensures device.failures == old(device.failures) + if r.None? then 1 else 0
      ensures r.Some? ==> |r.value| == 16 && device.drawn == old(device.drawn) + [r.value]
    {
      var bytes := device.GenerateRandom(16);
      if bytes.None? || |bytes.value| != 16 {
        return None;
      }
      return bytes;
    }

    /** A command fails exactly if a call on the device has failed meanwhile, or if it cannot be done. */
    ghost predicate Excused(cmd: Cmd, ans: Answer, was: nat)
      reads device
    {
      was <= device.failures && (ans.Failed? <==> device.failures > was || !Doable(device.c, device.objects, cmd))
    }

    // In each command the session is closed on every path, as dropping it does.

    method SignEcdsaSha256(keyLabel: string, data: seq<byte>) returns (ans: Answer)
      requires device.Valid()
      modifies device, history
      ensures device.Valid() && device.objects == old(device.objects)
      ensures Answers(device.c, device.objects, old(device.signed), SignCmd(keyLabel, data), ans, device.signed)
      ensures history.events == old(history.events) + [Called(SignCmd(keyLabel, data), ans)]
      ensures Excused(SignCmd(keyLabel, data), ans, old(device.failures))
    {
      ghost var cmd := SignCmd(keyLabel, data);
      ans := Failed;
      var session := device.OpenSession();
      if session.Some? {
        var key := FindKeyByLabel(keyLabel, PrivateKey);
        if key.Some? {
          var sig := device.Sign(key.value, data);
          if sig.Some? {
            ans := Signature(sig.value);
            AnswersByKey(device.c, device.objects, old(device.signed), cmd, key.value, ans, device.signed);
          }
        }
        Leave(session.value);
      }
      Record(cmd, ans);
    }

    method VerifyEcdsaSha256(keyLabel: string, data: seq<byte>, sig: seq<byte>) returns (ans: Answer)
      requires device.Valid()
      modifies device, history
      ensures device.Valid() && device.objects == old(device.objects)
      ensures Answers(device.c, device.objects, old(device.signed), VerifyCmd(keyLabel, data, sig), ans, device.signed)
      ensures history.events == old(history.events) + [Called(VerifyCmd(keyLabel, data, sig), ans)]
      ensures Excused(VerifyCmd(keyLabel, data, sig), ans, old(device.failures))
    {
      ghost var cmd := VerifyCmd(keyLabel, data, sig);
      ans := Failed;
      var session := device.OpenSession();
      if session.Some? {
        var key := FindKeyByLabel(keyLabel, PublicKey);
        if key.Some? {
          var valid := device.Verify(key.value, data, sig);
          if valid.Some? {
            ans := Verdict(valid.value);
            AnswersByKey(device.c, device.objects, device.signed, cmd, key.value, ans, device.signed);
          }
        }
        Leave(session.value);
      }
      Record(cmd, ans);
    }

    method EncryptAesCbcPad(keyLabel: string, pt: seq<byte>) returns (ans: Answer)
      requires device.Valid()
      modifies device, history
      ensures device.Valid() && device.objects == old(device.objects)
      ensures Answers(device.c, device.objects, old(device.signed), EncryptCmd(keyLabel, pt), ans, device.signed)
      ensures history.events == old(history.events) + [Called(EncryptCmd(keyLabel, pt), ans)]
      ensures Excused(EncryptCmd(keyLabel, pt), ans, old(device.failures))
      ensures ans.Ciphertext? ==> device.drawn == old(device.drawn) + [ans.iv]
    {
      ghost var cmd := EncryptCmd(keyLabel, pt);
      ans := Failed;
      var session := device.OpenSession();
      if session.Some? {
        var key := FindKeyByLabel(keyLabel, SecretKey);
        if key.Some? {
          ans := EncryptUnder(key.value, pt);
          if !ans.Failed? {
            AnswersByKey(device.c, device.objects, device.signed, cmd, key.value, ans, device.signed);
          }
        }
        Leave(session.value);
      }
      Record(cmd, ans);
    }

    method DecryptAesCbcPad(keyLabel: string, ct: seq<byte>, iv: seq<byte>) returns (ans: Answer)
      requires device.Valid()
      modifies device, history
      ensures device.Valid() && device.objects == old(device.objects)
      ensures Answers(device.c, device.objects, old(device.signed), DecryptCmd(keyLabel, ct, iv), ans, device.signed)
      ensures history.events == old(history.events) + [Called(DecryptCmd(keyLabel, ct, iv), ans)]
      ensures Excused(DecryptCmd(keyLabel, ct, iv), ans, old(device.failures))
    {
      ghost var cmd := DecryptCmd(keyLabel, ct, iv);
      ans := Failed;
      if |iv| == 16 {
        var session := device.OpenSession();
        if session.Some? {
          var key := FindKeyByLabel(keyLabel, SecretKey);
          if key.Some? {
            DoableBy(device.c, device.objects, cmd, key.value);
            var pt := device.Decrypt(key.value, iv, ct);
            if pt.Some? {
              ans := Plaintext(pt.value);
              AnswersByKey(device.c, device.objects, device.signed, cmd, key.value, ans, device.signed);
            }
          }
          Leave(session.value);
        }
      }
      Record(cmd, ans);
    }

    method DeriveAndEncrypt(keyLabel: string, peer: seq<byte>, pt: seq<byte>) returns (ans: Answer)
      requires device.Valid()
      modifies device, history
      ensures device.Valid() && device.objects == old(device.objects)
      ensures Answers(device.c, device.objects, old(device.signed), DeriveEncryptCmd(keyLabel, peer, pt), ans, device.signed)
      ensures history.events == old(history.events) + [Called(DeriveEncryptCmd(keyLabel, peer, pt), ans)]
      ensures Excused(DeriveEncryptCmd(keyLabel, peer, pt), ans, old(device.failures))
      ensures ans.Ciphertext? ==> device.drawn == old(device.drawn) + [ans.iv]
    {
      hide IsTheKey, WithoutSession;
      ghost var cmd := DeriveEncryptCmd(keyLabel, peer, pt);
      ans := Failed;
      var session := device.OpenSession();
      if session.Some? {
        var base := FindKeyByLabel(keyLabel, PrivateKey);
        if base.Some? {
          var derived := DeriveAesKey(session.value, base.value, peer);
          if derived.Some? {
            ans := EncryptUnder(derived.value, pt);
            if !ans.Failed? {
              AnswersByKey(device.c, old(device.objects), device.signed, cmd, base.value, ans, device.signed);
            }
            SessionLeavesNothing(old(device.objects), session.value, derived.value, device.objects[derived.value]);
          }
        }
        Leave(session.value);
      }
      Record(cmd, ans);
    }

    method DeriveAndDecrypt(keyLabel: string, peer: seq<byte>, ct: seq<byte>, iv: seq<byte>) returns (ans: Answer)
      requires device.Valid()
      modifies device, history
      ensures device.Valid() && device.objects == old(device.objects)
      ensures Answers(device.c, device.objects, old(device.signed), DeriveDecryptCmd(keyLabel, peer, ct, iv), ans, device.signed)
      ensures history.events == old(history.events) + [Called(DeriveDecryptCmd(keyLabel, peer, ct, iv), ans)]
      ensures Excused(DeriveDecryptCmd(keyLabel, peer, ct, iv), ans, old(device.failures))
    {
      hide IsTheKey, WithoutSession;
      ghost var cmd := DeriveDecryptCmd(keyLabel, peer, ct, iv);
      ans := Failed;
      if |iv| == 16 {
        var session := device.OpenSession();
        if session.Some? {
          var base := FindKeyByLabel(keyLabel, PrivateKey);
          if base.Some? {
            DoableBy(device.c, device.objects, cmd, base.value);
            var derived := DeriveAesKey(session.value, base.value, peer);
            if derived.Some? {
              var pt := device.Decrypt(derived.value, iv, ct);
              if pt.Some? {
                ans := Plaintext(pt.value);
                AnswersByKey(device.c, old(device.objects), device.signed, cmd, base.value, ans, device.signed);
              }
              SessionLeavesNothing(old(device.objects), session.value, derived.value, device.objects[derived.value]);
            }
          }
          Leave(session.value);
        }
      }
      Record(cmd, ans);
    }

    /** A fresh IV from the device, then encryption under it. */
    method EncryptUnder(h: Handle, pt: seq<byte>) returns (ans: Answer)
      requires h in device.objects
      modifies device`drawn, device`failures
      ensures device.failures == old(device.failures) + if ans.Failed? then 1 else 0
      ensures ans.Failed? || Encrypted(device.c, device.objects[h].key, pt, ans)
      ensures ans.Ciphertext? ==> device.drawn == old(device.drawn) + [ans.iv]
    {
      var iv := RandomIv();
      if iv.None? {
        return Failed;
      }
      var ct := device.Encrypt(h, iv.value, pt);
      if ct.None? {
        return Failed;
      }
      return Ciphertext(iv.value, ct.value);
    }

    /** End the session; if it created nothing the store is as before. */
    method Leave(session: Session)
      requires device.Valid()
      modifies device`objects
      ensures device.Valid() && device.objects == WithoutSession(old(device.objects), session)
      ensures (forall h :: h in old(device.objects) ==> old(device.objects)[h].owner != Some(session)) ==>
        device.objects == old(device.objects)
    {
      device.Close(session);
    }
  }

  /** A key is found exactly if it is the only one. */
  lemma OneFound(objects: Store, kind: Kind, keyLabel: string, found: seq<Handle>)
    requires forall h :: h in found <==> h in Matches(objects, kind, keyLabel)
    requires forall i, j :: 0 <= i < j < |found| ==> found[i] != found[j]
    ensures |found| == 1 ==> found[0] in objects && IsTheKey(objects, kind, keyLabel, found[0])
    ensures |found| == 1 <==> HasKey(objects, kind, keyLabel)
  {
    if |found| == 1 {
      assert found[0] in found;
      assert forall k :: k in Matches(objects, kind, keyLabel) ==> k in found;
    }
    if HasKey(objects, kind, keyLabel) {
      var h :| h in objects && IsTheKey(objects, kind, keyLabel, h);
      forall i | 0 <= i < |found| ensures found[i] == h {
        assert found[i] in found;
      }
      assert h in found;
      AllTheSame(found, h);
    }
  }

  lemma AllTheSame(found: seq<Handle>, h: Handle)
    requires forall i :: 0 <= i < |found| ==> found[i] == h
    ensures |found| <= 1 || found[0] == found[1]
  {
  }
}
