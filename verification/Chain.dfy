/** The hash-chained audit log as a value (src/audit.rs): entries, their hashes, chain verification
    and tamper evidence. */
module Chain {
  import opened Wrappers
  import opened Bytes
  import Base64

  datatype Outcome = Intent | Authorized | Denied | Error | CertExpiringSoon

  datatype Entry = Entry(ts: string, cn: string, operation: string, keyLabel: string,
                         outcome: Outcome, detail: string, prev: string, hash: string)

  const GENESIS := "GENESIS"

  /** SHA-256, about which only the length of its output is fixed. */
  type Digest = d: seq<byte> | |d| == 32 witness seq(32, i => 0)
  type Sha = seq<byte> -> Digest

  function OutcomeName(o: Outcome): string {
    match o
    case Intent => "intent"
    case Authorized => "authorized"
    case Denied => "denied"
    case Error => "error"
    case CertExpiringSoon => "cert_expiring_soon"
  }

  function OutcomeOf(s: string): Option<Outcome> {
    if s == "intent" then Some(Intent)
    else if s == "authorized" then Some(Authorized)
    else if s == "denied" then Some(Denied)
    else if s == "error" then Some(Error)
    else if s == "cert_expiring_soon" then Some(CertExpiringSoon)
    else None
  }

  lemma OutcomeRoundTrip(o: Outcome)
    ensures OutcomeOf(OutcomeName(o)) == Some(o)
  {
    var s := OutcomeName(o);
    assert |"intent"| == 6 && |"authorized"| == 10 && |"denied"| == 6 && |"error"| == 5;
    assert s[0] == match o case Intent => 'i' case Authorized => 'a' case Denied => 'd' case Error => 'e' case _ => 'c';
  }

  // ------------------------------------------------------------- The hash

  /** The seven parts that are hashed; the outcome goes in as its JSON text, quotes included. */
  function Parts(prev: string, ts: string, cn: string, op: string, keyLabel: string,
                 outcome: Outcome, detail: string): seq<seq<byte>>
  {
    [Utf8(prev), Utf8(ts), Utf8(cn), Utf8(op), Utf8(keyLabel),
     Utf8("\"" + OutcomeName(outcome) + "\""), Utf8(detail)]
  }

  function EntryHash(sha: Sha, prev: string, ts: string, cn: string, op: string, keyLabel: string,
                     outcome: Outcome, detail: string): string
  {
    Base64.Encode(sha(EncodeParts(Parts(prev, ts, cn, op, keyLabel, outcome, detail))))
  }

  method ComputeEntryHash(sha: Sha, prev: string, ts: string, cn: string, op: string, keyLabel: string,
                          outcome: Outcome, detail: string) returns (r: string)
    ensures r == EntryHash(sha, prev, ts, cn, op, keyLabel, outcome, detail)
  {
    var fed := FeedParts(Parts(prev, ts, cn, op, keyLabel, outcome, detail));
    return Base64.Encode(sha(fed));
  }

  function PartsOf(e: Entry): seq<seq<byte>> {
    Parts(e.prev, e.ts, e.cn, e.operation, e.keyLabel, e.outcome, e.detail)
  }

  function HashInput(e: Entry): seq<byte> {
    EncodeParts(PartsOf(e))
  }

  /** The entry carries the hash of its own content. */
  predicate Sealed(sha: Sha, e: Entry) {
    e.hash == EntryHash(sha, e.prev, e.ts, e.cn, e.operation, e.keyLabel, e.outcome, e.detail)
  }

  /** What an append is asked to record. */
  datatype Body = Body(ts: string, cn: string, operation: string, keyLabel: string, outcome: Outcome, detail: string)

  /** The entry `append` builds behind the hash `prev`. */
  function Seal(sha: Sha, prev: string, b: Body): (e: Entry)
    ensures Sealed(sha, e) && e.prev == prev
  {
    Entry(b.ts, b.cn, b.operation, b.keyLabel, b.outcome, b.detail, prev,
          EntryHash(sha, prev, b.ts, b.cn, b.operation, b.keyLabel, b.outcome, b.detail))
  }

  /** What a reader of the hashed bytes finds: seven texts, the outcome in its snake-case name, quoted. */
  lemma HashInputReads(e: Entry)
    requires Fit(PartsOf(e))
    ensures var outcome := match e.outcome
                           case Intent => "\"intent\""
                           case Authorized => "\"authorized\""
                           case Denied => "\"denied\""
                           case Error => "\"error\""
                           case CertExpiringSoon => "\"cert_expiring_soon\"";
      ParseParts(HashInput(e)) ==
        Some([Utf8(e.prev), Utf8(e.ts), Utf8(e.cn), Utf8(e.operation), Utf8(e.keyLabel), Utf8(outcome), Utf8(e.detail)])
  {
    hide Utf8, ParseParts;
    ParseEncode(PartsOf(e));
    var p := OutcomeName(e.outcome);
    assert "\"" + p + "\"" == match e.outcome
                              case Intent => "\"intent\""
                              case Authorized => "\"authorized\""
                              case Denied => "\"denied\""
                              case Error => "\"error\""
                              case CertExpiringSoon => "\"cert_expiring_soon\"";
  }

  /** Field boundaries cannot shift: equal hash inputs come from equal content. */
  lemma HashInputInjective(a: Entry, b: Entry)
    requires Fit(PartsOf(a)) && Fit(PartsOf(b))
    requires HashInput(a) == HashInput(b)
    ensures a.(hash := b.hash) == b
  {
    var x, y := PartsOf(a), PartsOf(b);
    EncodePartsInjective(x, y);
    Utf8Injective(a.prev, b.prev) by { assert x[0] == y[0]; }
    Utf8Injective(a.ts, b.ts) by { assert x[1] == y[1]; }
    Utf8Injective(a.cn, b.cn) by { assert x[2] == y[2]; }
    Utf8Injective(a.operation, b.operation) by { assert x[3] == y[3]; }
    Utf8Injective(a.keyLabel, b.keyLabel) by { assert x[4] == y[4]; }
    var p, q := OutcomeName(a.outcome), OutcomeName(b.outcome);
    Utf8Injective("\"" + p + "\"", "\"" + q + "\"") by { assert x[5] == y[5]; }
    assert p == ("\"" + p + "\"")[1..|p| + 1] && q == ("\"" + q + "\"")[1..|q| + 1];
    OutcomeRoundTrip(a.outcome);
    OutcomeRoundTrip(b.outcome);
    Utf8Injective(a.detail, b.detail) by { assert x[6] == y[6]; }
  }

  // ------------------------------------------------------- Verification

  /** The last hash of a log, `GENESIS` if it is empty. */
  function LastHash(es: seq<Entry>): string {
    if es == [] then GENESIS else es[|es| - 1].hash
  }

  /** Entry `i` carries its own hash and the hash of the entry before it. */
  predicate Linked(sha: Sha, es: seq<Entry>, i: nat)
    requires i < |es|
  {
    es[i].prev == LastHash(es[..i]) && Sealed(sha, es[i])
  }

  predicate Chained(sha: Sha, es: seq<Entry>) {
    forall i :: 0 <= i < |es| ==> Linked(sha, es, i)
  }

  lemma LinkedPrefix(sha: Sha, es: seq<Entry>, n: nat, i: nat)
    requires i < n <= |es|
    ensures Linked(sha, es[..n], i) <==> Linked(sha, es, i)
  {
    assert es[..n][..i] == es[..i];
  }

  lemma ChainedPrefix(sha: Sha, es: seq<Entry>, n: nat)
    requires n <= |es| && Chained(sha, es)
    ensures Chained(sha, es[..n])
  {
    forall i | 0 <= i < n
      ensures Linked(sha, es[..n], i)
    {
      LinkedPrefix(sha, es, n, i);
    }
  }

  lemma ChainedSnoc(sha: Sha, es: seq<Entry>, e: Entry)
    ensures Chained(sha, es + [e]) <==> Chained(sha, es) && e.prev == LastHash(es) && Sealed(sha, e)
  {
    var fs, n := es + [e], |es|;
    assert fs[..n] == es && fs[n] == e;
    if Chained(sha, fs) {
      ChainedPrefix(sha, fs, n);
      assert Linked(sha, fs, n);
    }
    if Chained(sha, es) && e.prev == LastHash(es) && Sealed(sha, e) {
      forall i | 0 <= i < |fs|
        ensures Linked(sha, fs, i)
      {
        if i < n {
          LinkedPrefix(sha, fs, n, i);
        }
      }
    }
  }

  /** A hash is 44 base64 characters, so it is never mistaken for the start of the chain. */
  lemma HashIsNotGenesis(sha: Sha, e: Entry)
    requires Sealed(sha, e)
    ensures |e.hash| == 44 && e.hash != GENESIS
  {
    assert |GENESIS| == 7;
  }

  /** The first entry of a verifying log has the start marker in front of it, every other one the hash of
      the entry before. */
  lemma PrevOf(sha: Sha, es: seq<Entry>, i: nat)
    requires Chained(sha, es) && i < |es|
    ensures es[i].prev == if i == 0 then "GENESIS" else es[i - 1].hash
    ensures es[i].hash != "GENESIS"
  {
    assert Linked(sha, es, i);
    HashIsNotGenesis(sha, es[i]);
  }

  // ---------------------------------------------------- Tamper evidence

  ghost predicate Collide(sha: Sha, a: Entry, b: Entry) {
    sha(HashInput(a)) == sha(HashInput(b)) && HashInput(a) != HashInput(b)
  }

  /** No two of these entries have different content with the same SHA-256 digest. */
  ghost predicate NoCollision(sha: Sha, es: seq<Entry>) {
    forall a, b {:trigger Collide(sha, a, b)} :: a in es && b in es ==> !Collide(sha, a, b)
  }

  /** Every field is shorter than 2^64 bytes, as every Rust string is. */
  ghost predicate AllFit(es: seq<Entry>) {
    forall e :: e in es ==> Fit(PartsOf(e))
  }

  lemma SameHashSameEntry(sha: Sha, es: seq<Entry>, a: Entry, b: Entry)
    requires NoCollision(sha, es) && AllFit(es)
    requires a in es && b in es && Sealed(sha, a) && Sealed(sha, b)
    requires a.hash == b.hash
    ensures a == b
  {
    assert !Collide(sha, a, b);
    Base64.DecodeEncode(sha(HashInput(a)));
    Base64.DecodeEncode(sha(HashInput(b)));
    HashInputInjective(a, b);
  }

  lemma SameHashAt(sha: Sha, es: seq<Entry>, i: nat, j: nat)
    requires Chained(sha, es) && NoCollision(sha, es) && AllFit(es)
    requires i < |es| && j < |es| && es[i].hash == es[j].hash
    ensures es[i] == es[j]
  {
    assert Linked(sha, es, i) && Linked(sha, es, j);
    SameHashSameEntry(sha, es, es[i], es[j]);
  }

  /** All hashes of a verifying log are different. */
  lemma {:induction false} HashesDistinct(sha: Sha, es: seq<Entry>, i: nat, j: nat)
    requires Chained(sha, es) && NoCollision(sha, es) && AllFit(es)
    requires i < j < |es|
    ensures es[i].hash != es[j].hash
  {
    PrevOf(sha, es, i);
    PrevOf(sha, es, j);
    if es[i].hash == es[j].hash {
      SameHashAt(sha, es, i, j);
      if i == 0 {
        PrevOf(sha, es, j - 1);
      } else {
        HashesDistinct(sha, es, i - 1, j - 1);
      }
    }
  }

  lemma HashesDistinctEither(sha: Sha, es: seq<Entry>, i: nat, j: nat)
    requires Chained(sha, es) && NoCollision(sha, es) && AllFit(es)
    requires i < |es| && j < |es|
    ensures es[i].hash == es[j].hash ==> i == j
  {
    if i < j {
      HashesDistinct(sha, es, i, j);
    } else if j < i {
      HashesDistinct(sha, es, j, i);
    }
  }

  /** So an entry of a verifying log stands at the one place its `prev` names. */
  lemma PlaceIsFixed(sha: Sha, es: seq<Entry>, k: nat, m: nat)
    requires Chained(sha, es) && NoCollision(sha, es) && AllFit(es)
    requires k <= |es| && m < |es| && es[m].prev == LastHash(es[..k])
    ensures m == k
  {
    PrevOf(sha, es, m);
    if k > 0 {
      PrevOf(sha, es, k - 1);
    }
    if m > 0 {
      PrevOf(sha, es, m - 1);
    }
    if m > 0 && k > 0 {
      HashesDistinctEither(sha, es, m - 1, k - 1);
    }
  }

  /** Deleting, reordering or repeating entries shows: a verifying log made only of entries of a
      verifying log is that log, possibly cut off at the end. */
  lemma {:induction false} OnlyPrefixesVerify(sha: Sha, es: seq<Entry>, other: seq<Entry>)
    requires Chained(sha, es) && NoCollision(sha, es) && AllFit(es)
    requires Chained(sha, other) && forall e :: e in other ==> e in es
    ensures other <= es
  {
    if other != [] {
      var k := |other| - 1;
      ChainedPrefix(sha, other, k);
      OnlyPrefixesVerify(sha, es, other[..k]);
      assert Linked(sha, other, k);
      assert other[..k] == es[..k];
      NextEntry(sha, es, k, other[k]);
      assert other == other[..k] + [other[k]];
    }
  }

  lemma NextEntry(sha: Sha, es: seq<Entry>, k: nat, e: Entry)
    requires Chained(sha, es) && NoCollision(sha, es) && AllFit(es)
    requires k <= |es| && e in es && e.prev == LastHash(es[..k])
    ensures k < |es| && es[k] == e
  {
    var m :| 0 <= m < |es| && es[m] == e;
    PlaceIsFixed(sha, es, k, m);
  }

  /** And every such prefix does verify, so a cut at the tail is the one change that does not show. */
  lemma PrefixesVerify(sha: Sha, es: seq<Entry>, other: seq<Entry>)
    requires Chained(sha, es) && NoCollision(sha, es) && AllFit(es)
    requires forall e :: e in other ==> e in es
    ensures Chained(sha, other) <==> other <= es
  {
    if other <= es {
      ChainedPrefix(sha, es, |other|);
      assert other == es[..|other|];
    } else if Chained(sha, other) {
      OnlyPrefixesVerify(sha, es, other);
    }
  }

  /** Only the empty log has `GENESIS` for its last hash. */
  lemma EmptyIsGenesis(sha: Sha, es: seq<Entry>)
    requires Chained(sha, es)
    ensures LastHash(es) == GENESIS <==> es == []
  {
    hide Sealed, Linked, Chained;
    if es != [] {
      PrevOf(sha, es, |es| - 1);
    }
  }

  /** The last hash stands for the whole log. */
  lemma {:induction false} SameLastHashSameLog(sha: Sha, a: seq<Entry>, b: seq<Entry>)
    requires Chained(sha, a) && Chained(sha, b)
    requires NoCollision(sha, a + b) && AllFit(a + b)
    requires LastHash(a) == LastHash(b)
    ensures a == b
  {
    hide Chained, NoCollision, AllFit, Linked, Sealed, LastHash;
    EmptyIsGenesis(sha, a);
    EmptyIsGenesis(sha, b);
    if a != [] && b != [] {
      SameLast(sha, a, b);
      ShorterLogs(sha, a, b);
      SameLastHashSameLog(sha, a[..|a| - 1], b[..|b| - 1]);
      LastApart(a);
      LastApart(b);
    }
  }

  lemma LastApart(es: seq<Entry>)
    requires es != []
    ensures es == es[..|es| - 1] + [es[|es| - 1]]
  {
  }

  lemma ShorterLogs(sha: Sha, a: seq<Entry>, b: seq<Entry>)
    requires Chained(sha, a) && Chained(sha, b) && a != [] && b != []
    requires NoCollision(sha, a + b) && AllFit(a + b)
    ensures var x, y := a[..|a| - 1], b[..|b| - 1];
      Chained(sha, x) && Chained(sha, y) && NoCollision(sha, x + y) && AllFit(x + y)
  {
    hide Chained, NoCollision, AllFit, Linked, Sealed, LastHash;
    ChainedPrefix(sha, a, |a| - 1);
    ChainedPrefix(sha, b, |b| - 1);
    NoCollisionPart(sha, a + b, a[..|a| - 1] + b[..|b| - 1]);
  }

  lemma NoCollisionPart(sha: Sha, es: seq<Entry>, fs: seq<Entry>)
    requires NoCollision(sha, es) && AllFit(es) && forall e :: e in fs ==> e in es
    ensures NoCollision(sha, fs) && AllFit(fs)
  {
  }

  lemma SameLast(sha: Sha, a: seq<Entry>, b: seq<Entry>)
    requires Chained(sha, a) && Chained(sha, b) && a != [] && b != []
    requires NoCollision(sha, a + b) && AllFit(a + b)
    requires LastHash(a) == LastHash(b)
    ensures a[|a| - 1] == b[|b| - 1]
    ensures LastHash(a[..|a| - 1]) == LastHash(b[..|b| - 1])
  {
    var m, n := |a|, |b|;
    assert Linked(sha, a, m - 1) && Linked(sha, b, n - 1);
    hide NoCollision, AllFit, Sealed, Chained;
    SameHashSameEntry(sha, a + b, a[m - 1], b[n - 1]);
  }
}
