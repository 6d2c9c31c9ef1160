/** The authorization table (src/config.rs): the loops that compile a parsed configuration
    into two lookup tables, and what those tables mean in terms of the configuration. */
module Config {
  import opened Wrappers
  import opened Bytes
  import opened Protocol
  import opened Text
  import Base64

  datatype PermissionEntry = PermissionEntry(
    operation: Operation, keyLabels: seq<string>, peerPublicKeys: Option<seq<string>>)

  datatype ClientEntry = ClientEntry(cn: string, permissions: seq<PermissionEntry>)

  datatype Grant = Grant(cn: string, op: Operation, keyLabel: string)

  /** The two lookup tables as values: the grants, and the peer-key allowlists. */
  datatype Table = Table(grants: set<Grant>, peers: map<Grant, set<string>>)

  // ------------------------------------------------ Declarative validity

  function TrimEach(xs: seq<string>): (r: seq<string>)
    ensures |r| == |xs| && forall i :: 0 <= i < |xs| ==> r[i] == Trim(xs[i])
  {
    seq(|xs|, i requires 0 <= i < |xs| => Trim(xs[i]))
  }

  function Elems(xs: seq<string>): set<string> {
    set x | x in xs
  }

  predicate Distinct(xs: seq<string>) {
    forall i, j :: 0 <= i < j < |xs| ==> xs[i] != xs[j]
  }

  predicate LabelOk(name: string, integrity: string) {
    name != "" && name != integrity
  }

  predicate KeyOk(key: string) {
    key != "" && Base64.Decode(key).Some?
  }

  predicate LabelsOk(names: seq<string>, integrity: string) {
    names != [] && (forall x :: x in names ==> LabelOk(x, integrity)) && Distinct(names)
  }

  predicate KeysOk(keys: seq<string>) {
    keys != [] && (forall x :: x in keys ==> KeyOk(x)) && Distinct(keys)
  }

  predicate PermissionOk(p: PermissionEntry, integrity: string) {
    && LabelsOk(TrimEach(p.keyLabels), integrity)
    && (p.peerPublicKeys.Some? <==> IsDerive(p.operation))
    && (p.peerPublicKeys.Some? ==> KeysOk(TrimEach(p.peerPublicKeys.value)))
  }

  predicate ClientOk(c: ClientEntry, integrity: string) {
    Trim(c.cn) != "" && forall p :: p in c.permissions ==> PermissionOk(p, integrity)
  }

  function Cns(clients: seq<ClientEntry>): (r: seq<string>)
    ensures |r| == |clients| && forall i :: 0 <= i < |clients| ==> r[i] == Trim(clients[i].cn)
  {
    seq(|clients|, i requires 0 <= i < |clients| => Trim(clients[i].cn))
  }

  predicate ConfigOk(clients: seq<ClientEntry>, integrity: string) {
    (forall c :: c in clients ==> ClientOk(c, integrity)) && Distinct(Cns(clients))
  }

  // ------------------------------------------------- Declarative meaning

  /** One permission entry together with the trimmed name of the client it stands under. */
  datatype Listing = Listing(cn: string, perm: PermissionEntry)

  function ListingsOf(c: ClientEntry): (r: seq<Listing>)
    ensures |r| == |c.permissions|
  {
    seq(|c.permissions|, j requires 0 <= j < |c.permissions| => Listing(Trim(c.cn), c.permissions[j]))
  }

  /** Every permission entry of the file, in file order. */
  function Listings(clients: seq<ClientEntry>): seq<Listing> {
    if clients == [] then [] else Listings(clients[..|clients| - 1]) + ListingsOf(clients[|clients| - 1])
  }

  predicate Names(l: Listing, g: Grant) {
    l.cn == g.cn && l.perm.operation == g.op && g.keyLabel in TrimEach(l.perm.keyLabels)
  }

  /** Some entry of the file grants `g`. */
  predicate Granted(ls: seq<Listing>, g: Grant) {
    exists n :: 0 <= n < |ls| && Names(ls[n], g)
  }

  /** Entry `n` is the last one of the file that names `g`. */
  predicate Governs(ls: seq<Listing>, n: nat, g: Grant)
    requires n < |ls|
  {
    Names(ls[n], g) && forall m :: n < m < |ls| ==> !Names(ls[m], g)
  }

  /** The trimmed peer keys of entry `n`. */
  function AllowlistOf(ls: seq<Listing>, n: nat): set<string>
    requires n < |ls|
  {
    match ls[n].perm.peerPublicKeys case None => {} case Some(keys) => Elems(TrimEach(keys))
  }

  /** The tables say what the listed entries say: the grants are exactly those listed, and the
      allowlist of a derive grant is that of the last entry naming it. */
  ghost predicate Means(t: Table, ls: seq<Listing>) {
    && (forall g :: g in t.grants <==> Granted(ls, g))
    && (forall g :: g in t.peers <==> g in t.grants && IsDerive(g.op))
    && (forall g, n :: g in t.peers && 0 <= n < |ls| && Governs(ls, n, g) ==> t.peers[g] == AllowlistOf(ls, n))
  }

  /** What holds of every table the loader builds. */
  ghost predicate TableOk(t: Table, integrity: string) {
    && (forall g :: g in t.grants ==>
          Trimmed(g.cn) && g.cn != "" && Trimmed(g.keyLabel) && g.keyLabel != "" && g.keyLabel != integrity)
    && (forall g :: g in t.peers <==> g in t.grants && IsDerive(g.op))
    && (forall g :: g in t.peers ==> t.peers[g] != {})
    && (forall g, k :: g in t.peers && k in t.peers[g] ==> k != "" && Trimmed(k) && Base64.Decode(k).Some?)
  }

  function GrantsFor(cn: string, op: Operation, names: set<string>): set<Grant> {
    set x | x in names :: Grant(cn, op, x)
  }

  function GrantsOf(l: Listing): set<Grant> {
    GrantsFor(l.cn, l.perm.operation, Elems(TrimEach(l.perm.keyLabels)))
  }

  /** The same allowlist for every one of these grants. */
  function ForEach(gs: set<Grant>, keys: set<string>): map<Grant, set<string>> {
    map g | g in gs :: keys
  }

  /** The tables after one more permission entry. */
  function Add(t: Table, l: Listing): Table {
    Table(t.grants + GrantsOf(l),
          match l.perm.peerPublicKeys
          case None => t.peers
          case Some(keys) => t.peers + ForEach(GrantsOf(l), Elems(TrimEach(keys))))
  }

  lemma GrantsAreNamed(l: Listing, g: Grant)
    ensures g in GrantsOf(l) <==> Names(l, g)
  {
  }

  /** What a valid entry contributes keeps to the table invariant. */
  lemma EntryIsClean(l: Listing, integrity: string)
    requires PermissionOk(l.perm, integrity)
    ensures forall g :: g in GrantsOf(l) ==>
      g.cn == l.cn && g.op == l.perm.operation && LabelOk(g.keyLabel, integrity) && Trimmed(g.keyLabel)
    ensures l.perm.peerPublicKeys.Some? ==>
      var keys := Elems(TrimEach(l.perm.peerPublicKeys.value));
      keys != {} && forall k :: k in keys ==> KeyOk(k) && Trimmed(k)
  {
    var names := TrimEach(l.perm.keyLabels);
    assert forall x :: x in Elems(names) ==> Trimmed(x);
    if l.perm.peerPublicKeys.Some? {
      var keys := TrimEach(l.perm.peerPublicKeys.value);
      assert keys[0] in Elems(keys);
      assert forall x :: x in Elems(keys) ==> Trimmed(x);
    }
  }

  /** Adding clean grants, each with a clean allowlist exactly if it is a derive grant. */
  lemma AddCleanKeepsInvariant(t: Table, gs: set<Grant>, keys: Option<set<string>>, t': Table, integrity: string)
    requires TableOk(t, integrity)
    requires forall g :: g in gs ==>
      Trimmed(g.cn) && g.cn != "" && LabelOk(g.keyLabel, integrity) && Trimmed(g.keyLabel)
      && (IsDerive(g.op) <==> keys.Some?)
    requires keys.Some? ==> keys.value != {} && forall k :: k in keys.value ==> KeyOk(k) && Trimmed(k)
    requires t'.grants == t.grants + gs
    requires t'.peers == match keys case None => t.peers case Some(ks) => t.peers + ForEach(gs, ks)
    ensures TableOk(t', integrity)
  {
  }

  lemma AddKeepsInvariant(t: Table, l: Listing, integrity: string)
    requires TableOk(t, integrity) && PermissionOk(l.perm, integrity)
    requires Trimmed(l.cn) && l.cn != ""
    ensures TableOk(Add(t, l), integrity)
  {
    EntryIsClean(l, integrity);
    var keys := match l.perm.peerPublicKeys case None => None case Some(ks) => Some(Elems(TrimEach(ks)));
    AddCleanKeepsInvariant(t, GrantsOf(l), keys, Add(t, l), integrity);
  }

  lemma GovernsOld(ls: seq<Listing>, l: Listing, n: nat, g: Grant)
    requires n < |ls|
    ensures Governs(ls + [l], n, g) <==> Governs(ls, n, g) && !Names(l, g)
  {
    var ms := ls + [l];
    if Governs(ls, n, g) && !Names(l, g) {
      assert forall m :: n < m < |ms| ==> ms[m] == if m < |ls| then ls[m] else l;
    }
    if Governs(ms, n, g) {
      assert forall m :: n < m < |ls| ==> ls[m] == ms[m];
      assert ms[|ls|] == l;
    }
  }

  lemma GrantedSnoc(ls: seq<Listing>, l: Listing, g: Grant)
    ensures Granted(ls + [l], g) <==> Granted(ls, g) || Names(l, g)
  {
    var ms := ls + [l];
    if Granted(ls, g) {
      var n :| 0 <= n < |ls| && Names(ls[n], g);
      assert Names(ms[n], g);
    }
    if Names(l, g) {
      assert Names(ms[|ls|], g);
    }
  }

  /** One more entry: the new tables mean the longer list. A derive grant named again gets the
      new allowlist in place of the old one. */
  lemma AddMeans(t: Table, ls: seq<Listing>, l: Listing, integrity: string)
    requires Means(t, ls) && PermissionOk(l.perm, integrity)
    ensures Means(Add(t, l), ls + [l])
  {
    var t', ms := Add(t, l), ls + [l];
    forall g
      ensures g in t'.grants <==> Granted(ms, g)
      ensures g in t'.peers <==> g in t'.grants && IsDerive(g.op)
    {
      AddGrant(t, ls, l, g, integrity);
    }
    forall g, n | g in t'.peers && 0 <= n < |ms| && Governs(ms, n, g)
      ensures t'.peers[g] == AllowlistOf(ms, n)
    {
      AddAllowlist(t, ls, l, g, n, integrity);
    }
  }

  lemma AddGrant(t: Table, ls: seq<Listing>, l: Listing, g: Grant, integrity: string)
    requires Means(t, ls) && PermissionOk(l.perm, integrity)
    ensures g in Add(t, l).grants <==> Granted(ls + [l], g)
    ensures g in Add(t, l).peers <==> g in Add(t, l).grants && IsDerive(g.op)
  {
    GrantedSnoc(ls, l, g);
    GrantsAreNamed(l, g);
    assert g in t.grants <==> Granted(ls, g);
    assert g in t.peers <==> g in t.grants && IsDerive(g.op);
  }

  lemma AddAllowlist(t: Table, ls: seq<Listing>, l: Listing, g: Grant, n: nat, integrity: string)
    requires Means(t, ls) && PermissionOk(l.perm, integrity)
    requires g in Add(t, l).peers && n < |ls + [l]| && Governs(ls + [l], n, g)
    ensures Add(t, l).peers[g] == AllowlistOf(ls + [l], n)
  {
    GrantsAreNamed(l, g);
    if n < |ls| {
      GovernsOld(ls, l, n, g);
      assert (ls + [l])[n] == ls[n];
    } else {
      assert (ls + [l])[n] == l;
    }
  }

  /** `seenSet` holds the first `n` texts, and they are all different. */
  ghost predicate Collected(xs: seq<string>, n: nat, seenSet: set<string>)
    requires n <= |xs|
  {
    seenSet == Elems(xs[..n]) && Distinct(xs[..n])
  }

  lemma OneMore(xs: seq<string>, n: nat, seenSet: set<string>)
    requires n < |xs| && Collected(xs, n, seenSet)
    ensures xs[n] in seenSet ==> !Distinct(xs)
    ensures xs[n] !in seenSet ==> Collected(xs, n + 1, seenSet + {xs[n]})
  {
    assert xs[..n + 1] == xs[..n] + [xs[n]];
    if xs[n] in seenSet {
      var j :| 0 <= j < n && xs[..n][j] == xs[n];
      assert xs[j] == xs[n];
    }
  }

  lemma OneMoreGrant(cn: string, op: Operation, names: set<string>, name: string)
    ensures GrantsFor(cn, op, names + {name}) == GrantsFor(cn, op, names) + {Grant(cn, op, name)}
  {
  }

  lemma OneMoreAllowlist(m: map<Grant, set<string>>, gs: set<Grant>, g: Grant, keys: set<string>)
    ensures m + ForEach(gs + {g}, keys) == (m + ForEach(gs, keys))[g := keys]
  {
  }

  /** The tables, and the set of names met so far, after loading all of `clients`. */
  ghost predicate Loaded(t: Table, seenCn: set<string>, clients: seq<ClientEntry>, integrity: string) {
    && ConfigOk(clients, integrity)
    && seenCn == Elems(Cns(clients))
    && Means(t, Listings(clients))
    && TableOk(t, integrity)
  }

  lemma NothingLoaded(integrity: string)
    ensures Loaded(Table({}, map[]), {}, [], integrity)
  {
  }

  lemma CnsSnoc(before: seq<ClientEntry>, client: ClientEntry, integrity: string)
    requires ConfigOk(before, integrity)
    ensures Elems(Cns(before + [client])) == Elems(Cns(before)) + {Trim(client.cn)}
    ensures ConfigOk(before + [client], integrity) <==>
      ClientOk(client, integrity) && Trim(client.cn) !in Elems(Cns(before))
    ensures Listings(before + [client]) == Listings(before) + ListingsOf(client)
  {
    var cs, xs := before + [client], Cns(before);
    assert Cns(cs) == xs + [Trim(client.cn)];
    assert cs[..|cs| - 1] == before && cs[|before|] == client;
    if Trim(client.cn) in Elems(xs) {
      var j :| 0 <= j < |xs| && xs[j] == Trim(client.cn);
      assert Cns(cs)[j] == Cns(cs)[|before|];
    }
  }

  lemma BadPrefix(clients: seq<ClientEntry>, n: nat, integrity: string)
    requires n <= |clients|
    ensures ConfigOk(clients, integrity) ==> ConfigOk(clients[..n], integrity)
  {
    assert Cns(clients[..n]) == Cns(clients)[..n];
  }

  // ---------------------------------------------------------- The loader

  class AuthzTable {
    var grants: set<Grant>
    var peerKeys: map<Grant, set<string>>

    function Value(): Table
      reads this
    {
      Table(grants, peerKeys)
    }

    constructor ()
      ensures Value() == Table({}, map[])
    {
      grants, peerKeys := {}, map[];
    }

    /** Validate one permission entry and enter it. A rejected entry changes nothing. */
    method AddPermission(cn: string, p: PermissionEntry, integrity: string) returns (ok: bool)
      modifies this
      ensures ok <==> PermissionOk(p, integrity)
      ensures Value() == if ok then Add(old(Value()), Listing(cn, p)) else old(Value())
    {
      var labels := VetLabels(p.keyLabels, integrity);
      if labels.None? {
        return false;
      }
      if p.peerPublicKeys.Some? != IsDerive(p.operation) {
        return false;
      }
      if IsDerive(p.operation) {
        var vetted := VetKeys(p.peerPublicKeys.value);
        if vetted.None? {
          return false;
        }
        Enter(cn, p.operation, labels.value, vetted);
      } else {
        Enter(cn, p.operation, labels.value, None);
      }
      return true;
    }

    /** The loop over the key labels of an entry. */
    static method VetLabels(raw: seq<string>, integrity: string) returns (r: Option<set<string>>)
      ensures r == if LabelsOk(TrimEach(raw), integrity) then Some(Elems(TrimEach(raw))) else None
    {
      hide Trim;
      ghost var names := TrimEach(raw);
      if |raw| == 0 {
        return None;
      }
      var labels: set<string> := {};
      for i := 0 to |raw|
        invariant Collected(names, i, labels)
        invariant forall j :: 0 <= j < i ==> LabelOk(names[j], integrity)
      {
        var name := Trim(raw[i]);
        assert name == names[i] && names[i] in names;
        OneMore(names, i, labels);
        if name == "" {
          return None;
        }
        if name == integrity {
          return None;
        }
        if name in labels {
          return None;
        }
        labels := labels + {name};
      }
      assert names[..|raw|] == names;
      return Some(labels);
    }

    /** The loop over the peer keys of a derive entry. */
    static method VetKeys(raw: seq<string>) returns (r: Option<set<string>>)
      ensures r == if KeysOk(TrimEach(raw)) then Some(Elems(TrimEach(raw))) else None
    {
      hide Base64.Decode, Trim;
      ghost var keys := TrimEach(raw);
      if |raw| == 0 {
        return None;
      }
      var vetted: set<string> := {};
      for i := 0 to |raw|
        invariant Collected(keys, i, vetted)
        invariant forall j :: 0 <= j < i ==> KeyOk(keys[j])
      {
        var key := Trim(raw[i]);
        assert key == keys[i] && keys[i] in keys;
        OneMore(keys, i, vetted);
        if key == "" {
          return None;
        }
        if Base64.Decode(key).None? {
          return None;
        }
        if key in vetted {
          return None;
        }
        assert KeyOk(keys[i]);
        vetted := vetted + {key};
      }
      assert keys[..|raw|] == keys;
      return Some(vetted);
    }

    /** The insertion loop. It walks a hash set, so it takes the labels in any order. */
    method Enter(cn: string, op: Operation, labels: set<string>, vetted: Option<set<string>>)
      modifies this
      ensures grants == old(grants) + GrantsFor(cn, op, labels)
      ensures peerKeys ==
        match vetted
        case None => old(peerKeys)
        case Some(keys) => old(peerKeys) + ForEach(GrantsFor(cn, op, labels), keys)
    {
      var rest := labels;
      ghost var did: set<string> := {};
      while rest != {}
        invariant did + rest == labels
        invariant grants == old(grants) + GrantsFor(cn, op, did)
        invariant peerKeys ==
          match vetted
          case None => old(peerKeys)
          case Some(keys) => old(peerKeys) + ForEach(GrantsFor(cn, op, did), keys)
        decreases rest
      {
        var name :| name in rest;
        var grant := Grant(cn, op, name);
        OneMoreGrant(cn, op, did, name);
        grants := grants + {grant};
        if vetted.Some? {
          OneMoreAllowlist(old(peerKeys), GrantsFor(cn, op, did), grant, vetted.value);
          peerKeys := peerKeys[grant := vetted.value];
        }
        rest, did := rest - {name}, did + {name};
      }
      assert did == labels;
    }

    /** The whole configuration: an error, or a table that means exactly what the file lists. */
    static method FromConfig(clients: seq<ClientEntry>, integrity: string) returns (r: Option<AuthzTable>)
      ensures r.Some? <==> ConfigOk(clients, integrity)
      ensures r.Some? ==> fresh(r.value)
      ensures r.Some? ==> Means(r.value.Value(), Listings(clients))
      ensures r.Some? ==> TableOk(r.value.Value(), integrity)
    {
      var table := new AuthzTable();
      var seenCn: set<string> := {};
      NothingLoaded(integrity);
      assert clients[..0] == [];
      for i := 0 to |clients|
        invariant fresh(table)
        invariant Loaded(table.Value(), seenCn, clients[..i], integrity)
      {
        assert clients[..i + 1] == clients[..i] + [clients[i]];
        var ok, now := table.AddClient(clients[i], integrity, seenCn, clients[..i]);
        if !ok {
          BadPrefix(clients, i + 1, integrity);
          return None;
        }
        seenCn := now;
      }
      assert clients[..|clients|] == clients;
      return Some(table);
    }

    /** One round of the loop over the clients, with the inner loop over the permissions. */
    method AddClient(client: ClientEntry, integrity: string, seenCn: set<string>, ghost before: seq<ClientEntry>)
      returns (ok: bool, now: set<string>)
      requires Loaded(Value(), seenCn, before, integrity)
      modifies this
      ensures ok <==> ConfigOk(before + [client], integrity)
      ensures ok ==> Loaded(Value(), now, before + [client], integrity)
    {
      var cn := Trim(client.cn);
      now := seenCn;
      CnsSnoc(before, client, integrity);
      if cn == "" {
        return false, now;
      }
      if cn in seenCn {
        return false, now;
      }
      now := seenCn + {cn};
      ok := AddPermissions(cn, client, integrity, Listings(before));
    }

    method AddPermissions(cn: string, client: ClientEntry, integrity: string, ghost before: seq<Listing>)
      returns (ok: bool)
      requires cn == Trim(client.cn) && cn != ""
      requires Means(Value(), before) && TableOk(Value(), integrity)
      modifies this
      ensures ok <==> ClientOk(client, integrity)
      ensures ok ==> Means(Value(), before + ListingsOf(client)) && TableOk(Value(), integrity)
    {
      hide Means, TableOk, Add, PermissionOk, Trim;
      ghost var mine := ListingsOf(client);
      assert before + mine[..0] == before;
      for j := 0 to |client.permissions|
        invariant forall k :: 0 <= k < j ==> PermissionOk(client.permissions[k], integrity)
        invariant Means(Value(), before + mine[..j])
        invariant TableOk(Value(), integrity)
      {
        var perm := client.permissions[j];
        ghost var was := Value();
        var added := AddPermission(cn, perm, integrity);
        if !added {
          return false;
        }
        AddMeans(was, before + mine[..j], mine[j], integrity);
        AddKeepsInvariant(was, mine[j], integrity);
        assert before + mine[..j] + [mine[j]] == before + mine[..j + 1];
      }
      assert mine[..|client.permissions|] == mine;
      return true;
    }

    predicate IsAuthorized(cn: string, op: Operation, keyLabel: string)
      reads this
    {
      Authorized(Value(), cn, op, keyLabel)
    }

    predicate IsPeerKeyAuthorized(cn: string, op: Operation, keyLabel: string, peerB64: string)
      reads this
    {
      PeerAuthorized(Value(), cn, op, keyLabel, peerB64)
    }
  }

  predicate Authorized(t: Table, cn: string, op: Operation, keyLabel: string) {
    Grant(cn, op, keyLabel) in t.grants
  }

  predicate PeerAuthorized(t: Table, cn: string, op: Operation, keyLabel: string, peerB64: string) {
    var g := Grant(cn, op, keyLabel);
    g in t.peers && peerB64 in t.peers[g]
  }

  // ------------------------------------------------ Allowlists and bytes

  /** Some grant in force is governed by exactly one entry of the file. */
  lemma {:induction false} GoverningEntry(ls: seq<Listing>, g: Grant) returns (n: nat)
    requires Granted(ls, g)
    ensures n < |ls| && Governs(ls, n, g)
  {
    var last := |ls| - 1;
    if Names(ls[last], g) {
      n := last;
    } else {
      var m :| 0 <= m < |ls| && Names(ls[m], g);
      assert Names(ls[..last][m], g);
      n := GoverningEntry(ls[..last], g);
      GovernsOld(ls[..last], ls[last], n, g);
      assert ls[..last] + [ls[last]] == ls;
    }
  }

  /** Comparing peer keys as texts is comparing them as bytes: a decodable text is allowed exactly
      when its bytes are those of some allowed text. */
  lemma AllowlistIsOfBytes(t: Table, integrity: string, cn: string, op: Operation, keyLabel: string, peerB64: string)
    requires TableOk(t, integrity)
    requires Base64.Decode(peerB64).Some?
    ensures PeerAuthorized(t, cn, op, keyLabel, peerB64) <==>
      var g := Grant(cn, op, keyLabel);
      g in t.peers && exists k :: k in t.peers[g] && Base64.Decode(k) == Base64.Decode(peerB64)
  {
    var g := Grant(cn, op, keyLabel);
    if g in t.peers {
      forall k | k in t.peers[g]
        ensures k == peerB64 <==> Base64.Decode(k) == Base64.Decode(peerB64)
      {
        Base64.DecodeInjective(k, peerB64);
      }
    }
  }
}
