/** Concurrent appends to the audit log (src/audit.rs). `append` takes three locks one after the
    other: it reads the head, writes its line, and publishes the new head. Here these are three
    steps that any number of appends may interleave. */
module Appends {
  import opened Wrappers
  import opened Bytes
  import opened Chain

  type Tid = nat

  /** A line of the file: its entry, who wrote it, when that append read the head, which line's hash
      it found there (-1 is the last entry present at start), and when it wrote and published. */
  datatype Slot = Slot(entry: Entry, owner: Tid, readAt: nat, found: int, writtenAt: nat, published: Option<nat>)

  /** How far an append has come. */
  datatype Stage =
    | HasRead(body: Body, prev: string, readAt: nat, found: int)
    | HasWritten(index: nat)

  /** The entries present at start, the lines written since, and the cached head; the clock counts
      steps and `headIs` names the line the head belongs to. */
  datatype Log = Log(clock: nat, base: seq<Entry>, slots: seq<Slot>, head: string, headIs: int,
                     pending: map<Tid, Stage>)

  datatype Step = Read(tid: Tid, body: Body) | Write(tid: Tid) | Fail(tid: Tid) | Publish(tid: Tid)

  /** A freshly opened log. */
  function Opened(base: seq<Entry>): Log {
    Log(0, base, [], LastHash(base), -1, map[])
  }

  /** The log as the next start opens it: all lines of the file are there already, and the appends
      that were under way are gone. The clock goes on. */
  function Reopened(l: Log): Log {
    Opened(Entries(l)).(clock := l.clock)
  }

  /** One step, if the append it belongs to is at that point. A failed write changes nothing. */
  function Next(sha: Sha, l: Log, st: Step): Option<Log> {
    match st
    case Read(t, body) =>
      if t in l.pending then None
      else Some(l.(clock := l.clock + 1, pending := l.pending[t := HasRead(body, l.head, l.clock, l.headIs)]))
    case Write(t) =>
      if t !in l.pending || !l.pending[t].HasRead? then None
      else
        var p := l.pending[t];
        var s := Slot(Seal(sha, p.prev, p.body), t, p.readAt, p.found, l.clock, None);
        Some(l.(clock := l.clock + 1, slots := l.slots + [s], pending := l.pending[t := HasWritten(|l.slots|)]))
    case Fail(t) =>
      if t !in l.pending || !l.pending[t].HasRead? then None
      else Some(l.(clock := l.clock + 1, pending := l.pending - {t}))
    case Publish(t) =>
      if t !in l.pending || !l.pending[t].HasWritten? || l.pending[t].index >= |l.slots| then None
      else
        var i := l.pending[t].index;
        var s := l.slots[i].(published := Some(l.clock));
        Some(l.(clock := l.clock + 1, slots := l.slots[i := s], head := s.entry.hash, headIs := i,
                pending := l.pending - {t}))
  }

  function Run(sha: Sha, l: Log, steps: seq<Step>): Option<Log>
    decreases |steps|
  {
    if steps == [] then Some(l)
    else match Next(sha, l, steps[0])
      case None => None
      case Some(m) => Run(sha, m, steps[1..])
  }

  /** The whole file. */
  function Entries(l: Log): (r: seq<Entry>)
    ensures |r| == |l.base| + |l.slots|
  {
    l.base + seq(|l.slots|, i requires 0 <= i < |l.slots| => l.slots[i].entry)
  }

  /** The hash of line `k`. */
  function HashAt(l: Log, k: int): string
    requires -1 <= k < |l.slots|
  {
    if k == -1 then LastHash(l.base) else l.slots[k].entry.hash
  }

  // ----------------------------------------------------------- Overlap

  predicate PublishedBy(s: Slot, t: nat) {
    s.published.Some? && s.published.value <= t
  }

  /** Append `b` read the head between the read and the publication of append `a`. */
  predicate ReadInside(a: Slot, b: Slot) {
    a.readAt <= b.readAt && !PublishedBy(a, b.readAt)
  }

  /** No append that wrote a line read the head inside another one's window. */
  ghost predicate Serial(l: Log) {
    forall i, j :: 0 <= i < |l.slots| && 0 <= j < |l.slots| && i != j ==> !ReadInside(l.slots[i], l.slots[j])
  }

  // --------------------------------------------------------- Invariant

  /** Line `k` is the last one published up to time `t`. */
  ghost predicate Latest(l: Log, k: int, t: nat) {
    && -1 <= k < |l.slots|
    && (k >= 0 ==> PublishedBy(l.slots[k], t))
    && forall i :: 0 <= i < |l.slots| && PublishedBy(l.slots[i], t) ==>
         k >= 0 && l.slots[i].published.value <= l.slots[k].published.value
  }

  ghost predicate SlotOk(sha: Sha, l: Log, i: nat)
    requires i < |l.slots|
  {
    var s := l.slots[i];
    && Sealed(sha, s.entry)
    && Latest(l, s.found, s.readAt) && s.found < i && s.entry.prev == HashAt(l, s.found)
    && s.readAt < s.writtenAt < l.clock
    && (s.published.Some? ==> s.writtenAt < s.published.value < l.clock)
    && (s.published.None? ==> s.owner in l.pending && l.pending[s.owner] == HasWritten(i))
  }

  ghost predicate PendingOk(l: Log, t: Tid)
    requires t in l.pending
  {
    match l.pending[t]
    case HasRead(_, prev, readAt, found) =>
      readAt < l.clock && Latest(l, found, readAt) && prev == HashAt(l, found)
    case HasWritten(i) =>
      i < |l.slots| && l.slots[i].owner == t && l.slots[i].published.None?
  }

  ghost predicate Inv(sha: Sha, l: Log) {
    && Chained(sha, l.base)
    && Latest(l, l.headIs, l.clock) && l.head == HashAt(l, l.headIs)
    && (forall i :: 0 <= i < |l.slots| ==> SlotOk(sha, l, i))
    && (forall i, j :: 0 <= i < j < |l.slots| ==> l.slots[i].writtenAt < l.slots[j].writtenAt)
    && (forall t :: t in l.pending ==> PendingOk(l, t))
  }

  lemma LatestUnchanged(l: Log, m: Log, k: int, t: nat)
    requires m.slots == l.slots && m.base == l.base && Latest(l, k, t)
    ensures Latest(m, k, t) && HashAt(m, k) == HashAt(l, k)
  {
  }

  /** A new, unpublished line does not change what was published when. */
  lemma LatestSnoc(l: Log, m: Log, s: Slot, k: int, t: nat)
    requires m.slots == l.slots + [s] && m.base == l.base && s.published.None? && Latest(l, k, t)
    ensures Latest(m, k, t) && HashAt(m, k) == HashAt(l, k)
  {
  }

  /** A later publication does not change what was published before. */
  lemma LatestPublish(l: Log, m: Log, i: nat, now: nat, k: int, t: nat)
    requires i < |l.slots| && l.slots[i].published.None? && t < now
    requires m.slots == l.slots[i := l.slots[i].(published := Some(now))] && m.base == l.base
    requires Latest(l, k, t)
    ensures Latest(m, k, t) && HashAt(m, k) == HashAt(l, k)
  {
  }

  lemma ReadKeepsInv(sha: Sha, l: Log, st: Step, m: Log)
    requires Inv(sha, l) && (st.Read? || st.Fail?) && Next(sha, l, st) == Some(m)
    ensures Inv(sha, m)
  {
    hide Sealed, Seal, Chained, HashAt;
    LatestUnchanged(l, m, l.headIs, l.clock);
    assert forall i :: 0 <= i < |m.slots| && PublishedBy(m.slots[i], m.clock) ==> PublishedBy(l.slots[i], l.clock) by {
      forall i | 0 <= i < |l.slots| ensures l.slots[i].published.Some? ==> PublishedBy(l.slots[i], l.clock) {
        assert SlotOk(sha, l, i);
      }
    }
    forall i | 0 <= i < |m.slots| ensures SlotOk(sha, m, i) {
      assert SlotOk(sha, l, i);
      LatestUnchanged(l, m, l.slots[i].found, l.slots[i].readAt);
    }
    forall t | t in m.pending ensures PendingOk(m, t) {
      if t in l.pending {
        assert PendingOk(l, t);
        if l.pending[t].HasRead? {
          LatestUnchanged(l, m, l.pending[t].found, l.pending[t].readAt);
        }
      }
    }
  }

  lemma WriteKeepsInv(sha: Sha, l: Log, t: Tid, m: Log)
    requires Inv(sha, l) && Next(sha, l, Write(t)) == Some(m)
    ensures Inv(sha, m)
  {
    hide Sealed, Seal, Chained, HashAt;
    var p, n := l.pending[t], |l.slots|;
    assert PendingOk(l, t);
    var s := m.slots[n];
    assert m.slots == l.slots + [s];
    LatestSnoc(l, m, s, l.headIs, l.clock);
    forall i | 0 <= i < |m.slots| ensures SlotOk(sha, m, i) {
      if i < n {
        assert SlotOk(sha, l, i);
        LatestSnoc(l, m, s, l.slots[i].found, l.slots[i].readAt);
      } else {
        LatestSnoc(l, m, s, p.found, p.readAt);
      }
    }
    assert Latest(m, m.headIs, m.clock) by {
      forall i | 0 <= i < |m.slots| && PublishedBy(m.slots[i], m.clock) ensures i < n && PublishedBy(l.slots[i], l.clock) {
        assert SlotOk(sha, m, i);
        if i < n { assert SlotOk(sha, l, i); }
      }
    }
    forall u | u in m.pending ensures PendingOk(m, u) {
      if u != t {
        assert PendingOk(l, u);
        if l.pending[u].HasRead? {
          LatestSnoc(l, m, s, l.pending[u].found, l.pending[u].readAt);
        }
      }
    }
    forall i, j | 0 <= i < j < |m.slots| ensures m.slots[i].writtenAt < m.slots[j].writtenAt {
      assert SlotOk(sha, l, i);
    }
  }

  lemma HashOfSlot(l: Log, k: nat)
    requires k < |l.slots|
    ensures HashAt(l, k) == l.slots[k].entry.hash
  {
  }

  lemma PublishKeepsInv(sha: Sha, l: Log, t: Tid, m: Log)
    requires Inv(sha, l) && Next(sha, l, Publish(t)) == Some(m)
    ensures Inv(sha, m)
  {
    hide Sealed, Seal, Chained, HashAt;
    var k := l.pending[t].index;
    assert m.head == HashAt(m, k) by { HashOfSlot(m, k); }
    assert PendingOk(l, t);
    forall i | 0 <= i < |m.slots| ensures SlotOk(sha, m, i) {
      assert SlotOk(sha, l, i);
      LatestPublish(l, m, k, l.clock, l.slots[i].found, l.slots[i].readAt);
      assert l.slots[i].found < |l.slots|;
    }
    forall i | 0 <= i < |m.slots| && PublishedBy(m.slots[i], m.clock)
      ensures m.slots[i].published.value <= m.slots[k].published.value
    {
      assert SlotOk(sha, l, i);
    }
    forall u | u in m.pending ensures PendingOk(m, u) {
      assert PendingOk(l, u);
      if l.pending[u].HasRead? {
        LatestPublish(l, m, k, l.clock, l.pending[u].found, l.pending[u].readAt);
      }
    }
  }

  lemma NextKeepsInv(sha: Sha, l: Log, st: Step, m: Log)
    requires Inv(sha, l) && Next(sha, l, st) == Some(m)
    ensures Inv(sha, m)
  {
    match st
    case Read(_, _) => ReadKeepsInv(sha, l, st, m);
    case Fail(_) => ReadKeepsInv(sha, l, st, m);
    case Write(t) => WriteKeepsInv(sha, l, t, m);
    case Publish(t) => PublishKeepsInv(sha, l, t, m);
  }

  lemma {:induction false} RunKeepsInv(sha: Sha, l: Log, steps: seq<Step>, m: Log)
    requires Inv(sha, l) && Run(sha, l, steps) == Some(m)
    ensures Inv(sha, m)
    decreases |steps|
  {
    if steps != [] {
      var k := Next(sha, l, steps[0]).value;
      NextKeepsInv(sha, l, steps[0], k);
      RunKeepsInv(sha, k, steps[1..], m);
    }
  }

  lemma OpenedInv(sha: Sha, base: seq<Entry>)
    requires Chained(sha, base)
    ensures Inv(sha, Opened(base))
  {
  }

  lemma ReopenedInv(sha: Sha, l: Log)
    requires Chained(sha, Entries(l))
    ensures Inv(sha, Reopened(l)) && Entries(Reopened(l)) == Entries(l)
  {
  }

  // ------------------------------------------------- The exact condition

  /** Every append found the hash of the line right before its own. */
  ghost predicate InTurn(l: Log) {
    forall j :: 0 <= j < |l.slots| ==> l.slots[j].found == j - 1
  }

  /** Without overlap, appends read, write and publish one after the other. */
  lemma SerialOrder(sha: Sha, l: Log, i: nat, j: nat)
    requires Inv(sha, l) && Serial(l) && i < j < |l.slots|
    ensures l.slots[i].readAt < l.slots[j].readAt && PublishedBy(l.slots[i], l.slots[j].readAt)
  {
    hide Sealed;
    assert SlotOk(sha, l, i) && SlotOk(sha, l, j);
    assert !ReadInside(l.slots[j], l.slots[i]);
    assert !ReadInside(l.slots[i], l.slots[j]);
  }

  lemma SerialIsInTurn(sha: Sha, l: Log)
    requires Inv(sha, l) && Serial(l)
    ensures InTurn(l)
  {
    hide Sealed;
    forall j | 0 < j < |l.slots|
      ensures l.slots[j].found == j - 1
    {
      assert SlotOk(sha, l, j) && SlotOk(sha, l, j - 1);
      SerialOrder(sha, l, j - 1, j);
      if 0 <= l.slots[j].found < j - 1 {
        SerialOrder(sha, l, l.slots[j].found, j - 1);
      }
    }
    assert |l.slots| > 0 ==> SlotOk(sha, l, 0);
  }

  lemma {:induction false} InTurnPublishes(sha: Sha, l: Log, i: nat, j: nat)
    requires Inv(sha, l) && InTurn(l) && i < j < |l.slots|
    ensures PublishedBy(l.slots[i], l.slots[j].readAt)
    decreases j
  {
    hide Sealed, Seal;
    assert SlotOk(sha, l, j) && SlotOk(sha, l, j - 1);
    assert PublishedBy(l.slots[j - 1], l.slots[j].readAt);
    if i < j - 1 {
      InTurnPublishes(sha, l, i, j - 1);
    }
  }

  lemma InTurnIsSerial(sha: Sha, l: Log)
    requires Inv(sha, l) && InTurn(l)
    ensures Serial(l)
  {
    hide Sealed, Seal;
    forall i, j | 0 <= i < |l.slots| && 0 <= j < |l.slots| && i != j
      ensures !ReadInside(l.slots[i], l.slots[j])
    {
      assert SlotOk(sha, l, i) && SlotOk(sha, l, j);
      if i < j {
        InTurnPublishes(sha, l, i, j);
      } else {
        InTurnPublishes(sha, l, j, i);
      }
    }
  }

  lemma LastOfEntries(l: Log, j: nat)
    requires j <= |l.slots|
    ensures LastHash(Entries(l)[..|l.base| + j]) == HashAt(l, j - 1)
  {
    if j == 0 {
      assert Entries(l)[..|l.base|] == l.base;
    }
  }

  lemma InTurnIsChained(sha: Sha, l: Log)
    requires Inv(sha, l) && InTurn(l)
    ensures Chained(sha, Entries(l))
  {
    hide Sealed, Seal;
    var es, n := Entries(l), |l.base|;
    assert es[..n] == l.base;
    forall k | 0 <= k < |es| ensures Linked(sha, es, k) {
      if k < n {
        assert Linked(sha, l.base, k);
        LinkedPrefix(sha, es, n, k);
      } else {
        assert SlotOk(sha, l, k - n);
        LastOfEntries(l, k - n);
      }
    }
  }

  lemma ChainedIsInTurn(sha: Sha, l: Log)
    requires Inv(sha, l) && Chained(sha, Entries(l))
    requires NoCollision(sha, Entries(l)) && AllFit(Entries(l))
    ensures InTurn(l)
  {
    hide Inv, Chained, NoCollision, AllFit, Entries;
    forall j | 0 <= j < |l.slots| ensures l.slots[j].found == j - 1 {
      TurnOf(sha, l, j);
    }
  }

  lemma TurnOf(sha: Sha, l: Log, j: nat)
    requires Inv(sha, l) && Chained(sha, Entries(l)) && j < |l.slots|
    requires NoCollision(sha, Entries(l)) && AllFit(Entries(l))
    ensures l.slots[j].found == j - 1
  {
    hide Sealed, Seal, Chained, NoCollision, AllFit, LastHash;
    assert SlotOk(sha, l, j);
    var k, n := l.slots[j].found, |l.base|;
    LastOfEntries(l, k + 1);
    PlaceIsFixed(sha, Entries(l), n + k + 1, n + j);
  }

  /** In every interleaving the file verifies exactly when no append read the head inside another
      append's read-to-publish window. */
  lemma VerifiesIffSerial(sha: Sha, base: seq<Entry>, steps: seq<Step>, l: Log)
    requires Chained(sha, base) && Run(sha, Opened(base), steps) == Some(l)
    requires NoCollision(sha, Entries(l)) && AllFit(Entries(l))
    ensures Chained(sha, Entries(l)) <==> Serial(l)
  {
    OpenedInv(sha, base);
    RunKeepsInv(sha, Opened(base), steps, l);
    ChainedIffSerial(sha, l);
  }

  lemma ChainedIffSerial(sha: Sha, l: Log)
    requires Inv(sha, l) && NoCollision(sha, Entries(l)) && AllFit(Entries(l))
    ensures Chained(sha, Entries(l)) <==> Serial(l)
  {
    if Chained(sha, Entries(l)) {
      ChainedIsInTurn(sha, l);
      InTurnIsSerial(sha, l);
    }
    if Serial(l) {
      SerialIsInTurn(sha, l);
      InTurnIsChained(sha, l);
    }
  }

  /** Two appends that both read the head before either publishes break the chain, whatever the
      hash function does: the code's three locks do not make one. */
  lemma RaceBreaksChain(sha: Sha, s: Tid, t: Tid, a: Body, b: Body)
    requires s != t
    ensures var l := Run(sha, Opened([]), [Read(s, a), Read(t, b), Write(s), Write(t), Publish(s), Publish(t)]);
      l.Some? && !Chained(sha, Entries(l.value)) && l.value.pending == map[]
  {
    hide Sealed, Seal;
    var l0 := Opened([]);
    var l1 := Next(sha, l0, Read(s, a)).value;
    var l2 := Next(sha, l1, Read(t, b)).value;
    var l3 := Next(sha, l2, Write(s)).value;
    var l4 := Next(sha, l3, Write(t)).value;
    var l5 := Next(sha, l4, Publish(s)).value;
    var l6 := Next(sha, l5, Publish(t)).value;
    assert Run(sha, l6, []) == Some(l6);
    assert Run(sha, l5, [Publish(t)]) == Some(l6);
    assert Run(sha, l4, [Publish(s), Publish(t)]) == Some(l6);
    assert Run(sha, l3, [Write(t), Publish(s), Publish(t)]) == Some(l6);
    assert Run(sha, l2, [Write(s), Write(t), Publish(s), Publish(t)]) == Some(l6);
    assert Run(sha, l1, [Read(t, b), Write(s), Write(t), Publish(s), Publish(t)]) == Some(l6);
    var es := Entries(l6);
    assert es[0].prev == GENESIS == es[1].prev;
    if Chained(sha, es) {
      PrevOf(sha, es, 0);
      PrevOf(sha, es, 1);
    }
  }

  // --------------------------------------------- One lock for one append

  /** With the whole append under one lock, an append starts only when none is under way. */
  predicate OneLock(l: Log, st: Step) {
    st.Read? ==> l.pending == map[]
  }

  function LockedRun(sha: Sha, l: Log, steps: seq<Step>): Option<Log>
    decreases |steps|
  {
    if steps == [] then Some(l)
    else if !OneLock(l, steps[0]) then None
    else match Next(sha, l, steps[0])
      case None => None
      case Some(m) => LockedRun(sha, m, steps[1..])
  }

  /** At most one append is under way, and it stands right behind the last line. */
  ghost predicate LockedInv(sha: Sha, l: Log) {
    && Chained(sha, Entries(l))
    && (l.pending == map[] ==> l.head == LastHash(Entries(l)))
    && (forall t, u :: t in l.pending && u in l.pending ==> t == u)
    && (forall t :: t in l.pending ==>
          match l.pending[t]
          case HasRead(_, prev, _, _) => prev == l.head == LastHash(Entries(l))
          case HasWritten(i) => i == |l.slots| - 1)
  }

  lemma LockedNext(sha: Sha, l: Log, st: Step, m: Log)
    requires LockedInv(sha, l) && OneLock(l, st) && Next(sha, l, st) == Some(m)
    ensures LockedInv(sha, m)
  {
    hide Sealed, Seal;
    match st
    case Read(_, _) =>
      assert Entries(m) == Entries(l);
    case Fail(t) =>
      assert Entries(m) == Entries(l) && l.pending[t].HasRead?;
      assert l.head == LastHash(Entries(l));
    case Write(t) =>
      var e := Seal(sha, l.pending[t].prev, l.pending[t].body);
      assert Entries(m) == Entries(l) + [e];
      ChainedSnoc(sha, Entries(l), e);
      assert t in m.pending && m.pending[t] == HasWritten(|m.slots| - 1);
    case Publish(t) =>
      assert Entries(m) == Entries(l);
  }

  /** Then the chain holds in every run, and between appends the cached head is the last hash. */
  lemma {:induction false} OneLockKeepsChain(sha: Sha, l: Log, steps: seq<Step>, m: Log)
    requires LockedInv(sha, l) && LockedRun(sha, l, steps) == Some(m)
    ensures LockedInv(sha, m)
    decreases |steps|
  {
    if steps != [] {
      var k := Next(sha, l, steps[0]).value;
      LockedNext(sha, l, steps[0], k);
      OneLockKeepsChain(sha, k, steps[1..], m);
    }
  }

  lemma OpenedLocked(sha: Sha, base: seq<Entry>)
    requires Chained(sha, base)
    ensures LockedInv(sha, Opened(base))
  {
    assert Entries(Opened(base)) == base;
  }

  /** So under one lock the file verifies after every run. */
  lemma OneLockVerifies(sha: Sha, base: seq<Entry>, steps: seq<Step>, l: Log)
    requires Chained(sha, base) && LockedRun(sha, Opened(base), steps) == Some(l)
    ensures Chained(sha, Entries(l)) && (l.pending == map[] ==> l.head == LastHash(Entries(l)))
  {
    OpenedLocked(sha, base);
    OneLockKeepsChain(sha, Opened(base), steps, l);
  }
}
