/** The audit log as a file (src/audit.rs): one JSON line per entry, read back line by line,
    and the object that appends to it. */
module LogFile {
  import opened Wrappers
  import opened Bytes
  import opened Text
  import opened Chain
  import opened World
  import Json

  // ---------------------------------------------------------- One line

  function StringMember(key: string, s: string): Json.Member {
    Json.Member(key, Json.Str(s))
  }

  /** The members of an entry in declaration order; an empty detail is left out. */
  function EntryMembers(e: Entry): seq<Json.Member> {
    [ StringMember("ts", e.ts),
      StringMember("cn", e.cn),
      StringMember("operation", e.operation),
      StringMember("key_label", e.keyLabel),
      StringMember("outcome", OutcomeName(e.outcome)) ]
    + (if e.detail == "" then [] else [StringMember("detail", e.detail)])
    + [ StringMember("prev_hash_b64", e.prev),
        StringMember("hash_b64", e.hash) ]
  }

  function Print(e: Entry): string {
    Json.Print(EntryMembers(e))
  }

  function LineOf(e: Entry): string {
    Print(e) + "\n"
  }

  function GetString(ms: seq<Json.Member>, key: string): Option<string> {
    match Json.Get(ms, key)
    case One(Str(s)) => Some(s)
    case _ => None
  }

  /** The entry these members describe. Unknown members are ignored; a missing detail is empty. */
  function EntryOf(ms: seq<Json.Member>): Option<Entry> {
    var detail := if Json.Get(ms, "detail").Absent? then Some("") else GetString(ms, "detail");
    match (GetString(ms, "ts"), GetString(ms, "cn"), GetString(ms, "operation"), GetString(ms, "key_label"))
    case (Some(ts), Some(cn), Some(op), Some(name)) =>
      (match (GetString(ms, "outcome"), detail, GetString(ms, "prev_hash_b64"), GetString(ms, "hash_b64"))
       case (Some(o), Some(d), Some(p), Some(h)) =>
         (match OutcomeOf(o)
          case None => None
          case Some(outcome) => Some(Entry(ts, cn, op, name, outcome, d, p, h)))
       case _ => None)
    case _ => None
  }

  /** All members have to be there, once and as strings, only the detail may be missing. */
  lemma EntryReads(ms: seq<Json.Member>, e: Entry)
    ensures EntryOf(ms) == Some(e) <==>
      && Json.Get(ms, "ts") == Json.One(Json.Str(e.ts))
      && Json.Get(ms, "cn") == Json.One(Json.Str(e.cn))
      && Json.Get(ms, "operation") == Json.One(Json.Str(e.operation))
      && Json.Get(ms, "key_label") == Json.One(Json.Str(e.keyLabel))
      && Json.Get(ms, "outcome") == Json.One(Json.Str(OutcomeName(e.outcome)))
      && (Json.Get(ms, "detail") == Json.One(Json.Str(e.detail)) || (Json.Get(ms, "detail").Absent? && e.detail == ""))
      && Json.Get(ms, "prev_hash_b64") == Json.One(Json.Str(e.prev))
      && Json.Get(ms, "hash_b64") == Json.One(Json.Str(e.hash))
  {
    hide Json.Get;
    OutcomeRoundTrip(e.outcome);
  }

  function ParseEntry(line: string): Option<Entry> {
    match Json.Parse(line)
    case None => None
    case Some(ms) => EntryOf(ms)
  }

  /** The member names of an entry, in the order of its declaration. */
  const KEYS: seq<string> :=
    ["ts", "cn", "operation", "key_label", "outcome", "detail", "prev_hash_b64", "hash_b64"]

  lemma KeysDiffer(i: nat, j: nat)
    requires i < j < 8
    ensures KEYS[i] != KEYS[j]
  {
    assert |"ts"| == 2 && |"cn"| == 2 && |"operation"| == 9 && |"key_label"| == 9;
    assert |"outcome"| == 7 && |"detail"| == 6 && |"prev_hash_b64"| == 13 && |"hash_b64"| == 8;
    assert "ts"[0] == 't' && "cn"[0] == 'c' && "operation"[0] == 'o' && "key_label"[0] == 'k';
  }

  /** Where the k-th key of the declaration stands among the members, if it is there. */
  function Position(e: Entry, k: nat): nat
    requires k < 8 && (k == 5 ==> e.detail != "")
  {
    if k > 5 && e.detail == "" then k - 1 else k
  }

  lemma GetMember(e: Entry, k: nat)
    requires k < 8 && (k == 5 ==> e.detail != "")
    ensures Json.Get(EntryMembers(e), KEYS[k]) == Json.One(EntryMembers(e)[Position(e, k)].value)
  {
    var ms, p := EntryMembers(e), Position(e, k);
    forall i | 0 <= i < |ms| && i != p
      ensures ms[i].key != ms[p].key
    {
      var j := if e.detail == "" && i >= 5 then i + 1 else i;
      assert ms[i].key == KEYS[j] && ms[p].key == KEYS[k];
      if j < k { KeysDiffer(j, k); } else { KeysDiffer(k, j); }
    }
    Json.GetOne(ms, p);
  }

  lemma GetNoDetail(e: Entry)
    requires e.detail == ""
    ensures Json.Get(EntryMembers(e), "detail") == Json.Absent
  {
    var ms := EntryMembers(e);
    forall i | 0 <= i < |ms|
      ensures ms[i].key != "detail"
    {
      var j := if i >= 5 then i + 1 else i;
      assert ms[i].key == KEYS[j];
      if j < 5 { KeysDiffer(j, 5); } else { KeysDiffer(5, j); }
    }
    Json.GetAbsent(ms, "detail");
  }

  lemma EntryOfMembers(e: Entry)
    ensures EntryOf(EntryMembers(e)) == Some(e)
  {
    GetMember(e, 0);
    GetMember(e, 1);
    GetMember(e, 2);
    GetMember(e, 3);
    GetMember(e, 4);
    if e.detail == "" {
      GetNoDetail(e);
    } else {
      GetMember(e, 5);
    }
    GetMember(e, 6);
    GetMember(e, 7);
    OutcomeRoundTrip(e.outcome);
  }

  /** A written entry is read back as it was, whatever its texts contain. */
  lemma ParsePrinted(e: Entry)
    ensures ParseEntry(Print(e)) == Some(e)
  {
    Json.ParsePrinted(EntryMembers(e));
    EntryOfMembers(e);
  }

  // ---------------------------------------------------------- The file

  /** All entries of these lines; blank lines are skipped, an unreadable one is an error. */
  function ReadLines(lines: seq<string>): Option<seq<Entry>> {
    if lines == [] then Some([])
    else
      var n := |lines| - 1;
      match ReadLines(lines[..n])
      case None => None
      case Some(es) =>
        if Blank(lines[n]) then Some(es)
        else match ParseEntry(lines[n])
          case None => None
          case Some(e) => Some(es + [e])
  }

  function ReadLog(text: string): Option<seq<Entry>> {
    ReadLines(Lines(text))
  }

  function TextOf(es: seq<Entry>): (r: string)
    ensures Terminated(r)
  {
    if es == [] then "" else TextOf(es[..|es| - 1]) + LineOf(es[|es| - 1])
  }

  /** `verify_chain`: the last hash, if the file is readable and its chain unbroken. */
  function VerifyText(sha: Sha, text: string): Option<string> {
    match ReadLog(text)
    case None => None
    case Some(es) => if Chained(sha, es) then Some(LastHash(es)) else None
  }

  lemma {:induction false} ReadLinesPrefix(lines: seq<string>, n: nat)
    requires n <= |lines| && ReadLines(lines).Some?
    ensures ReadLines(lines[..n]).Some? && ReadLines(lines[..n]).value <= ReadLines(lines).value
  {
    if n == |lines| {
      assert lines[..n] == lines;
    } else {
      var init := lines[..|lines| - 1];
      ReadLinesPrefix(init, n);
      assert init[..n] == lines[..n];
    }
  }

  lemma ReadLinesSnoc(lines: seq<string>, line: string)
    ensures ReadLines(lines + [line]) ==
      match ReadLines(lines)
      case None => None
      case Some(es) =>
        if Blank(line) then Some(es)
        else match ParseEntry(line) case None => None case Some(e) => Some(es + [e])
  {
    var ls := lines + [line];
    assert ls[..|ls| - 1] == lines;
  }

  lemma StartsVisible(s: string)
    requires s != "" && !IsWhite(s[0])
    ensures !Blank(s)
  {
    BlankIsAllWhite(s);
  }

  /** A printed entry is one line, and not a blank one. */
  lemma PrintIsOneLine(e: Entry)
    ensures '\n' !in Print(e) && StripCr(Print(e)) == Print(e) && !Blank(Print(e))
    ensures Lines(LineOf(e)) == [Print(e)]
  {
    var p := Print(e);
    Json.PrintPlain(EntryMembers(e));
    assert p[|p| - 1] in p;
    StartsVisible(p);
    LinesCons(p, "");
    assert p + "\n" + "" == LineOf(e);
  }

  /** Appending a line to an empty or newline-terminated file adds exactly that entry. */
  lemma ReadAppended(text: string, e: Entry)
    requires Terminated(text)
    ensures ReadLog(text + LineOf(e)) ==
      match ReadLog(text) case None => None case Some(es) => Some(es + [e])
    ensures Terminated(text + LineOf(e))
  {
    PrintIsOneLine(e);
    LinesAppend(text, LineOf(e));
    ReadLinesSnoc(Lines(text), Print(e));
    ParsePrinted(e);
  }

  lemma ReadNothing()
    ensures ReadLog("") == Some([])
  {
    assert Lines("") == [];
  }

  lemma TextSnoc(init: seq<Entry>, e: Entry)
    ensures TextOf(init + [e]) == TextOf(init) + LineOf(e)
  {
    hide LineOf;
    var es := init + [e];
    assert es[..|es| - 1] == init;
  }

  lemma RoundTripStep(init: seq<Entry>, e: Entry)
    requires ReadLog(TextOf(init)) == Some(init)
    ensures ReadLog(TextOf(init + [e])) == Some(init + [e])
  {
    hide ReadLog, LineOf, TextOf, Terminated;
    ReadAppended(TextOf(init), e);
    TextSnoc(init, e);
  }

  /** Writing any entries one per line and reading the file gives those entries. */
  lemma {:induction false} LogRoundTrip(es: seq<Entry>)
    ensures ReadLog(TextOf(es)) == Some(es)
  {
    if es == [] {
      ReadNothing();
    } else {
      hide ReadLog, TextOf;
      var init, e := es[..|es| - 1], es[|es| - 1];
      LastApart(es);
      LogRoundTrip(init);
      RoundTripStep(init, e);
    }
  }

  lemma VerifyAppended(sha: Sha, text: string, e: Entry)
    requires Terminated(text) && VerifyText(sha, text).Some?
    requires e.prev == VerifyText(sha, text).value && Sealed(sha, e)
    ensures Terminated(text + LineOf(e)) && VerifyText(sha, text + LineOf(e)) == Some(e.hash)
  {
    hide LineOf, ReadLog, Sealed, Linked, Text.Terminated;
    ReadAppended(text, e);
    ChainedSnoc(sha, ReadLog(text).value, e);
  }

  // ---------------------------------------------------- Tampered files

  /** A file made only of entries of a verifying file, with lines deleted, moved or repeated, is
      accepted exactly when it is that file's log, possibly cut off at the end. */
  lemma TamperedFileShows(sha: Sha, text: string, other: string)
    requires VerifyText(sha, text).Some? && ReadLog(other).Some?
    requires NoCollision(sha, ReadLog(text).value) && AllFit(ReadLog(text).value)
    requires forall e :: e in ReadLog(other).value ==> e in ReadLog(text).value
    ensures VerifyText(sha, other).Some? <==> ReadLog(other).value <= ReadLog(text).value
  {
    PrefixesVerify(sha, ReadLog(text).value, ReadLog(other).value);
  }

  /** Two accepted files with the same last hash hold the same log. */
  lemma SameHeadSameLog(sha: Sha, a: string, b: string)
    requires VerifyText(sha, a).Some? && VerifyText(sha, a) == VerifyText(sha, b)
    requires NoCollision(sha, ReadLog(a).value + ReadLog(b).value) && AllFit(ReadLog(a).value + ReadLog(b).value)
    ensures ReadLog(a) == ReadLog(b)
  {
    SameLastHashSameLog(sha, ReadLog(a).value, ReadLog(b).value);
  }

  // ------------------------------ Appending to a file that ends mid-line

  ghost predicate AllSpace(s: string) {
    forall i :: 0 <= i < |s| ==> Json.IsSpace(s[i])
  }

  lemma {:induction false} SkipAllSpace(s: string)
    ensures Json.SkipSpace(s) == "" <==> AllSpace(s)
  {
    if s != "" && Json.IsSpace(s[0]) {
      SkipAllSpace(s[1..]);
      assert forall i :: 1 <= i < |s| ==> s[i] == s[1..][i - 1];
    }
  }

  /** What an entry written behind the unterminated text `r` reads as. */
  lemma ParseBehind(r: string, e: Entry)
    ensures AllSpace(r) ==> ParseEntry(r + Print(e)) == Some(e)
    ensures !AllSpace(r) && (Blank(r) || ParseEntry(r).Some?) ==> ParseEntry(r + Print(e)) == None
  {
    var ms := EntryMembers(e);
    var p := Json.Print(ms);
    SkipAllSpace(r);
    Json.SkipSpaceExtends(r, p);
    if AllSpace(r) {
      assert Json.ParseObject(r + p) == Json.ParseObject(p);
      ParsePrinted(e);
    } else if Blank(r) {
      BlankIsAllWhite(r);
      SkipSpaceIsSuffix(r);
      assert Json.SkipSpace(r)[0] in r;
    } else if ParseEntry(r).Some? {
      Json.ParseObjectExtends(r, p);
      var rest := Json.ParseObject(r).value.1;
      Json.SkipSpaceExtends(rest, p);
    }
  }

  lemma {:induction false} SkipSpaceIsSuffix(s: string)
    ensures forall c :: c in Json.SkipSpace(s) ==> c in s
  {
    if s != "" && Json.IsSpace(s[0]) {
      SkipSpaceIsSuffix(s[1..]);
    }
  }

  lemma LinesOfUnterminated(h: string, r: string)
    requires Terminated(h) && '\n' !in r && r != ""
    ensures Lines(h + r) == Lines(h) + [r]
  {
    LinesAppend(h, r);
  }

  lemma NotBlankBehind(r: string, e: Entry)
    ensures !Blank(r + Print(e)) && StripCr(r + Print(e)) == r + Print(e) && '\n' !in Print(e)
  {
    hide EntryMembers, Blank, Lines;
    var p := Print(e);
    PrintIsOneLine(e);
    BlankIsAllWhite(r + p);
    assert (r + p)[|r|] == p[0];
    Json.PrintPlain(EntryMembers(e));
    assert p[|p| - 1] in p && (r + p)[|r + p| - 1] == p[|p| - 1];
  }

  /** The file of a readable log stays readable after an append exactly when what stands behind
      its last newline is nothing but JSON whitespace; otherwise no later start accepts it. */
  lemma AppendReadableIff(text: string, e: Entry)
    requires ReadLog(text).Some?
    ensures ReadLog(text + LineOf(e)).Some? <==> AllSpace(Rest(text))
    ensures AllSpace(Rest(text)) ==> ReadLog(text + LineOf(e)) == Some(ReadLog(text).value + [e])
  {
    RestIs(text);
    var r := Rest(text);
    var h := text[..|text| - |r|];
    assert text == h + r;
    if r == "" {
      assert text == h;
      ReadAppended(text, e);
    } else {
      LinesOfUnterminated(h, r);
      LinesBehind(h, r, e);
      ReadBehind(Lines(h), r, e);
    }
  }

  /** The last line `r` of a readable file, and the same line with an entry written behind it. */
  lemma ReadBehind(lines: seq<string>, r: string, e: Entry)
    requires ReadLines(lines + [r]).Some?
    ensures ReadLines(lines + [r + Print(e)]) ==
      if AllSpace(r) then Some(ReadLines(lines + [r]).value + [e]) else None
  {
    hide ReadLines, ParseEntry, Print, Blank;
    ReadLinesSnoc(lines, r);
    ReadLinesSnoc(lines, r + Print(e));
    NotBlankBehind(r, e);
    ParseBehind(r, e);
    SpaceIsBlank(r);
  }

  lemma SpaceIsBlank(r: string)
    ensures AllSpace(r) ==> Blank(r)
  {
    BlankIsAllWhite(r);
  }

  lemma LinesBehind(h: string, r: string, e: Entry)
    requires Terminated(h) && '\n' !in r
    ensures Lines(h + r + LineOf(e)) == Lines(h) + [r + Print(e)]
  {
    var p := Print(e);
    NotBlankBehind(r, e);
    var line := r + p;
    LinesCons(line, "");
    Assoc(r, p, "\n");
    Assoc(h, r, LineOf(e));
    assert line + "\n" + "" == r + LineOf(e);
    LinesAppend(h, r + LineOf(e));
  }

  // -------------------------------------------------------- The log object

  /** What stands at the path of the log when the gateway starts. */
  datatype Disk = Missing | Present(text: string) | Unreadable

  /** The verifying loop of `verify_chain`. */
  method VerifyChain(sha: Sha, disk: Disk) returns (r: Option<string>)
    ensures r == match disk
                 case Missing => Some(GENESIS)
                 case Present(text) => VerifyText(sha, text)
                 case Unreadable => None
  {
    assert ReadLines([]) == Some([]) && Chained(sha, []) && LastHash([]) == GENESIS;
    hide ReadLines, ParseEntry, Blank, Lines, EntryHash, Chained, LastHash;
    if disk.Missing? {
      return Some(GENESIS);
    }
    if disk.Unreadable? {
      return None;
    }
    var lines := Lines(disk.text);
    var expectedPrev := GENESIS;
    ghost var es: seq<Entry> := [];
    assert lines[..0] == [];
    for i := 0 to |lines|
      invariant ReadLines(lines[..i]) == Some(es)
      invariant Chained(sha, es) && expectedPrev == LastHash(es)
    {
      var line := lines[i];
      OneMoreLine(sha, lines, i, es);
      if Blank(line) {
        continue;
      }
      var parsed := ParseEntry(line);
      if parsed.None? {
        Broken(sha, lines, i + 1);
        return None;
      }
      var entry := parsed.value;
      if entry.prev != expectedPrev {
        Broken(sha, lines, i + 1);
        return None;
      }
      var recomputed := ComputeEntryHash(sha, entry.prev, entry.ts, entry.cn, entry.operation,
                                         entry.keyLabel, entry.outcome, entry.detail);
      if recomputed != entry.hash {
        Broken(sha, lines, i + 1);
        return None;
      }
      expectedPrev := entry.hash;
      es := es + [entry];
    }
    assert lines[..|lines|] == lines;
    return Some(expectedPrev);
  }

  lemma OneMoreLine(sha: Sha, lines: seq<string>, i: nat, es: seq<Entry>)
    requires i < |lines| && ReadLines(lines[..i]) == Some(es)
    ensures Blank(lines[i]) ==> ReadLines(lines[..i + 1]) == Some(es)
    ensures !Blank(lines[i]) && ParseEntry(lines[i]).None? ==> ReadLines(lines[..i + 1]) == None
    ensures !Blank(lines[i]) && ParseEntry(lines[i]).Some? ==>
      var e := ParseEntry(lines[i]).value;
      && ReadLines(lines[..i + 1]) == Some(es + [e]) && LastHash(es + [e]) == e.hash
      && (Chained(sha, es + [e]) <==> Chained(sha, es) && e.prev == LastHash(es) && Sealed(sha, e))
  {
    hide ReadLines, ParseEntry, Blank, Sealed, Chained;
    assert lines[..i + 1] == lines[..i] + [lines[i]];
    ReadLinesSnoc(lines[..i], lines[i]);
    if !Blank(lines[i]) && ParseEntry(lines[i]).Some? {
      ChainedSnoc(sha, es, ParseEntry(lines[i]).value);
    }
  }

  lemma Broken(sha: Sha, lines: seq<string>, n: nat)
    requires n <= |lines|
    requires ReadLines(lines[..n]).Some? ==> !Chained(sha, ReadLines(lines[..n]).value)
    ensures ReadLines(lines).Some? ==> !Chained(sha, ReadLines(lines).value)
  {
    if ReadLines(lines).Some? {
      ReadLinesPrefix(lines, n);
      var all, some := ReadLines(lines).value, ReadLines(lines[..n]).value;
      if Chained(sha, all) {
        assert some == all[..|some|];
        ChainedPrefix(sha, all, |some|);
      }
    }
  }

  /** What the program does to a log: append an entry, which may fail, and open it again. */
  datatype LogOp =
    | DoAppend(body: Body, written: bool)
    | Reopen

  datatype LogState = LogState(file: string, lastHash: string)

  /** One operation; `None` is a refused start. */
  function Do(sha: Sha, s: LogState, op: LogOp): Option<LogState> {
    match op
    case DoAppend(body, written) =>
      var e := Seal(sha, s.lastHash, body);
      Some(if written then LogState(s.file + LineOf(e), e.hash) else s)
    case Reopen =>
      match VerifyText(sha, s.file)
      case None => None
      case Some(last) => Some(LogState(s.file, last))
  }

  function DoAll(sha: Sha, s: LogState, ops: seq<LogOp>): Option<LogState>
    decreases |ops|
  {
    if ops == [] then Some(s)
    else match Do(sha, s, ops[0])
      case None => None
      case Some(t) => DoAll(sha, t, ops[1..])
  }

  /** The cached head is what verification of the file computes, and the file takes appends. */
  ghost predicate Agrees(sha: Sha, s: LogState) {
    Terminated(s.file) && VerifyText(sha, s.file) == Some(s.lastHash)
  }

  /** The opened file: a write and its flush put a whole text at the end, or fail. */
  class OpenFile {
    var text: string
    /** How many writes have failed. */
    ghost var failures: nat

    constructor (text: string)
      ensures this.text == text && failures == 0
    {
      this.text, failures := text, 0;
    }

    method Write(more: string) returns (ok: bool)
      modifies this
      ensures text == if ok then old(text) + more else old(text)
      ensures failures == old(failures) + if ok then 0 else 1
    {
      ok := *;
      if ok {
        text := text + more;
      } else {
        failures := failures + 1;
      }
    }
  }

  class AuditLog {
    const sha: Sha
    const history: History
    const file: OpenFile
    var lastHash: string

    function State(): LogState
      reads this, file
    {
      LogState(file.text, lastHash)
    }

    ghost predicate Valid()
      reads this, file
    {
      Agrees(sha, State())
    }

    constructor (sha: Sha, history: History, file: OpenFile, last: string)
      ensures this.sha == sha && this.history == history && this.file == file && lastHash == last
    {
      this.sha, this.history, this.file, lastHash := sha, history, file, last;
    }

    /** Open or create the log: refused if the chain does not verify or the file cannot be opened. */
    static method Open(sha: Sha, history: History, disk: Disk, openable: bool) returns (r: Option<AuditLog>)
      ensures r.Some? <==>
        openable && !disk.Unreadable? && (disk.Present? ==> VerifyText(sha, disk.text).Some?)
      ensures r.Some? ==>
        && fresh(r.value) && fresh(r.value.file) && r.value.sha == sha && r.value.history == history
        && Do(sha, LogState(if disk.Present? then disk.text else "", ""), Reopen) == Some(r.value.State())
    {
      var last := VerifyChain(sha, disk);
      if last.None? || !openable {
        return None;
      }
      assert Lines("") == [];
      var file := new OpenFile(if disk.Present? then disk.text else "");
      var log := new AuditLog(sha, history, file, last.value);
      return Some(log);
    }

    /** Append one entry at time `ts`. It is refused exactly if the write fails, and then nothing changes. */
    method Append(ts: string, cn: string, op: string, keyLabel: string, outcome: Outcome, detail: string)
      returns (ok: bool)
      modifies this, file, history
      ensures history.events == old(history.events) + [Appended(cn, op, keyLabel, outcome, detail, ok)]
      ensures file.failures == old(file.failures) + if ok then 0 else 1
      ensures Do(sha, old(State()), DoAppend(Body(ts, cn, op, keyLabel, outcome, detail), ok)) == Some(State())
      ensures old(Valid()) ==> Valid()
    {
      hide ReadLog, Linked, EntryHash, Terminated;
      var prev := lastHash;
      var hash := ComputeEntryHash(sha, prev, ts, cn, op, keyLabel, outcome, detail);
      var entry := Entry(ts, cn, op, keyLabel, outcome, detail, prev, hash);
      var line := Print(entry);
      line := line + "\n";
      if Valid() {
        VerifyAppended(sha, file.text, entry);
      }
      ok := file.Write(line);
      history.events := history.events + [Appended(cn, op, keyLabel, outcome, detail, ok)];
      if !ok {
        return;
      }
      lastHash := hash;
    }
  }

  // ------------------------------------------------ Whole runs of the log

  lemma DoAgrees(sha: Sha, s: LogState, op: LogOp)
    requires Agrees(sha, s)
    ensures Do(sha, s, op).Some? && Agrees(sha, Do(sha, s, op).value) && s.file <= Do(sha, s, op).value.file
    ensures op.Reopen? ==> Do(sha, s, op) == Some(s)
  {
    if op.DoAppend? && op.written {
      VerifyAppended(sha, s.file, Seal(sha, s.lastHash, op.body));
    }
  }

  /** Over any run of appends, failed appends and restarts no start is refused, and the cached
      head is what verification computes from the file. */
  lemma {:induction false} HeadCacheAgrees(sha: Sha, s: LogState, ops: seq<LogOp>)
    requires Agrees(sha, s)
    ensures DoAll(sha, s, ops).Some?
    ensures var t := DoAll(sha, s, ops).value;
      Agrees(sha, t) && Do(sha, t, Reopen) == Some(t) && s.file <= t.file
    decreases |ops|
  {
    if ops == [] {
      DoAgrees(sha, s, Reopen);
    } else {
      DoAgrees(sha, s, ops[0]);
      HeadCacheAgrees(sha, Do(sha, s, ops[0]).value, ops[1..]);
    }
  }
}
