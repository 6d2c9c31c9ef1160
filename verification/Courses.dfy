/** The course of each request in the interleaved runs is a course of the gateway object: its events
    replay the automaton, and they are what the log and the device show of it. */
module Courses {
  import opened Wrappers
  import opened Machine
  import opened World
  import opened Token
  import P = Pipeline
  import Protocol
  import Chain
  import Config
  import A = Appends
  import M = HsmMachine

  // ------------------------------------------------------- What is shown

  /** The answered calls among these events. */
  function CallsOf(tid: Tid, evs: seq<Event>): seq<M.Use> {
    if evs == [] then []
    else
      var n := |evs| - 1;
      CallsOf(tid, evs[..n]) +
      if evs[n].Called? && !evs[n].ans.Failed? then [M.Use(tid, evs[n].cmd, evs[n].ans)] else []
  }

  /** The successful key uses of request `tid`. */
  function UsesOf(tid: Tid, uses: seq<M.Use>): seq<M.Use> {
    if uses == [] then []
    else
      var n := |uses| - 1;
      UsesOf(tid, uses[..n]) + if uses[n].tid == tid && !uses[n].ans.Failed? then [uses[n]] else []
  }

  /** The successful appends among these events. */
  function AppendsOf(evs: seq<Event>): seq<Event> {
    if evs == [] then []
    else
      var n := |evs| - 1;
      AppendsOf(evs[..n]) + if evs[n].Appended? && evs[n].ok then [evs[n]] else []
  }

  function EventOf(line: Chain.Entry): Event {
    Appended(line.cn, line.operation, line.keyLabel, line.outcome, line.detail, true)
  }

  /** The lines of request `tid` whose append was completed, as events. */
  function LinesOf(tid: Tid, lines: seq<Line>): seq<Event> {
    if lines == [] then []
    else
      var n := |lines| - 1;
      LinesOf(tid, lines[..n]) +
      if lines[n].owner == tid && lines[n].published.Some? then [EventOf(lines[n].entry)] else []
  }

  lemma CallsSnoc(tid: Tid, evs: seq<Event>, e: Event)
    ensures CallsOf(tid, evs + [e]) ==
      CallsOf(tid, evs) + if e.Called? && !e.ans.Failed? then [M.Use(tid, e.cmd, e.ans)] else []
    ensures AppendsOf(evs + [e]) == AppendsOf(evs) + if e.Appended? && e.ok then [e] else []
  {
    assert (evs + [e])[..|evs|] == evs;
  }

  lemma UsesSnoc(tid: Tid, uses: seq<M.Use>, u: M.Use)
    ensures UsesOf(tid, uses + [u]) == UsesOf(tid, uses) + if u.tid == tid && !u.ans.Failed? then [u] else []
  {
    assert (uses + [u])[..|uses|] == uses;
  }

  lemma LinesSnoc(tid: Tid, lines: seq<Line>, line: Line)
    ensures LinesOf(tid, lines + [line]) ==
      LinesOf(tid, lines) + if line.owner == tid && line.published.Some? then [EventOf(line.entry)] else []
  {
    assert (lines + [line])[..|lines|] == lines;
  }

  /** Publishing another's line shows nothing of `tid`. */
  lemma {:induction false} OtherPublished(tid: Tid, lines: seq<Line>, k: nat, now: nat)
    requires k < |lines| && lines[k].owner != tid
    ensures LinesOf(tid, lines[k := lines[k].(published := Some(now))]) == LinesOf(tid, lines)
  {
    var n := |lines| - 1;
    var lines' := lines[k := lines[k].(published := Some(now))];
    if k < n {
      OtherPublished(tid, lines[..n], k, now);
      assert lines'[..n] == lines[..n][k := lines[k].(published := Some(now))];
    } else {
      assert lines'[..n] == lines[..n];
    }
  }

  /** Publishing the last line of `tid` shows that line at the end. */
  lemma {:induction false} LastPublished(tid: Tid, lines: seq<Line>, k: nat, now: nat)
    requires k < |lines| && lines[k].owner == tid && lines[k].published.None?
    requires forall i :: k < i < |lines| ==> lines[i].owner != tid
    ensures LinesOf(tid, lines[k := lines[k].(published := Some(now))]) == LinesOf(tid, lines) + [EventOf(lines[k].entry)]
  {
    var n := |lines| - 1;
    var lines' := lines[k := lines[k].(published := Some(now))];
    if k < n {
      LastPublished(tid, lines[..n], k, now);
      assert lines'[..n] == lines[..n][k := lines[k].(published := Some(now))];
    } else {
      assert lines'[..n] == lines[..n];
    }
  }

  // ---------------------------------------------------------- Invariant

  /** A call that was answered and whose request has not taken the answer yet. */
  function InHand(s: State, tid: Tid): seq<M.Use> {
    if tid in s.hsm.calls && s.hsm.calls[tid].Answered? && !s.hsm.calls[tid].ans.Failed?
    then [M.Use(tid, s.hsm.calls[tid].cmd, s.hsm.calls[tid].ans)] else []
  }

  /** A request cut off may have missed its last answer. */
  predicate UsesShow(tid: Tid, t: Task, hand: seq<M.Use>, uses: seq<M.Use>) {
    var calls := CallsOf(tid, t.evs);
    if t.cut then calls <= UsesOf(tid, uses) && |UsesOf(tid, uses)| <= |calls| + 1
    else UsesOf(tid, uses) == calls + hand
  }

  predicate Replays(t: Task) {
    P.Replay(t.g, t.cn, t.req, P.Begin(t.g, t.cn, Some(t.req)), t.evs) == Some(t.pc)
  }

  ghost predicate CourseOk(s: State, tid: Tid)
    requires tid in s.tasks
  {
    var t := s.tasks[tid];
    && Replays(t) && UsesShow(tid, t, InHand(s, tid), s.hsm.uses) && AppendsOf(t.evs) == LinesOf(tid, s.lines)
  }

  /** The line of an append under way is the last one of its request. */
  ghost predicate LastOfIts(s: State, tid: Tid)
    requires tid in s.log.pending
  {
    s.log.pending[tid].HasWritten? ==>
      forall k :: Place(s, s.log.pending[tid].index) < k < |s.lines| && k >= 0 ==> s.lines[k].owner != tid
  }

  ghost predicate Inv(s: State) {
    && (forall t :: t in s.tasks ==> CourseOk(s, t))
    && (forall t :: t in s.log.pending ==> LastOfIts(s, t))
    && (forall u :: u in s.hsm.uses ==> u.tid in s.tasks)
    && (forall k :: 0 <= k < |s.lines| ==> s.lines[k].owner in s.tasks || s.lines[k].owner in s.notices)
  }

  lemma {:induction false} NoLines(tid: Tid, lines: seq<Line>)
    requires forall k :: 0 <= k < |lines| ==> lines[k].owner != tid
    ensures LinesOf(tid, lines) == []
  {
    if lines != [] {
      NoLines(tid, lines[..|lines| - 1]);
    }
  }

  lemma {:induction false} NoUses(tid: Tid, uses: seq<M.Use>)
    requires forall u :: u in uses ==> u.tid != tid
    ensures UsesOf(tid, uses) == []
  {
    if uses != [] {
      NoUses(tid, uses[..|uses| - 1]);
    }
  }

  /** One more event that the automaton was waiting for. */
  lemma ReplaysOn(t: Task, e: Event, t': Task)
    requires Replays(t) && t'.g == t.g && t'.cn == t.cn && t'.req == t.req && t'.evs == t.evs + [e]
    requires P.Advance(t.g, t.cn, t.req, t.pc, e) == Some(t'.pc)
    ensures Replays(t')
  {
    hide P.Begin, P.Advance, P.Replay;
    P.ReplaySnoc(t.g, t.cn, t.req, P.Begin(t.g, t.cn, Some(t.req)), t.evs, e);
  }

  /** Requests that did not move and of which nothing new is shown. */
  lemma CourseSame(s: State, s': State, u: Tid)
    requires u in s.tasks && u in s'.tasks && CourseOk(s, u)
    requires SameShown(s.tasks[u], s'.tasks[u])
    requires InHand(s', u) == InHand(s, u) && UsesOf(u, s'.hsm.uses) == UsesOf(u, s.hsm.uses)
    requires LinesOf(u, s'.lines) == LinesOf(u, s.lines)
    ensures CourseOk(s', u)
  {
    hide P.Begin, P.Replay, InHand, CallsOf, UsesOf, LinesOf, AppendsOf;
  }

  // ---------------------------------------------------------- Log steps

  /** Reading the head and writing a line show nothing yet. */
  lemma NothingShown(e: Env, s: State, st: A.Step, s': State)
    requires LinesTied(s) && (st.Read? || st.Write?) && NextLog(e, s, st) == Some(s')
    ensures st.Read? ==> s'.lines == s.lines && |s'.log.slots| == |s.log.slots|
    ensures st.Write? ==>
      && |s'.lines| == |s.lines| + 1 && s'.lines == s.lines + [s'.lines[|s.lines|]] && |s'.log.slots| == |s.log.slots| + 1
      && s'.lines[|s.lines|].owner == st.tid && s'.lines[|s.lines|].published.None?
    ensures st.tid in s'.log.pending && (s'.log.pending[st.tid].HasWritten? ==>
      st.Write? && s'.log.pending[st.tid].index == |s.log.slots|)
    ensures st.tid in s.tasks && st.tid in s'.tasks ==> SameShown(s.tasks[st.tid], s'.tasks[st.tid])
  {
    hide IsDue, P.Due, Protocol.OpName, Chain.EntryHash, SameLine;
  }

  /** As far as its course goes the request is the same. */
  predicate SameShown(t: Task, t': Task) {
    SameRequest(t, t') && t'.pc == t.pc && t'.evs == t.evs && t'.cut == t.cut
  }

  lemma WrittenCourse(e: Env, s: State, st: A.Step, s': State)
    requires LinesTied(s) && Inv(s) && (st.Read? || st.Write?) && NextLog(e, s, st) == Some(s')
    ensures Inv(s')
  {
    hide CourseOk, NextLog, Logs, LinesTied;
    LogStepFrame(e, s, st, s');
    NothingShown(e, s, st, s');
    forall u | u in s'.tasks ensures CourseOk(s', u) {
      if st.Write? {
        LinesSnoc(u, s.lines, s'.lines[|s.lines|]);
      }
      CourseSame(s, s', u);
    }
    forall u | u in s'.log.pending ensures LastOfIts(s', u) {
      if u != st.tid {
        assert LastOfIts(s, u);
      }
    }
    LoggerKnown(s, st.tid);
  }

  lemma LoggerKnown(s: State, tid: Tid)
    ensures Logs(s, tid) ==> tid in s.tasks || tid in s.notices
  {
  }

  lemma AppendedCourse(e: Env, s: State, st: A.Step, s': State)
    requires Ties(e, s) && Inv(s) && (st.Publish? || st.Fail?) && NextLog(e, s, st) == Some(s')
    ensures Inv(s')
  {
    hide CourseOk, NextLog, Ties, Logs;
    LogStepFrame(e, s, st, s');
    AppendedShows(e, s, st, s');
    forall u | u in s'.tasks ensures CourseOk(s', u) {
      if u != st.tid {
        CourseSame(s, s', u);
      } else {
        AppendedOwn(e, s, st, s');
      }
    }
    forall u | u in s'.log.pending ensures LastOfIts(s', u) {
      assert LastOfIts(s, u);
    }
  }

  /** What the end of an append shows: nothing of others, and the due line if it was written. */
  lemma AppendedShows(e: Env, s: State, st: A.Step, s': State)
    requires Ties(e, s) && Inv(s) && (st.Publish? || st.Fail?) && NextLog(e, s, st) == Some(s')
    ensures forall u :: u != st.tid ==> LinesOf(u, s'.lines) == LinesOf(u, s.lines)
    ensures |s'.lines| == |s.lines| && |s'.log.slots| == |s.log.slots|
    ensures forall k :: 0 <= k < |s.lines| ==> s'.lines[k].owner == s.lines[k].owner
    ensures st.Fail? ==> LinesOf(st.tid, s'.lines) == LinesOf(st.tid, s.lines)
    ensures st.Publish? && TaskLogs(s, st.tid) ==>
      LinesOf(st.tid, s'.lines) == LinesOf(st.tid, s.lines) + [AppendEvent(s.tasks[st.tid], true)]
  {
    hide CourseOk, M.Inv, EnvOk, Config.TableOk, TaskOk, CallTied, P.Due, Protocol.OpName, Moved, IsDue, Logs, LineIs, A.Inv;
    LogOf(e, s, st, s');
    assert PendingOk(s, st.tid) by { LogStepFrame(e, s, st, s'); }
    if st.Publish? {
      var i := s.log.pending[st.tid].index;
      var k := Place(s, i);
      assert SameLine(s.log.slots[i], s.lines[k]);
      assert LastOfIts(s, st.tid);
      assert s'.lines == s.lines[k := s.lines[k].(published := Some(s.log.clock))];
      forall u | u != st.tid ensures LinesOf(u, s'.lines) == LinesOf(u, s.lines) {
        OtherPublished(u, s.lines, k, s.log.clock);
      }
      LastPublished(st.tid, s.lines, k, s.log.clock);
      if TaskLogs(s, st.tid) {
        LineIsEvent(s, st.tid, s.lines[k].entry);
      }
    }
  }

  lemma LineIsEvent(s: State, tid: Tid, line: Chain.Entry)
    requires Logs(s, tid) && TaskLogs(s, tid) && LineIs(line, s, tid)
    ensures EventOf(line) == AppendEvent(s.tasks[tid], true)
  {
    hide P.Due, Protocol.OpName;
  }

  lemma NotNoticed(e: Env, s: State, tid: Tid)
    requires Ties(e, s) && tid in s.tasks
    ensures tid !in s.notices
  {
    hide M.Inv, EnvOk, Config.TableOk, TaskOk, PendingOk, CallTied, LinesTied;
  }

  lemma AppendedOwn(e: Env, s: State, st: A.Step, s': State)
    requires Ties(e, s) && Inv(s) && (st.Publish? || st.Fail?) && NextLog(e, s, st) == Some(s') && st.tid in s.tasks
    ensures st.tid in s'.tasks && CourseOk(s', st.tid)
  {
    hide NextLog, P.AfterAppend, CallsOf, AppendsOf, UsesOf, LinesOf, Ties, Place, LastOfIts, Replays, Protocol.OpName, P.Due;
    LogStepFrame(e, s, st, s');
    assert CourseOk(s, st.tid);
    assert st.tid !in s.notices by { NotNoticed(e, s, st.tid); }
    TaskMoves(e, s, st, s');
    AppendedShows(e, s, st, s');
    var t, t' := s.tasks[st.tid], s'.tasks[st.tid];
    var ev := AppendEvent(t, st.Publish?);
    CallsSnoc(st.tid, t.evs, ev);
    ReplaysOn(t, ev, t');
  }

  // ---------------------------------------------------------- HSM steps

  lemma HsmCourse(e: Env, s: State, st: M.Step, s': State)
    requires Ties(e, s) && Inv(s) && NextHsm(e, s, st) == Some(s')
    ensures Inv(s')
  {
    hide CourseOk, M.Inv, EnvOk, Config.TableOk, TaskOk, PendingOk, LinesTied, P.AfterCall, M.Next;
    var tid := st.tid;
    assert tid in s.hsm.calls ==> CallTied(s, tid);
    CallStepKeepsCommand(e, s, st, s'.hsm);
    CallShows(e, s.hsm, st, s'.hsm);
    forall u | u in s'.tasks ensures CourseOk(s', u) {
      if u == tid {
        HsmOwn(e, s, st, s');
      } else {
        if st.UseKey? {
          UsesSnoc(u, s.hsm.uses, s'.hsm.uses[|s.hsm.uses|]);
        }
        CourseSame(s, s', u);
      }
    }
    forall u | u in s'.log.pending ensures LastOfIts(s', u) {
      assert LastOfIts(s, u);
    }
  }

  /** What one step of a call shows. */
  lemma CallShows(e: Env, s: M.Hsm, st: M.Step, s': M.Hsm)
    requires M.Next(e.c, s, st) == Some(s')
    ensures !st.UseKey? ==> s'.uses == s.uses
    ensures st.Enter? || st.OpenSession? || st.FindKey? || st.Derive? || st.GiveUp? ==>
      (st.tid in s.calls ==> !s.calls[st.tid].Answered?)
      && st.tid in s'.calls && (s'.calls[st.tid].Answered? ==> s'.calls[st.tid].ans.Failed?)
    ensures st.UseKey? ==>
      && st.tid in s.calls && !s.calls[st.tid].Answered? && st.tid in s'.calls && s'.calls[st.tid].Answered?
      && s'.uses == s.uses + [M.Use(st.tid, s'.calls[st.tid].cmd, s'.calls[st.tid].ans)]
    ensures st.Finish? ==> st.tid in s.calls && s.calls[st.tid].Answered? && st.tid !in s'.calls
  {
    hide M.Result, IsTheKey, UsedKey;
  }

  lemma HsmOwn(e: Env, s: State, st: M.Step, s': State)
    requires Inv(s) && NextHsm(e, s, st) == Some(s') && (st.tid in s.hsm.calls ==> CallTied(s, st.tid))
    ensures st.tid in s'.tasks && CourseOk(s', st.tid)
  {
    hide P.AfterCall, P.Begin, P.Replay, CallsOf, AppendsOf, UsesOf, LinesOf, M.Next, Protocol.OpName, P.Due;
    var tid := st.tid;
    assert CourseOk(s, tid);
    CallShows(e, s.hsm, st, s'.hsm);
    if st.UseKey? {
      UsesSnoc(tid, s.hsm.uses, s'.hsm.uses[|s.hsm.uses|]);
    }
    if st.Finish? {
      var t, t' := s.tasks[tid], s'.tasks[tid];
      var ev := Called(t.pc.cmd, s.hsm.calls[tid].ans);
      CallsSnoc(tid, t.evs, ev);
      ReplaysOn(t, ev, t');
    }
  }

  // -------------------------------------------------- Arrivals and restarts

  lemma ArrivedCourse(e: Env, s: State, st: Step, s': State)
    requires Ties(e, s) && Inv(s) && (st.Arrive? || st.Notify?) && Next(e, s, st) == Some(s')
    ensures Inv(s')
  {
    hide CourseOk, M.Inv, EnvOk, Config.TableOk, TaskOk, PendingOk, LinesTied, P.Begin, RequestFits, NoticeOk, CallTied;
    NewcomerIsNew(e, s, st.tid);
    forall u | u in s'.tasks ensures CourseOk(s', u) {
      if u in s.tasks {
        CourseSame(s, s', u);
      } else {
        NoLines(u, s.lines);
        NoUses(u, s.hsm.uses);
        NewCourse(s', u);
      }
    }
    forall u | u in s'.log.pending ensures LastOfIts(s', u) {
      assert LastOfIts(s, u);
    }
  }

  lemma NewCourse(s: State, u: Tid)
    requires u in s.tasks && s.tasks[u].evs == [] && !s.tasks[u].cut && u !in s.hsm.calls
    requires s.tasks[u].pc == P.Begin(s.tasks[u].g, s.tasks[u].cn, Some(s.tasks[u].req))
    requires LinesOf(u, s.lines) == [] && UsesOf(u, s.hsm.uses) == []
    ensures CourseOk(s, u)
  {
    hide P.Begin;
  }

  lemma RestartedCourse(e: Env, s: State, table: Config.Table, s': State)
    requires Ties(e, s) && Inv(s) && Restarted(e, s, table) == Some(s')
    ensures Inv(s')
  {
    hide M.Inv, EnvOk, Config.TableOk, TaskOk, PendingOk, LinesTied, Chain.Chained, CourseOk;
    forall u | u in s'.tasks ensures CourseOk(s', u) {
      assert u in s.hsm.calls ==> CallTied(s, u);
      RestartedOwn(s, s', u);
    }
  }

  lemma RestartedOwn(s: State, s': State, u: Tid)
    requires u in s.tasks && CourseOk(s, u) && (u in s.hsm.calls ==> CallTied(s, u))
    requires s'.tasks == CutOff(s.tasks) && s'.lines == s.lines && s'.hsm.uses == s.hsm.uses && s'.hsm.calls == map[]
    ensures CourseOk(s', u)
  {
    hide P.Replay, P.Begin, CallsOf, UsesOf, LinesOf, AppendsOf;
  }

  lemma NextKeepsCourses(e: Env, s: State, st: Step, s': State)
    requires Ties(e, s) && Inv(s) && Next(e, s, st) == Some(s')
    ensures Inv(s')
  {
    hide Inv, Ties, NextLog, NextHsm, Restarted;
    match st
    case Arrive(_, _, _) => ArrivedCourse(e, s, st, s');
    case Notify(_, _, _, _) => ArrivedCourse(e, s, st, s');
    case Restart(table) => RestartedCourse(e, s, table, s');
    case HsmStep(h) => HsmCourse(e, s, h, s');
    case LogStep(l) =>
      assert LinesTied(s) by { TiesLines(e, s); }
      if l.Read? || l.Write? {
        WrittenCourse(e, s, l, s');
      } else {
        AppendedCourse(e, s, l, s');
      }
  }

  lemma ReachedCourses(e: Env, base: seq<Chain.Entry>, s: State)
    requires EnvOk(e) && Reached(e, base, s)
    ensures Ties(e, s) && Inv(s)
  {
    hide Ties, Next, Reached, Inv;
    forall table | Config.TableOk(table, e.integrity) ensures Ties(e, Machine.Start(e, table, base)) && Inv(Machine.Start(e, table, base)) {
      StartTies(e, table, base);
      StartInv(e, table, base);
    }
    forall r: State, st | Ties(e, r) && Inv(r) && Next(e, r, st).Some?
      ensures Ties(e, Next(e, r, st).value) && Inv(Next(e, r, st).value)
    {
      NextKeepsTies(e, r, st, Next(e, r, st).value);
      NextKeepsCourses(e, r, st, Next(e, r, st).value);
    }
    HoldsOfReached(e, base, s, (r: State) => Ties(e, r) && Inv(r));
  }

  lemma StartInv(e: Env, table: Config.Table, base: seq<Chain.Entry>)
    ensures Inv(Machine.Start(e, table, base))
  {
  }

  /** However requests interleave, and over any number of restarts: the events of each request replay
      the automaton that serving it alone follows; its successful appends are its completed lines of
      the log and its answered calls are its key uses, one for one and in order. A request that the
      end of a process cut off may have missed one last answer. */
  lemma CoursesAreShown(e: Env, base: seq<Chain.Entry>, s: State, tid: Tid)
    requires EnvOk(e) && Reached(e, base, s) && tid in s.tasks
    ensures var t := s.tasks[tid];
      && Replays(t)
      && AppendsOf(t.evs) == LinesOf(tid, s.lines)
      && UsesShow(tid, t, InHand(s, tid), s.hsm.uses)
      && (t.pc.Done? ==>
            && CallsOf(tid, t.evs) == UsesOf(tid, s.hsm.uses)
            && P.Serves(t.g, t.cn, Some(t.req), t.evs, t.pc.resp))
  {
    hide Reached, Ties, CallsOf, UsesOf, AppendsOf, LinesOf, P.Begin, P.Replay;
    ReachedCourses(e, base, s);
    assert CourseOk(s, tid);
    DoneIsOver(e, s, tid);
  }

  /** An answered request has no call under way and has not been cut off. */
  lemma DoneIsOver(e: Env, s: State, tid: Tid)
    requires Ties(e, s) && tid in s.tasks
    ensures s.tasks[tid].pc.Done? ==> tid !in s.hsm.calls && !s.tasks[tid].cut
  {
    hide M.Inv, EnvOk, Config.TableOk, PendingOk, LinesTied, RequestFits, P.Permitted, SettingsOk;
    assert TaskOk(e, s, tid);
    assert tid in s.hsm.calls ==> CallTied(s, tid);
  }
}
