/**
 Payment reminders: one daily run per tenant over the reminder offsets, a log with one row per
 installment and level, and mails sent for new rows only.  Days are integers.
 */
module Reminders {
  import opened Numbers
  import opened Wrappers

  /** All offsets before the due date are one level; each offset from it on is its own. */
  datatype Level = Upcoming | Overdue(days: nat)

  function BuildLevel(offset: int): Level { if offset < 0 then Upcoming else Overdue(offset) }

  lemma Levels(offset: int)
    ensures BuildLevel(offset) == Upcoming <==> offset < 0
    ensures forall d: nat :: BuildLevel(offset) == Overdue(d) <==> offset == d
  {
  }

  const DEFAULT_OFFSETS: seq<int> := [-3, 1, 7, 30]

  datatype Installment = Installment(id: nat, due: int, paid: bool)

  datatype Task = Task(id: nat, level: Level)

  datatype Mail = Mail(task: Task, day: int)

  datatype State = State(installments: seq<Installment>, logged: set<Task>, sent: seq<Mail>)

  // ------------------------------------------------------------------ one run

  /** The unpaid installments due on a day, each with the level. */
  function DueTasks(installments: seq<Installment>, date: int, level: Level): seq<Task> {
    if installments == [] then []
    else
      var i := installments[|installments| - 1];
      DueTasks(installments[..|installments| - 1], date, level)
      + if i.due == date && !i.paid then [Task(i.id, level)] else []
  }

  /** What a run goes through: offset by offset, the installments whose day it is. */
  function Tasks(installments: seq<Installment>, offsets: seq<int>, today: int): seq<Task> {
    if offsets == [] then []
    else
      var o := offsets[|offsets| - 1];
      Tasks(installments, offsets[..|offsets| - 1], today) + DueTasks(installments, today - o, BuildLevel(o))
  }

  /** Logs a task and, when the row is new and the customer has an address, sends one mail. */
  function SendIfNotSent(s: State, t: Task, addressed: set<nat>, today: int): State {
    if t in s.logged then s
    else s.(logged := s.logged + {t}, sent := s.sent + if t.id in addressed then [Mail(t, today)] else [])
  }

  function Process(s: State, ts: seq<Task>, addressed: set<nat>, today: int): State {
    if ts == [] then s else SendIfNotSent(Process(s, ts[..|ts| - 1], addressed, today), ts[|ts| - 1], addressed, today)
  }

  class ReminderService {
    var installments: seq<Installment>
    var logged: set<Task>
    var sent: seq<Mail>

    function Contents(): State
      reads this
    {
      State(installments, logged, sent)
    }

    constructor (installments: seq<Installment>)
      ensures Contents() == State(installments, {}, [])
    {
      this.installments, logged, sent := installments, {}, [];
    }

    method SendOne(t: Task, addressed: set<nat>, today: int)
      modifies this`logged, this`sent
      ensures Contents() == SendIfNotSent(old(Contents()), t, addressed, today)
    {
      if t in logged { return; }
      logged := logged + {t};
      if t.id !in addressed { return; }
      sent := sent + [Mail(t, today)];
    }

    /** The reminders of one offset: every unpaid installment due on its day, in order. */
    method ProcessOffset(offset: int, addressed: set<nat>, today: int)
      modifies this`logged, this`sent
      ensures Contents() ==
        Process(old(Contents()), DueTasks(installments, today - offset, BuildLevel(offset)), addressed, today)
    {
      hide Process, DueTasks, SendIfNotSent;
      var level, date := BuildLevel(offset), today - offset;
      NoDueTasks(date, level);
      ProcessNothing(Contents(), addressed, today);
      for i := 0 to |installments|
        invariant Contents() == Process(old(Contents()), DueTasks(installments[..i], date, level), addressed, today)
      {
        assert installments[..i + 1] == installments[..i] + [installments[i]];
        DueTasksMore(installments[..i], installments[i], date, level);
        var inst := installments[i];
        if inst.due == date && !inst.paid {
          ghost var done := DueTasks(installments[..i], date, level);
          ProcessMore(old(Contents()), done, Task(inst.id, level), addressed, today);
          SendOne(Task(inst.id, level), addressed, today);
        }
      }
      assert installments[..|installments|] == installments;
    }

    /**
     A whole run: it handles exactly its tasks, in order; a tenant without offsets of its own has the default ones.
     */
    method ProcessForTenant(configured: Option<seq<int>>, addressed: set<nat>, today: int)
      modifies this`logged, this`sent
      ensures var offsets := if configured.Some? && configured.value != [] then configured.value else DEFAULT_OFFSETS;
        Contents() == Process(old(Contents()), Tasks(installments, offsets, today), addressed, today)
      ensures configured.None? || configured.value == [] ==>
        Contents() == Process(old(Contents()), Tasks(installments, [-3, 1, 7, 30], today), addressed, today)
    {
      hide DueTasks, Process, BuildLevel;
      var offsets := if configured.Some? && configured.value != [] then configured.value else DEFAULT_OFFSETS;
      ProcessNothing(Contents(), addressed, today);
      for k := 0 to |offsets|
        invariant Contents() == Process(old(Contents()), Tasks(installments, offsets[..k], today), addressed, today)
      {
        assert offsets[..k + 1][..k] == offsets[..k];
        ghost var due := DueTasks(installments, today - offsets[k], BuildLevel(offsets[k]));
        ProcessAppend(old(Contents()), Tasks(installments, offsets[..k], today), due, addressed, today);
        ProcessOffset(offsets[k], addressed, today);
      }
      assert offsets[..|offsets|] == offsets;
    }
  }

  lemma NoDueTasks(date: int, level: Level)
    ensures DueTasks([], date, level) == []
  {
  }

  lemma DueTasksMore(installments: seq<Installment>, i: Installment, date: int, level: Level)
    ensures DueTasks(installments + [i], date, level) ==
      DueTasks(installments, date, level) + if i.due == date && !i.paid then [Task(i.id, level)] else []
    ensures !(i.due == date && !i.paid) ==>
      DueTasks(installments + [i], date, level) == DueTasks(installments, date, level)
  {
    assert (installments + [i])[..|installments|] == installments;
    assert DueTasks(installments, date, level) + [] == DueTasks(installments, date, level);
  }

  lemma ProcessMore(s: State, ts: seq<Task>, t: Task, addressed: set<nat>, today: int)
    ensures Process(s, ts + [t], addressed, today) ==
      SendIfNotSent(Process(s, ts, addressed, today), t, addressed, today)
  {
    assert (ts + [t])[..|ts|] == ts;
  }

  lemma ProcessNothing(s: State, addressed: set<nat>, today: int)
    ensures Process(s, [], addressed, today) == s
  {
  }

  lemma {:induction false} ProcessAppend(s: State, ts: seq<Task>, us: seq<Task>, addressed: set<nat>, today: int)
    ensures Process(s, ts + us, addressed, today) == Process(Process(s, ts, addressed, today), us, addressed, today)
    decreases |us|
  {
    if us == [] {
      assert ts + us == ts;
    } else {
      var n := |us| - 1;
      assert (ts + us)[..|ts + us| - 1] == ts + us[..n];
      ProcessAppend(s, ts, us[..n], addressed, today);
    }
  }

  // ------------------------------------------------------------------ what a run logs and sends

  lemma {:induction false} DueTasksAre(installments: seq<Installment>, date: int, level: Level, t: Task)
    ensures t in DueTasks(installments, date, level) <==>
      t.level == level && exists k :: 0 <= k < |installments| && installments[k] == Installment(t.id, date, false)
  {
    if installments != [] {
      var n := |installments| - 1;
      DueTasksAre(installments[..n], date, level, t);
      assert forall k | 0 <= k < n :: installments[..n][k] == installments[k];
    }
  }

  /** The day of a task: an unpaid installment, an offset of the level, and that many days after the due date. */
  predicate DueBy(installments: seq<Installment>, offset: int, today: int, t: Task) {
    BuildLevel(offset) == t.level && exists k ::
      0 <= k < |installments| && installments[k] == Installment(t.id, today - offset, false)
  }

  predicate DueOn(installments: seq<Installment>, offsets: seq<int>, today: int, t: Task) {
    exists o :: 0 <= o < |offsets| && DueBy(installments, offsets[o], today, t)
  }

  lemma DueOnMore(installments: seq<Installment>, offsets: seq<int>, today: int, t: Task)
    requires offsets != []
    ensures DueOn(installments, offsets, today, t) <==>
      DueOn(installments, offsets[..|offsets| - 1], today, t) || DueBy(installments, offsets[|offsets| - 1], today, t)
  {
    hide DueBy;
    var n := |offsets| - 1;
    if DueOn(installments, offsets[..n], today, t) {
      var o :| 0 <= o < n && DueBy(installments, offsets[..n][o], today, t);
      assert offsets[..n][o] == offsets[o];
    }
    if DueOn(installments, offsets, today, t) {
      var o :| 0 <= o < |offsets| && DueBy(installments, offsets[o], today, t);
      if o < n { assert offsets[..n][o] == offsets[o]; }
    }
  }

  lemma {:induction false} TasksAre(installments: seq<Installment>, offsets: seq<int>, today: int, t: Task)
    ensures t in Tasks(installments, offsets, today) <==> DueOn(installments, offsets, today, t)
  {
    hide DueTasks, DueBy, BuildLevel;
    if offsets != [] {
      var n := |offsets| - 1;
      TasksAre(installments, offsets[..n], today, t);
      DueTasksAreDue(installments, offsets[n], today, t);
      DueOnMore(installments, offsets, today, t);
      hide DueOn;
    }
  }

  lemma DueTasksAreDue(installments: seq<Installment>, offset: int, today: int, t: Task)
    ensures t in DueTasks(installments, today - offset, BuildLevel(offset)) <==> DueBy(installments, offset, today, t)
  {
    DueTasksAre(installments, today - offset, BuildLevel(offset), t);
  }

  lemma {:induction false} ProcessLogs(s: State, ts: seq<Task>, addressed: set<nat>, today: int)
    ensures var n := Process(s, ts, addressed, today);
      n.installments == s.installments && forall t :: t in n.logged <==> t in s.logged || t in ts
  {
    if ts != [] {
      ProcessLogs(s, ts[..|ts| - 1], addressed, today);
      assert forall t :: t in ts <==> t in ts[..|ts| - 1] || t == ts[|ts| - 1];
    }
  }

  /** Every mail has its row in the log, and no two mails are for the same installment and level. */
  predicate SentOnce(s: State) {
    && (forall k | 0 <= k < |s.sent| :: s.sent[k].task in s.logged)
    && forall j, k | 0 <= j < k < |s.sent| :: s.sent[j].task != s.sent[k].task
  }

  lemma {:induction false} ProcessKeepsSentOnce(s: State, ts: seq<Task>, addressed: set<nat>, today: int)
    requires SentOnce(s)
    ensures SentOnce(Process(s, ts, addressed, today))
  {
    if ts != [] { ProcessKeepsSentOnce(s, ts[..|ts| - 1], addressed, today); }
  }

  /** A run only adds mails, each for one of its tasks and of its day. */
  lemma {:induction false} ProcessSends(s: State, ts: seq<Task>, addressed: set<nat>, today: int)
    ensures var n := Process(s, ts, addressed, today);
      && s.sent <= n.sent
      && forall k | |s.sent| <= k < |n.sent| ::
        n.sent[k].task in ts && n.sent[k].day == today && n.sent[k].task.id in addressed
  {
    if ts != [] { ProcessSends(s, ts[..|ts| - 1], addressed, today); }
  }

  // ------------------------------------------------------------------ any sequence of runs

  /**
   A run may break off after some of its tasks; when it breaks off in the next one, that one's row is
   written and its mail lost.  A payment marks an installment.
   */
  datatype Event =
    | Run(offsets: seq<int>, addressed: set<nat>, today: int, finished: nat, lost: bool)
    | Pay(id: nat)

  function MarkPaid(xs: seq<Installment>, id: nat): seq<Installment> {
    seq(|xs|, k requires 0 <= k < |xs| => if xs[k].id == id then xs[k].(paid := true) else xs[k])
  }

  /** The tasks a run gets through. */
  function Finished(ts: seq<Task>, n: nat): seq<Task> { if n < |ts| then ts[..n] else ts }

  function Next(s: State, e: Event): State {
    match e
    case Run(offsets, addressed, today, finished, lost) =>
      var ts := Tasks(s.installments, offsets, today);
      var n := Process(s, Finished(ts, finished), addressed, today);
      if lost && finished < |ts| then n.(logged := n.logged + {ts[finished]}) else n
    case Pay(id) => s.(installments := MarkPaid(s.installments, id))
  }

  function After(s: State, es: seq<Event>): State
    decreases |es|
  {
    if es == [] then s else After(Next(s, es[0]), es[1..])
  }

  /** Over any runs, complete or broken off: at most one mail per installment and level. */
  lemma {:induction false} AtMostOnePerLevel(s: State, es: seq<Event>)
    requires SentOnce(s)
    ensures SentOnce(After(s, es))
    decreases |es|
  {
    if es != [] {
      if es[0].Run? {
        var ts := Tasks(s.installments, es[0].offsets, es[0].today);
        ProcessKeepsSentOnce(s, Finished(ts, es[0].finished), es[0].addressed, es[0].today);
      }
      AtMostOnePerLevel(Next(s, es[0]), es[1..]);
    }
  }

  predicate AllPaid(s: State, id: nat) {
    forall k | 0 <= k < |s.installments| && s.installments[k].id == id :: s.installments[k].paid
  }

  function MailsFor(ms: seq<Mail>, id: nat): nat {
    if ms == [] then 0 else MailsFor(ms[..|ms| - 1], id) + if ms[|ms| - 1].task.id == id then 1 else 0
  }

  lemma {:induction false} MailsForOthers(ms: seq<Mail>, ns: seq<Mail>, id: nat)
    requires ms <= ns && forall k | |ms| <= k < |ns| :: ns[k].task.id != id
    ensures MailsFor(ns, id) == MailsFor(ms, id)
    decreases |ns|
  {
    if |ns| > |ms| {
      MailsForOthers(ms, ns[..|ns| - 1], id);
    } else {
      assert ns == ms;
    }
  }

  lemma NoMailInRun(s: State, e: Event, id: nat)
    requires AllPaid(s, id)
    ensures AllPaid(Next(s, e), id) && MailsFor(Next(s, e).sent, id) == MailsFor(s.sent, id)
  {
    if e.Run? {
      var all := Tasks(s.installments, e.offsets, e.today);
      var ts := Finished(all, e.finished);
      ProcessLogs(s, ts, e.addressed, e.today);
      ProcessSends(s, ts, e.addressed, e.today);
      var n := Process(s, ts, e.addressed, e.today);
      forall k | |s.sent| <= k < |n.sent| ensures n.sent[k].task.id != id {
        assert n.sent[k].task in all;
        TasksAre(s.installments, e.offsets, e.today, n.sent[k].task);
      }
      MailsForOthers(s.sent, n.sent, id);
    }
  }

  /** Once an installment is paid no run ever mails about it again. */
  lemma {:induction false} NoneAfterPaid(s: State, es: seq<Event>, id: nat)
    requires AllPaid(s, id)
    ensures MailsFor(After(s, es).sent, id) == MailsFor(s.sent, id)
    decreases |es|
  {
    hide Next, AllPaid;
    if es != [] {
      NoMailInRun(s, es[0], id);
      NoneAfterPaid(Next(s, es[0]), es[1..], id);
    }
  }

  // ------------------------------------------------------------------ complete runs

  /** Every run gets through its tasks, and the installment is not paid; whatever happens to the others. */
  predicate Complete(s: State, es: seq<Event>, id: nat)
    decreases |es|
  {
    if es == [] then true
    else
      && (match es[0]
          case Run(offsets, _, today, finished, _) => |Tasks(s.installments, offsets, today)| <= finished
          case Pay(other) => other != id)
      && Complete(Next(s, es[0]), es[1..], id)
  }

  predicate Unpaid(s: State, id: nat, due: int) {
    && (exists k :: 0 <= k < |s.installments| && s.installments[k] == Installment(id, due, false))
    && forall k | 0 <= k < |s.installments| && s.installments[k].id == id ::
      s.installments[k] == Installment(id, due, false)
  }

  /** The event is a run on the day of one of its own offsets of the level. */
  predicate FallsOn(e: Event, due: int, level: Level) {
    e.Run? && exists o :: 0 <= o < |e.offsets| && BuildLevel(e.offsets[o]) == level && e.offsets[o] == e.today - due
  }

  lemma RunLogs(s: State, e: Event, id: nat, due: int, level: Level)
    requires Unpaid(s, id, due) && e.Run? && |Tasks(s.installments, e.offsets, e.today)| <= e.finished
    ensures Next(s, e).installments == s.installments
    ensures Task(id, level) in Next(s, e).logged <==> Task(id, level) in s.logged || FallsOn(e, due, level)
  {
    hide BuildLevel;
    var t, ts := Task(id, level), Tasks(s.installments, e.offsets, e.today);
    TasksAre(s.installments, e.offsets, e.today, t);
    ProcessLogs(s, ts, e.addressed, e.today);
    assert forall o :: DueBy(s.installments, o, e.today, t) <==> BuildLevel(o) == level && o == e.today - due;
    hide DueBy, Tasks, Process, Unpaid;
  }

  lemma PaymentLeaves(s: State, e: Event, id: nat, due: int)
    requires Unpaid(s, id, due) && e.Pay? && e.id != id
    ensures Unpaid(Next(s, e), id, due) && Next(s, e).logged == s.logged
  {
    var k :| 0 <= k < |s.installments| && s.installments[k] == Installment(id, due, false);
    assert Next(s, e).installments[k] == Installment(id, due, false);
  }

  lemma SameUnpaid(s: State, m: State, id: nat, due: int)
    requires Unpaid(s, id, due) && m.installments == s.installments
    ensures Unpaid(m, id, due)
  {
  }

  /**
   After complete runs on any days, at any offsets and addresses, and with any payments of other
   installments, an unpaid installment's level is in the log exactly when it was before or one of the
   runs was on the day of one of its offsets of that level.
   */
  lemma {:induction false} LoggedExactly(s: State, es: seq<Event>, id: nat, due: int, level: Level)
    requires Unpaid(s, id, due) && Complete(s, es, id)
    ensures Unpaid(After(s, es), id, due)
    ensures Task(id, level) in After(s, es).logged <==>
      Task(id, level) in s.logged || exists k :: 0 <= k < |es| && FallsOn(es[k], due, level)
    decreases |es|
  {
    hide Next, Unpaid, FallsOn, Tasks;
    if es != [] {
      var m := Next(s, es[0]);
      if es[0].Run? {
        RunLogs(s, es[0], id, due, level);
        SameUnpaid(s, m, id, due);
      } else {
        PaymentLeaves(s, es[0], id, due);
        NoRunNoFall(es[0], due, level);
      }
      LoggedExactly(m, es[1..], id, due, level);
      FallsLater(es, due, level);
    }
  }

  lemma NoRunNoFall(e: Event, due: int, level: Level)
    requires e.Pay?
    ensures !FallsOn(e, due, level)
  {
  }

  lemma FallsLater(es: seq<Event>, due: int, level: Level)
    requires es != []
    ensures (exists k :: 0 <= k < |es| && FallsOn(es[k], due, level)) <==>
      FallsOn(es[0], due, level) || exists k :: 0 <= k < |es[1..]| && FallsOn(es[1..][k], due, level)
  {
    hide FallsOn;
    assert forall k | 0 < k < |es| :: es[k] == es[1..][k - 1];
    if k :| 0 <= k < |es[1..]| && FallsOn(es[1..][k], due, level) { assert FallsOn(es[k + 1], due, level); }
  }

  function Largest(offsets: seq<int>): int
    requires offsets != []
  {
    if |offsets| == 1 then offsets[0] else Max(Largest(offsets[..|offsets| - 1]), offsets[|offsets| - 1])
  }

  function Smallest(offsets: seq<int>): int
    requires offsets != []
  {
    if |offsets| == 1 then offsets[0] else Min(Smallest(offsets[..|offsets| - 1]), offsets[|offsets| - 1])
  }

  lemma {:induction false} WithinExtremes(offsets: seq<int>, o: nat)
    requires o < |offsets|
    ensures Smallest(offsets) <= offsets[o] <= Largest(offsets)
  {
    if |offsets| > 1 && o < |offsets| - 1 { WithinExtremes(offsets[..|offsets| - 1], o); }
  }

  predicate RunsOn(es: seq<Event>, offsets: seq<int>, day: int) {
    exists k :: 0 <= k < |es| && es[k].Run? && es[k].offsets == offsets && es[k].today == day
  }

  /** With a run on every day from the smallest offset to the largest, every configured level is logged by then. */
  lemma EveryLevelIsLogged(s: State, es: seq<Event>, offsets: seq<int>, id: nat, due: int, o: nat)
    requires Unpaid(s, id, due) && Complete(s, es, id) && o < |offsets|
    requires forall day | due + Smallest(offsets) <= day <= due + Largest(offsets) :: RunsOn(es, offsets, day)
    ensures Task(id, BuildLevel(offsets[o])) in After(s, es).logged
  {
    LoggedExactly(s, es, id, due, BuildLevel(offsets[o]));
    WithinExtremes(offsets, o);
    hide After, Complete, Unpaid, Largest, Smallest, BuildLevel;
    assert RunsOn(es, offsets, due + offsets[o]);
    var k :| 0 <= k < |es| && es[k].Run? && es[k].offsets == offsets && es[k].today == due + offsets[o];
    assert FallsOn(es[k], due, BuildLevel(offsets[o]));
  }

  // ------------------------------------------------------------------ levels that are shared

  function MailsOf(ms: seq<Mail>, t: Task): nat {
    if ms == [] then 0 else MailsOf(ms[..|ms| - 1], t) + if ms[|ms| - 1].task == t then 1 else 0
  }

  lemma {:induction false} LoggedStays(s: State, ts: seq<Task>, addressed: set<nat>, today: int, t: Task)
    requires t in s.logged
    ensures t in Process(s, ts, addressed, today).logged
    ensures MailsOf(Process(s, ts, addressed, today).sent, t) == MailsOf(s.sent, t)
  {
    if ts != [] {
      var n := |ts| - 1;
      LoggedStays(s, ts[..n], addressed, today, t);
      var m := Process(s, ts[..n], addressed, today);
      if ts[n] !in m.logged && ts[n].id in addressed {
        assert (m.sent + [Mail(ts[n], today)])[..|m.sent|] == m.sent;
      } else {
        assert m.sent + [] == m.sent;
      }
    }
  }

  /** A level that is logged is never mailed again, in any runs. */
  lemma {:induction false} LoggedIsNotMailedAgain(s: State, es: seq<Event>, t: Task)
    requires t in s.logged
    ensures t in After(s, es).logged && MailsOf(After(s, es).sent, t) == MailsOf(s.sent, t)
    decreases |es|
  {
    hide Process, MailsOf;
    if es != [] {
      if es[0].Run? {
        var ts := Tasks(s.installments, es[0].offsets, es[0].today);
        LoggedStays(s, Finished(ts, es[0].finished), es[0].addressed, es[0].today, t);
      }
      LoggedIsNotMailedAgain(Next(s, es[0]), es[1..], t);
    }
  }

  /** A mail that fails is lost for good: its row is there already, so no later run sends it. */
  lemma LostMailIsNeverSent(s: State, e: Event, later: seq<Event>)
    requires e.Run? && e.lost && e.finished < |Tasks(s.installments, e.offsets, e.today)|
    requires var ts := Tasks(s.installments, e.offsets, e.today);
      ts[e.finished] !in s.logged && ts[e.finished] !in ts[..e.finished]
    ensures var t := Tasks(s.installments, e.offsets, e.today)[e.finished];
      t in Next(s, e).logged && MailsOf(After(Next(s, e), later).sent, t) == MailsOf(s.sent, t)
  {
    var ts := Tasks(s.installments, e.offsets, e.today);
    ProcessMails(s, ts[..e.finished], e.addressed, e.today, ts[e.finished]);
    hide Process, MailsOf, After, Tasks;
    LoggedIsNotMailedAgain(Next(s, e), later, ts[e.finished]);
  }

  // ------------------------------------------------------------------ the mails that are sent

  /** A run mails about a task once, exactly when it is one of its own, new in the log, and has an address. */
  lemma {:induction false} ProcessMails(s: State, ts: seq<Task>, addressed: set<nat>, today: int, t: Task)
    ensures MailsOf(Process(s, ts, addressed, today).sent, t) ==
      MailsOf(s.sent, t) + if t in ts && t !in s.logged && t.id in addressed then 1 else 0
  {
    if ts != [] {
      var n := |ts| - 1;
      ProcessMails(s, ts[..n], addressed, today, t);
      ProcessLogs(s, ts[..n], addressed, today);
      var m := Process(s, ts[..n], addressed, today);
      OneMailMore(m.sent, Mail(ts[n], today), t);
      assert t in ts <==> t in ts[..n] || t == ts[n];
    }
  }

  lemma OneMailMore(ms: seq<Mail>, m: Mail, t: Task)
    ensures MailsOf(ms + [m], t) == MailsOf(ms, t) + if m.task == t then 1 else 0
    ensures ms + [] == ms
  {
    assert (ms + [m])[..|ms|] == ms;
  }

  lemma RunMails(s: State, e: Event, id: nat, due: int, level: Level)
    requires Unpaid(s, id, due) && e.Run? && |Tasks(s.installments, e.offsets, e.today)| <= e.finished
    ensures var t := Task(id, level);
      MailsOf(Next(s, e).sent, t) ==
        MailsOf(s.sent, t) + if t !in s.logged && FallsOn(e, due, level) && id in e.addressed then 1 else 0
  {
    hide BuildLevel, MailsOf;
    var t, ts := Task(id, level), Tasks(s.installments, e.offsets, e.today);
    TasksAre(s.installments, e.offsets, e.today, t);
    ProcessMails(s, ts, e.addressed, e.today, t);
    assert forall o :: DueBy(s.installments, o, e.today, t) <==> BuildLevel(o) == level && o == e.today - due;
    hide DueBy, Tasks, Process, Unpaid;
  }

  predicate Addresses(e: Event, id: nat) { e.Run? && id in e.addressed }

  /** The event at k is the first that falls on the level. */
  predicate FirstFall(es: seq<Event>, k: nat, due: int, level: Level) {
    k < |es| && FallsOn(es[k], due, level) && forall j | 0 <= j < k :: !FallsOn(es[j], due, level)
  }

  /** The first of the events that falls on the level is a run that has an address for the installment. */
  predicate FirstFallIsAddressed(es: seq<Event>, id: nat, due: int, level: Level) {
    exists k :: 0 <= k < |es| && FirstFall(es, k, due, level) && Addresses(es[k], id)
  }

  lemma FirstFallLater(es: seq<Event>, id: nat, due: int, level: Level)
    requires es != []
    ensures FirstFallIsAddressed(es, id, due, level) <==>
      if FallsOn(es[0], due, level) then Addresses(es[0], id) else FirstFallIsAddressed(es[1..], id, due, level)
  {
    hide FallsOn, Addresses;
    var later := es[1..];
    assert forall k | 0 < k < |es| :: es[k] == later[k - 1];
    if FallsOn(es[0], due, level) {
      assert FirstFall(es, 0, due, level);
    } else {
      if k: nat :| 0 <= k < |later| && FirstFall(later, k, due, level) && Addresses(later[k], id) {
        assert FirstFall(es, k + 1, due, level);
      }
      if k: nat :| 0 <= k < |es| && FirstFall(es, k, due, level) && Addresses(es[k], id) {
        assert forall j | 0 <= j < k - 1 :: later[j] == es[j + 1];
        assert FirstFall(later, k - 1, due, level);
      }
    }
  }

  /**
   The exact mails about a level of an unpaid installment over any complete runs, with payments of other
   installments: one when the level was not logged before and the first run that falls on it finds an
   address; otherwise none.
   */
  lemma {:induction false} MailedExactly(s: State, es: seq<Event>, id: nat, due: int, level: Level)
    requires Unpaid(s, id, due) && Complete(s, es, id)
    ensures var t := Task(id, level);
      MailsOf(After(s, es).sent, t) ==
        MailsOf(s.sent, t) + if t !in s.logged && FirstFallIsAddressed(es, id, due, level) then 1 else 0
    decreases |es|
  {
    hide Next, Unpaid, FallsOn, Tasks, MailsOf, FirstFallIsAddressed;
    var t := Task(id, level);
    if es == [] {
      NoFall(id, due, level);
    } else {
      var m := Next(s, es[0]);
      FirstFallLater(es, id, due, level);
      if es[0].Run? {
        RunLogs(s, es[0], id, due, level);
        RunMails(s, es[0], id, due, level);
        SameUnpaid(s, m, id, due);
      } else {
        PaymentLeaves(s, es[0], id, due);
        PaymentSends(s, es[0]);
        NoRunNoFall(es[0], due, level);
      }
      MailedExactly(m, es[1..], id, due, level);
    }
  }

  lemma NoFall(id: nat, due: int, level: Level)
    ensures !FirstFallIsAddressed([], id, due, level)
  {
  }

  lemma PaymentSends(s: State, e: Event)
    requires e.Pay?
    ensures Next(s, e).sent == s.sent
  {
  }

  /** With an address, a run mails about a level that is new exactly when it falls on it and no earlier run did. */
  lemma RunMailsFirstFall(s: State, es: seq<Event>, e: Event, id: nat, due: int, level: Level)
    requires Unpaid(s, id, due) && Complete(s, es, id) && Task(id, level) !in s.logged
    requires Addresses(e, id)
    requires |Tasks(After(s, es).installments, e.offsets, e.today)| <= e.finished
    ensures var before, t := After(s, es), Task(id, level);
      MailsOf(Next(before, e).sent, t) == MailsOf(before.sent, t) +
        if FallsOn(e, due, level) && !exists k :: 0 <= k < |es| && FallsOn(es[k], due, level) then 1 else 0
  {
    LoggedExactly(s, es, id, due, level);
    hide Next, Unpaid, FallsOn, Tasks, MailsOf, After, Complete;
    RunMails(After(s, es), e, id, due, level);
  }

  /** Runs so far at one list of offsets, all before today, and one on every day since the smallest offset's. */
  predicate DailyBefore(es: seq<Event>, offsets: seq<int>, due: int, today: int)
    requires offsets != []
  {
    && (forall k | 0 <= k < |es| && es[k].Run? :: es[k].offsets == offsets && es[k].today < today)
    && forall day | due + Smallest(offsets) <= day < today :: RunsOn(es, offsets, day)
  }

  /** No smaller offset is before the due date too. */
  predicate FirstOfLevel(offsets: seq<int>, o: nat)
    requires o < |offsets|
  {
    offsets[o] >= 0 || forall p | 0 <= p < |offsets| :: offsets[o] <= offsets[p]
  }

  lemma FallsBefore(es: seq<Event>, offsets: seq<int>, due: int, o: nat)
    requires o < |offsets| && DailyBefore(es, offsets, due, due + offsets[o])
    ensures (exists k :: 0 <= k < |es| && FallsOn(es[k], due, BuildLevel(offsets[o]))) <==> !FirstOfLevel(offsets, o)
  {
    if !FirstOfLevel(offsets, o) {
      var p :| 0 <= p < |offsets| && offsets[p] < offsets[o];
      WithinExtremes(offsets, p);
      assert RunsOn(es, offsets, due + offsets[p]);
      var k :| 0 <= k < |es| && es[k].Run? && es[k].offsets == offsets && es[k].today == due + offsets[p];
      assert FallsOn(es[k], due, BuildLevel(offsets[o]));
    }
  }

  /**
   With one list of offsets, a run every day and an address, the run of an offset's own day sends a mail
   of the offset's level exactly when the offset is not before the due date, or is the smallest of all:
   of the offsets before the due date only the first is ever mailed.
   */
  lemma OffsetIsMailed(s: State, es: seq<Event>, offsets: seq<int>, o: nat, id: nat, due: int, addressed: set<nat>,
    finished: nat, lost: bool)
    requires o < |offsets| && Unpaid(s, id, due) && Complete(s, es, id)
    requires Task(id, BuildLevel(offsets[o])) !in s.logged && id in addressed
    requires DailyBefore(es, offsets, due, due + offsets[o])
    requires |Tasks(After(s, es).installments, offsets, due + offsets[o])| <= finished
    ensures var t, before := Task(id, BuildLevel(offsets[o])), After(s, es);
      MailsOf(Next(before, Run(offsets, addressed, due + offsets[o], finished, lost)).sent, t) ==
        MailsOf(before.sent, t) + if FirstOfLevel(offsets, o) then 1 else 0
  {
    var e, level := Run(offsets, addressed, due + offsets[o], finished, lost), BuildLevel(offsets[o]);
    assert FallsOn(e, due, level);
    FallsBefore(es, offsets, due, o);
    hide Next, Unpaid, FallsOn, Tasks, MailsOf, After, Complete, DailyBefore, FirstOfLevel, BuildLevel;
    RunMailsFirstFall(s, es, e, id, due, level);
  }

  /**
   Two offsets before the due date share a level: after a complete run on the day of the one, no run
   ever, on the day of the other or any other, mails about that level again.
   */
  lemma SecondUpcomingIsNotSent(s: State, e: Event, later: seq<Event>, id: nat, due: int, early: nat, late: nat)
    requires Unpaid(s, id, due) && e.Run? && |Tasks(s.installments, e.offsets, e.today)| <= e.finished
    requires early < |e.offsets| && late < |e.offsets| && e.offsets[early] < e.offsets[late] < 0 &&
      e.today == due + e.offsets[early]
    ensures BuildLevel(e.offsets[early]) == BuildLevel(e.offsets[late]) == Upcoming
    ensures MailsOf(After(Next(s, e), later).sent, Task(id, BuildLevel(e.offsets[late])))
      == MailsOf(Next(s, e).sent, Task(id, BuildLevel(e.offsets[late])))
  {
    assert BuildLevel(e.offsets[early]) == Upcoming && BuildLevel(e.offsets[late]) == Upcoming;
    RunLogs(s, e, id, due, Upcoming);
    assert FallsOn(e, due, Upcoming);
    hide Next, After, MailsOf, Unpaid, Tasks;
    LoggedIsNotMailedAgain(Next(s, e), later, Task(id, Upcoming));
  }
}
