/** The Win32 port (os_cpu_c.c) as a protocol between threads. Every task has a thread of its own; a context switch is a
    hand-over between threads through events, and the tick interrupt is a thread that freezes the current task's thread.
    A step below is what a thread does between two points where another thread may run; the critical section excludes,
    events reset themselves when a wait ends, and a frozen thread takes no step.
  */
module Port {

  type Tid = nat

  /** OS_TASK.TaskState. */
  datatype TaskState = CREATED | RUNNING | SUSPENDED | INTERRUPTED

  /** Where the thread of a task is. */
  datatype Pc =
    | NotStarted        // created suspended
    | BootWait          // OSTaskW32, waiting for its signal
    | BootSignal        // OSTaskW32, about to set the init signal
    | InTask            // task-level code
    | InKernel          // holds the critical section
    | InitWait(h: Tid)  // OSCtxSw, holding the critical section until the new thread h has started
    | SwitchTail        // OSCtxSw, about to leave the critical section
    | SignalWait        // OSCtxSw, waiting for its signal
    | Reenter           // OSCtxSw, about to enter the critical section again

  datatype Thread = Thread(state: TaskState, pc: Pc, signal: bool, initSignal: bool, frozen: bool)

  /** Where the tick thread (OSTickW32) is. */
  datatype TickPc = TickIdle | TickEntered | TickIsr | TickResume | TickInitWait(h: Tid) | TickTail

  datatype Owner = Nobody | TaskThread(t: Tid) | TickThread

  datatype Sys = Sys(thread: map<Tid, Thread>, tick: TickPc, cs: Owner, cur: Tid, high: Tid)

  const NO_THREAD := Thread(CREATED, NotStarted, false, false, true)

  function Th(s: Sys, t: Tid): Thread {
    if t in s.thread then s.thread[t] else NO_THREAD
  }

  function Set(s: Sys, t: Tid, th: Thread): Sys {
    s.(thread := s.thread[t := th])
  }

  datatype Action =
    | Enter(t: Tid) | Leave(t: Tid) | Create(t: Tid, n: Tid) | Switch(t: Tid, h: Tid)
    | InitDone(t: Tid) | LeaveSwitch(t: Tid) | Wake(t: Tid) | EnterAgain(t: Tid)
    | BootStart(t: Tid) | BootRun(t: Tid) | BootDone(t: Tid)
    | Tick | TickSuspend | TickInterrupt(h: Tid) | TickHandOver | TickInitDone | TickLeave

  predicate Enabled(s: Sys, a: Action) {
    match a
    case Enter(t) => t in s.thread && Th(s, t).pc == InTask && !Th(s, t).frozen && s.cs == Nobody
    case Leave(t) => t in s.thread && Th(s, t).pc == InKernel && s.cs == TaskThread(t)
    case Create(t, n) => t in s.thread && Th(s, t).pc == InKernel && s.cs == TaskThread(t) && n !in s.thread
    case Switch(t, h) =>
      t in s.thread && Th(s, t).pc == InKernel && s.cs == TaskThread(t) && h in s.thread && h != s.cur && s.cur in s.thread
    case InitDone(t) =>
      t in s.thread && Th(s, t).pc.InitWait? && Th(s, t).pc.h in s.thread && Th(s, Th(s, t).pc.h).initSignal
    case LeaveSwitch(t) => t in s.thread && Th(s, t).pc == SwitchTail && s.cs == TaskThread(t)
    case Wake(t) => t in s.thread && Th(s, t).pc == SignalWait && Th(s, t).signal && !Th(s, t).frozen
    case EnterAgain(t) => t in s.thread && Th(s, t).pc == Reenter && !Th(s, t).frozen && s.cs == Nobody
    case BootStart(t) => t in s.thread && Th(s, t).pc == NotStarted && !Th(s, t).frozen
    case BootRun(t) => t in s.thread && Th(s, t).pc == BootWait && Th(s, t).signal && !Th(s, t).frozen
    case BootDone(t) => t in s.thread && Th(s, t).pc == BootSignal && !Th(s, t).frozen
    case Tick => s.tick == TickIdle && s.cs == Nobody
    case TickSuspend => s.tick == TickEntered && s.cur in s.thread
    case TickInterrupt(h) => s.tick == TickIsr && h in s.thread
    case TickHandOver => s.tick == TickResume && s.high in s.thread
    case TickInitDone => s.tick.TickInitWait? && s.tick.h in s.thread && Th(s, s.tick.h).initSignal
    case TickLeave => s.tick == TickTail
  }

  /** The state of the task h is made to run by thread `by`: the switch in OSCtxSw and in OSIntCurTaskResume. */
  function HandTo(s: Sys, h: Tid): Sys {
    var th := Th(s, h);
    match th.state
    case CREATED => Set(s, h, th.(frozen := false, signal := true))
    case SUSPENDED => Set(s, h, th.(state := RUNNING, signal := true))
    case INTERRUPTED => Set(s, h, th.(state := RUNNING, frozen := false))
    case RUNNING => s
  }

  function Do(s: Sys, a: Action): Sys
    requires Enabled(s, a)
  {
    match a
    case Enter(t) => Set(s, t, Th(s, t).(pc := InKernel)).(cs := TaskThread(t))
    case Leave(t) => Set(s, t, Th(s, t).(pc := InTask)).(cs := Nobody)
    case Create(t, n) => Set(s, n, NO_THREAD)
    case Switch(t, h) =>
      // OSCtxSw: OSTCBCurPtr moves on before the states change; the state is that of the task that was current.
      var old' := s.cur;
      var s1 := s.(cur := h, high := h);
      var s2 := if Th(s1, old').state == RUNNING then Set(s1, old', Th(s1, old').(state := SUSPENDED)) else s1;
      if Th(s2, h).state == RUNNING then s2
      else
        var s3 := HandTo(s2, h);
        Set(s3, t, Th(s3, t).(pc := if Th(s2, h).state == CREATED then InitWait(h) else SwitchTail))
    case InitDone(t) =>
      var h := Th(s, t).pc.h;
      var s1 := Set(s, h, Th(s, h).(initSignal := false));
      Set(s1, t, Th(s1, t).(pc := SwitchTail))
    case LeaveSwitch(t) => Set(s, t, Th(s, t).(pc := SignalWait)).(cs := Nobody)
    case Wake(t) => Set(s, t, Th(s, t).(pc := Reenter, signal := false))
    case EnterAgain(t) => Set(s, t, Th(s, t).(pc := InKernel)).(cs := TaskThread(t))
    case BootStart(t) => Set(s, t, Th(s, t).(pc := BootWait, state := SUSPENDED))
    case BootRun(t) => Set(s, t, Th(s, t).(pc := BootSignal, state := RUNNING, signal := false))
    case BootDone(t) => Set(s, t, Th(s, t).(pc := InTask, initSignal := true))
    case Tick => s.(tick := TickEntered, cs := TickThread)
    case TickSuspend =>
      if Th(s, s.cur).state == RUNNING
      then Set(s, s.cur, Th(s, s.cur).(state := INTERRUPTED, frozen := true)).(tick := TickIsr)
      else s.(tick := TickTail)
    case TickInterrupt(h) => s.(cur := h, high := h, tick := TickResume)
    case TickHandOver =>
      var s1 := HandTo(s, s.high);
      s1.(tick := if Th(s, s.high).state == CREATED then TickInitWait(s.high) else TickTail)
    case TickInitDone =>
      Set(s, s.tick.h, Th(s, s.tick.h).(initSignal := false)).(tick := TickTail)
    case TickLeave => s.(tick := TickIdle, cs := Nobody)
  }

  // --------------------------------------------------------------------------------------- invariant

  /** The task whose thread is being started, if one is. */
  predicate Starting(s: Sys, h: Tid) {
    (s.cs.TaskThread? && Th(s, s.cs.t).pc == InitWait(h)) || s.tick == TickInitWait(h)
  }

  /** What TaskState says about the thread of t. */
  predicate ThreadOk(s: Sys, t: Tid) {
    var th := Th(s, t);
    match th.state
    case CREATED =>
      th.pc == NotStarted && !th.initSignal && (if Starting(s, t) then !th.frozen && th.signal else th.frozen && !th.signal)
    case SUSPENDED =>
      && !th.frozen && !th.initSignal
      && if Starting(s, t) then th.pc == BootWait && th.signal
         else !th.signal && (th.pc == SignalWait || (s.cs == TaskThread(t) && (th.pc == SwitchTail || th.pc.InitWait?)))
    case INTERRUPTED =>
      && th.frozen && !th.initSignal && !Starting(s, t)
      && (th.pc == InTask || th.pc == Reenter || th.pc == SignalWait) && (th.signal <==> th.pc == SignalWait)
    case RUNNING =>
      && !th.frozen && t == s.cur
      && (if Starting(s, t) then th.pc == BootSignal || th.pc == InTask
          else th.pc == InTask || th.pc == Reenter || th.pc == SignalWait || (th.pc == InKernel && s.cs == TaskThread(t)))
      && (th.signal <==> th.pc == SignalWait) && (th.initSignal <==> Starting(s, t) && th.pc == InTask)
  }

  /** Who holds the critical section, and what is true of the current task then. */
  predicate OwnerOk(s: Sys) {
    && s.cur == s.high && s.cur in s.thread
    && match s.cs
      case Nobody => s.tick == TickIdle && Th(s, s.cur).state == RUNNING
      case TaskThread(t) =>
        && s.tick == TickIdle && t in s.thread
        && (match Th(s, t).pc
          case InKernel => t == s.cur && Th(s, t).state == RUNNING
          case SwitchTail => t != s.cur && Th(s, t).state == SUSPENDED && Th(s, s.cur).state == RUNNING
          case InitWait(h) => t != h && h == s.cur && Th(s, t).state == SUSPENDED && Th(s, h).state != INTERRUPTED
          case _ => false)
      case TickThread =>
        (match s.tick
          case TickIdle => false
          case TickEntered => Th(s, s.cur).state == RUNNING
          case TickIsr => Th(s, s.cur).state == INTERRUPTED
          case TickResume => Th(s, s.cur).state != RUNNING
          case TickInitWait(h) => h == s.cur && Th(s, h).state != INTERRUPTED
          case TickTail => Th(s, s.cur).state == RUNNING)
  }

  ghost predicate Inv(s: Sys) {
    OwnerOk(s) && forall t: Tid :: ThreadOk(s, t)
  }

  predicate SwitchAction(a: Action) {
    a.Switch? || a.InitDone? || a.LeaveSwitch?
  }

  predicate BootAction(a: Action) {
    a.BootStart? || a.BootRun? || a.BootDone?
  }

  predicate TickAction(a: Action) {
    a.Tick? || a.TickSuspend? || a.TickInterrupt? || a.TickHandOver? || a.TickInitDone? || a.TickLeave?
  }

  lemma SwitchOwner(s: Sys, a: Action)
    requires Inv(s) && Enabled(s, a) && SwitchAction(a)
    ensures OwnerOk(Do(s, a))
  {
    assert ThreadOk(s, s.cur) && ThreadOk(s, a.t);
    match a
    case Switch(t, h) => assert ThreadOk(s, h);
    case InitDone(t) => assert ThreadOk(s, Th(s, t).pc.h);
    case LeaveSwitch(t) =>
  }

  lemma SwitchThread(s: Sys, a: Action, x: Tid)
    requires Inv(s) && Enabled(s, a) && SwitchAction(a)
    ensures ThreadOk(Do(s, a), x)
  {
    if a.Switch? {
      HandOverThread(s, a, x);
    } else {
      assert ThreadOk(s, s.cur) && ThreadOk(s, x) && ThreadOk(s, a.t);
      if a.InitDone? {
        assert ThreadOk(s, Th(s, a.t).pc.h);
      }
    }
  }

  lemma HandOverThread(s: Sys, a: Action, x: Tid)
    requires Inv(s) && Enabled(s, a) && a.Switch?
    ensures ThreadOk(Do(s, a), x)
  {
    assert ThreadOk(s, s.cur) && ThreadOk(s, x) && ThreadOk(s, a.t) && ThreadOk(s, a.h);
  }

  lemma TickOwner(s: Sys, a: Action)
    requires Inv(s) && Enabled(s, a) && TickAction(a)
    ensures OwnerOk(Do(s, a))
  {
    assert ThreadOk(s, s.cur);
    match a
    case TickInterrupt(h) => assert ThreadOk(s, h);
    case TickInitDone => assert ThreadOk(s, s.tick.h);
    case _ =>
  }

  lemma TickOther(s: Sys, a: Action, x: Tid)
    requires Inv(s) && Enabled(s, a) && TickAction(a)
    ensures ThreadOk(Do(s, a), x)
  {
    assert ThreadOk(s, s.cur) && ThreadOk(s, x);
    match a
    case TickInterrupt(h) => assert ThreadOk(s, h);
    case TickInitDone => assert ThreadOk(s, s.tick.h);
    case _ =>
  }

  lemma BootOwner(s: Sys, a: Action)
    requires Inv(s) && Enabled(s, a) && BootAction(a)
    ensures OwnerOk(Do(s, a))
  {
    assert ThreadOk(s, s.cur) && ThreadOk(s, a.t);
  }

  lemma BootThread(s: Sys, a: Action, x: Tid)
    requires Inv(s) && Enabled(s, a) && BootAction(a)
    ensures ThreadOk(Do(s, a), x)
  {
    assert ThreadOk(s, s.cur) && ThreadOk(s, x) && ThreadOk(s, a.t);
  }

  lemma PlainOwner(s: Sys, a: Action)
    requires Inv(s) && Enabled(s, a) && !SwitchAction(a) && !BootAction(a) && !TickAction(a)
    ensures OwnerOk(Do(s, a))
  {
    assert ThreadOk(s, s.cur) && ThreadOk(s, a.t);
  }

  lemma PlainThread(s: Sys, a: Action, x: Tid)
    requires Inv(s) && Enabled(s, a) && !SwitchAction(a) && !BootAction(a) && !TickAction(a)
    ensures ThreadOk(Do(s, a), x)
  {
    assert ThreadOk(s, s.cur) && ThreadOk(s, x) && ThreadOk(s, a.t);
  }

  /** Every step of every thread keeps the protocol's invariant. */
  lemma StepKeeps(s: Sys, a: Action)
    requires Inv(s) && Enabled(s, a)
    ensures Inv(Do(s, a))
  {
    hide OwnerOk, ThreadOk, Do;
    if SwitchAction(a) {
      SwitchOwner(s, a);
      forall x: Tid { SwitchThread(s, a, x); }
    } else if BootAction(a) {
      BootOwner(s, a);
      forall x: Tid { BootThread(s, a, x); }
    } else if TickAction(a) {
      TickOwner(s, a);
      forall x: Tid { TickOther(s, a, x); }
    } else {
      PlainOwner(s, a);
      forall x: Tid { PlainThread(s, a, x); }
    }
  }

  // ------------------------------------------------------------------------------ what it guarantees

  /** The threads interleave in any order. */
  ghost predicate Reaches(s: Sys, steps: seq<Action>, s': Sys)
    decreases |steps|
  {
    if steps == [] then s' == s else Enabled(s, steps[0]) && Reaches(Do(s, steps[0]), steps[1..], s')
  }

  lemma {:induction false} InvAlways(s: Sys, steps: seq<Action>, s': Sys)
    requires Inv(s) && Reaches(s, steps, s')
    ensures Inv(s')
    decreases |steps|
  {
    hide Inv, Do;
    if steps != [] {
      StepKeeps(s, steps[0]);
      InvAlways(Do(s, steps[0]), steps[1..], s');
    }
  }

  /** The thread of t can take a step at task level: in the task's own code, or in the kernel on its behalf. */
  predicate AtTaskLevel(s: Sys, t: Tid) {
    t in s.thread && !Th(s, t).frozen && (Th(s, t).pc == InTask || Th(s, t).pc == InKernel || Th(s, t).pc == Reenter)
  }

  /** OSStartHighRdy has started the first task; the others have not run yet. */
  function Started(first: Tid, others: set<Tid>): Sys {
    Sys((map t | t in others :: NO_THREAD)[first := Thread(RUNNING, InTask, false, false, false)], TickIdle, Nobody, first, first)
  }

  lemma StartedOk(first: Tid, others: set<Tid>)
    ensures Inv(Started(first, others))
  {
  }

  /** In every interleaving of task threads and the tick thread at most one thread is at task level, it is that of the
      current task, and there is none while the tick interrupt is served. */
  lemma OneTaskAtATime(first: Tid, others: set<Tid>, steps: seq<Action>, s: Sys, t: Tid)
    requires Reaches(Started(first, others), steps, s) && AtTaskLevel(s, t)
    ensures t == s.cur && s.tick != TickIsr && s.tick != TickResume
  {
    StartedOk(first, others);
    InvAlways(Started(first, others), steps, s);
    assert ThreadOk(s, t);
  }

  /** Whenever the critical section is free, exactly the current task is RUNNING, and it is the one the scheduler chose
      last; OSIntCurTaskResume relies on this when OSIntExit returned early. */
  lemma FreeMeansCurrentRuns(first: Tid, others: set<Tid>, steps: seq<Action>, s: Sys, t: Tid)
    requires Reaches(Started(first, others), steps, s) && s.cs == Nobody
    ensures s.cur == s.high && (Th(s, t).state == RUNNING <==> t == s.cur)
  {
    StartedOk(first, others);
    InvAlways(Started(first, others), steps, s);
    assert ThreadOk(s, t);
  }

  /** No wake-up is lost: a task that was made RUNNING while its thread waits has its signal set, and a task that was
      not has none pending. */
  lemma NoWakeUpLost(first: Tid, others: set<Tid>, steps: seq<Action>, s: Sys, t: Tid)
    requires Reaches(Started(first, others), steps, s) && Th(s, t).pc == SignalWait
    ensures Th(s, t).signal <==> Th(s, t).state != SUSPENDED
    ensures Th(s, t).state == RUNNING ==> Enabled(s, Wake(t))
  {
    StartedOk(first, others);
    InvAlways(Started(first, others), steps, s);
    assert ThreadOk(s, t);
  }

  /** The step that keeps the system going: of the thread in the critical section, of the thread that it waits for, or,
      if the section is free, of the current task. */
  function NextStep(s: Sys): Action {
    match s.cs
    case Nobody =>
      (match Th(s, s.cur).pc
        case SignalWait => Wake(s.cur)
        case Reenter => EnterAgain(s.cur)
        case _ => Enter(s.cur))
    case TaskThread(t) =>
      (match Th(s, t).pc
        case InKernel => Leave(t)
        case InitWait(h) => if Th(s, h).initSignal then InitDone(t) else Boot(s, h)
        case _ => LeaveSwitch(t))
    case TickThread =>
      match s.tick
      case TickEntered => TickSuspend
      case TickIsr => TickInterrupt(s.cur)
      case TickResume => TickHandOver
      case TickInitWait(h) => if Th(s, h).initSignal then TickInitDone else Boot(s, h)
      case _ => TickLeave
  }

  function Boot(s: Sys, h: Tid): Action {
    match Th(s, h).pc
    case NotStarted => BootStart(h)
    case BootWait => BootRun(h)
    case _ => BootDone(h)
  }

  /** The hand-over never gets stuck. */
  lemma AlwaysAStep(first: Tid, others: set<Tid>, steps: seq<Action>, s: Sys)
    requires Reaches(Started(first, others), steps, s)
    ensures Enabled(s, NextStep(s))
  {
    StartedOk(first, others);
    InvAlways(Started(first, others), steps, s);
    assert ThreadOk(s, s.cur);
  }

  /** How many such steps are left until the critical section is free. */
  function StepsToFree(s: Sys): nat {
    match s.cs
    case Nobody => 0
    case TaskThread(t) =>
      (match Th(s, t).pc
        case InitWait(h) => 2 + BootLeft(s, h)
        case _ => 1)
    case TickThread =>
      match s.tick
      case TickEntered => 8
      case TickIsr => 7
      case TickResume => 6
      case TickInitWait(h) => 2 + BootLeft(s, h)
      case _ => 1
  }

  function BootLeft(s: Sys, h: Tid): nat {
    if Th(s, h).initSignal then 0
    else match Th(s, h).pc
      case NotStarted => 3
      case BootWait => 2
      case _ => 1
  }

  /** The critical section is left after a bounded number of these steps, so that the tick is never shut out for good and
      a hand-over always completes. */
  lemma SectionIsLeft(s: Sys)
    requires Inv(s) && s.cs != Nobody
    ensures Enabled(s, NextStep(s)) && StepsToFree(Do(s, NextStep(s))) < StepsToFree(s)
  {
    assert ThreadOk(s, s.cur);
  }
}
