/** The debounce coalescer: `debouncedUpdateTransform` and
    `debouncedUpdateComponentProperty` share one table from key to pending
    timer. Scheduling under a key cancels the timer already there; a timer
    that fires runs its write and deletes its key. */
module Debounce {
  import opened Base
  import opened Protocol
  import opened State
  import Writes

  /** Schedule `a` under its key: the timer already pending for that key, if
      any, is cancelled, and the key now names a fresh timer due in 300 ms
      that runs `a`. Every other key keeps its timer; nothing is sent. */
  function Schedule(s: Session, a: Action): (o: Outcome)
    ensures LiveFor(o.next, KeyOf(a), a)
    ensures o.next.timers[o.next.debounce[KeyOf(a)]].due == s.now + DebounceMs
    ensures forall k | k in s.debounce && k != KeyOf(a) :: k in o.next.debounce && o.next.debounce[k] == s.debounce[k]
    ensures o.next.debounce.Keys == s.debounce.Keys + {KeyOf(a)}
    ensures o.next == s.(debounce := o.next.debounce, timers := o.next.timers, nextTimer := o.next.nextTimer)
    ensures o.sent == [] && o.effects == []
  {
    var k := KeyOf(a);
    var s1 := if k in s.debounce then ClearTimer(s, s.debounce[k]) else s;
    var (s2, id) := SetTimer(s1, DebounceMs, Debounced(k, a));
    Quiet(s2.(debounce := s2.debounce[k := id]))
  }

  /** The session with key `k` withdrawn: its pending timer cancelled and
      its table entry removed. */
  function Withdraw(s: Session, k: string): (c: Session)
    ensures k !in c.debounce
    ensures forall j | j in c.timers :: j in s.timers && c.timers[j] == s.timers[j]
  {
    var s1 := if k in s.debounce then ClearTimer(s, s.debounce[k]) else s;
    s1.(debounce := s.debounce - {k})
  }

  lemma WithdrawKeepsWf(s: Session, k: string)
    requires Wf(s)
    ensures var c := Withdraw(s, k);
      && Wf(c)
      && (forall j | j in c.timers && c.timers[j].task.Debounced? :: c.timers[j].task.key != k)
      && (k in s.debounce ==> s.debounce[k] !in c.timers)
      && (forall j | j in s.timers && !(s.timers[j].task.Debounced? && s.timers[j].task.key == k) ::
            j in c.timers)
  {
  }

  /** Scheduling is withdrawing the key and then arming a fresh timer under it. */
  lemma ScheduleIsWithdrawThenArm(s: Session, a: Action)
    ensures var c := Withdraw(s, KeyOf(a));
      Schedule(s, a).next == c.(timers := c.timers[c.nextTimer := Timer(s.now + DebounceMs, Debounced(KeyOf(a), a))],
                                nextTimer := c.nextTimer + 1,
                                debounce := c.debounce[KeyOf(a) := c.nextTimer])
  {
  }

  lemma ArmKeepsWf(c: Session, a: Action, due: int)
    requires Wf(c)
    requires KeyOf(a) !in c.debounce
    ensures var t := c.(timers := c.timers[c.nextTimer := Timer(due, Debounced(KeyOf(a), a))],
                        nextTimer := c.nextTimer + 1,
                        debounce := c.debounce[KeyOf(a) := c.nextTimer]);
      Wf(t)
  {
  }

  /** Scheduling adds exactly one timer, the new one, and otherwise only
      removes: every other timer afterwards was pending before, unchanged. */
  lemma ScheduleTimers(s: Session, a: Action)
    ensures var t := Schedule(s, a).next;
      && t.debounce[KeyOf(a)] == s.nextTimer
      && t.timers[s.nextTimer] == Timer(s.now + DebounceMs, Debounced(KeyOf(a), a))
      && forall j | j in t.timers && j != s.nextTimer :: j in s.timers && t.timers[j] == s.timers[j]
  {
    ScheduleIsWithdrawThenArm(s, a);
  }

  /** Scheduling keeps the invariant: the superseded timer is gone, the key
      has exactly one pending timer and it runs the new action, and the
      timers of every other key are untouched. */
  lemma ScheduleKeepsWf(s: Session, a: Action)
    requires Wf(s)
    ensures var t := Schedule(s, a).next;
      && Wf(t)
      && NoNewGrace(s, t)
      && (KeyOf(a) in s.debounce ==> s.debounce[KeyOf(a)] !in t.timers)
      && (forall id | id in t.timers && t.timers[id].task.Debounced? && t.timers[id].task.key == KeyOf(a) ::
            id == t.debounce[KeyOf(a)] && t.timers[id].task.action == a)
      && (forall id | id in s.timers && s.timers[id].task.Debounced? && s.timers[id].task.key != KeyOf(a) ::
            id in t.timers && t.timers[id] == s.timers[id])
  {
    var k := KeyOf(a);
    WithdrawKeepsWf(s, k);
    ScheduleIsWithdrawThenArm(s, a);
    var c := Withdraw(s, k);
    ArmKeepsWf(c, a, s.now + DebounceMs);
  }

  /** A pending debounce timer fires: its write runs (gated as usual) and
      its key leaves the table. */
  function FireDebounced(s: Session, id: TimerId): (o: Outcome)
    requires id in s.timers && s.timers[id].task.Debounced?
    ensures var t := s.timers[id].task;
      && o.effects == [ActionRan(t.key, t.action)]
      && o.sent == Writes.RunAction(s, t.action).sent
      && id !in o.next.timers
      && t.key !in o.next.debounce
      && o.next == s.(timers := s.timers - {id}, debounce := s.debounce - {t.key})
    ensures !s.enginePaused ==> o.sent == []
    ensures Wf(s) ==> Wf(o.next) && NoNewGrace(s, o.next)
  {
    var t := s.timers[id].task;
    var s1 := ClearTimer(s, id);
    var w := Writes.RunAction(s1, t.action);
    Outcome(w.next.(debounce := w.next.debounce - {t.key}), w.sent, [ActionRan(t.key, t.action)] + w.effects)
  }
}
