/** What the editing flag guarantees over whole traces: it is set only by
    focus and cleared only by a due grace timer; after a focus it holds for
    as long as no input loses focus, provided the only pending grace timer
    is the recorded one; and a grace timer whose handle was overwritten by
    a second blur can no longer be cancelled. */
module EditingFacts {
  import opened Base
  import opened Protocol
  import opened State
  import Debounce
  import opened Engine
  import Invariant

  /** No grace timer is pending. */
  ghost predicate NoGracePending(s: Session) {
    forall id | id in s.timers :: !s.timers[id].task.GraceClear?
  }

  /** Every pending grace timer is the one `editTimeout` records, so the
      next focus can cancel it. */
  ghost predicate GraceControlled(s: Session) {
    forall id | id in s.timers && s.timers[id].task.GraceClear? :: s.editTimeout == Some(id)
  }

  /** The flag changes in two ways only: a focus sets it, and a due grace
      timer clears it. */
  lemma StepEditingFlag(s: Session, e: Event)
    ensures var t := Step(s, e).next;
      && (e == Focus ==> t.isEditing)
      && (t.isEditing != s.isEditing ==>
            || e == Focus
            || (e.Fire? && e.timer in s.timers && s.timers[e.timer].task.GraceClear?
                && s.timers[e.timer].due <= s.now && !t.isEditing))
  {
  }

  /** Only a blur creates a grace timer. */
  lemma StepNoNewGrace(s: Session, e: Event)
    requires Wf(s) && e != Blur
    ensures NoNewGrace(s, Step(s, e).next)
  {
    match e
    case TransformInput(actor, part, axis, coord) =>
      Debounce.ScheduleKeepsWf(s, TransformEdit(actor, part, axis, coord));
    case ComponentInput(component, property, value) =>
      Debounce.ScheduleKeepsWf(s, ComponentEdit(component, property, value));
    case _ =>
  }

  /** With no grace timer pending and no blur, the flag stays set. */
  lemma {:induction false} NoGraceKeepsEditing(s: Session, es: seq<Event>)
    requires Wf(s) && NoGracePending(s) && s.isEditing
    requires forall i | 0 <= i < |es| :: es[i] != Blur
    ensures Run(s, es).final.isEditing
    decreases |es|
  {
    if es != [] {
      var t := Step(s, es[0]).next;
      StepNoNewGrace(s, es[0]);
      StepEditingFlag(s, es[0]);
      Invariant.StepKeepsWf(s, es[0]);
      assert forall i | 0 <= i < |es[1..]| :: es[1..][i] == es[i + 1];
      NoGraceKeepsEditing(t, es[1..]);
    }
  }

  /** A focus holds until the next blur, when the only grace timer pending
      is the one `editTimeout` records: the focus cancels it. */
  lemma FocusHoldsWithoutBlur(s: Session, es: seq<Event>)
    requires Wf(s) && GraceControlled(s)
    requires forall i | 0 <= i < |es| :: es[i] != Blur
    ensures Run(s, [Focus] + es).final.isEditing
  {
    var t := Step(s, Focus).next;
    Invariant.StepKeepsWf(s, Focus);
    assert NoGracePending(t);
    assert ([Focus] + es)[1..] == es;
    NoGraceKeepsEditing(t, es);
  }

  /** One blur from a session without grace timers leaves exactly the
      recorded one pending, so control is kept. */
  lemma SingleBlurIsControlled(s: Session)
    requires Wf(s) && NoGracePending(s)
    ensures GraceControlled(Step(s, Blur).next)
  {
  }

  lemma StepBlur(s: Session)
    ensures Step(s, Blur).next == s.(editTimeout := Some(s.nextTimer),
                                     timers := s.timers[s.nextTimer := Timer(s.now + GraceMs, GraceClear)],
                                     nextTimer := s.nextTimer + 1)
  {
  }

  lemma StepFocus(s: Session)
    ensures Step(s, Focus).next == s.(isEditing := true,
                                      timers := if s.editTimeout.Some? then s.timers - {s.editTimeout.value} else s.timers)
  {
  }

  lemma StepElapse(s: Session, ms: nat)
    ensures Step(s, Elapse(ms)).next == s.(now := s.now + ms)
  {
  }

  lemma StepFireGrace(s: Session, id: TimerId)
    requires id in s.timers && s.timers[id].task.GraceClear? && s.timers[id].due <= s.now
    ensures !Step(s, Fire(id)).next.isEditing
  {
  }

  /** The sessions two blurs and a focus lead through. */
  function AfterBlurBlurFocus(s: Session): Session {
    Step(Step(Step(s, Blur).next, Blur).next, Focus).next
  }

  lemma BlurBlurFocus(s: Session)
    ensures var t := AfterBlurBlurFocus(s);
      && t.isEditing && t.now == s.now
      && s.nextTimer in t.timers && t.timers[s.nextTimer] == Timer(s.now + GraceMs, GraceClear)
  {
    var s1 := Step(s, Blur).next;
    StepBlur(s);
    StepBlur(s1);
    StepFocus(Step(s1, Blur).next);
  }

  lemma RunBlurBlurFocus(s: Session, es: seq<Event>)
    requires |es| >= 3 && es[0] == Blur && es[1] == Blur && es[2] == Focus
    ensures Run(s, es).final == Run(AfterBlurBlurFocus(s), es[3..]).final
  {
    var s1 := Step(s, Blur).next;
    var s2 := Step(s1, Blur).next;
    RunHead(s, es);
    RunHead(s1, es[1..]);
    assert es[1..][1..] == es[2..];
    RunHead(s2, es[2..]);
    assert es[2..][1..] == es[3..];
  }

  /** The first grace timer, once due, clears the flag. */
  lemma ElapseThenFireGrace(s3: Session, tail: seq<Event>, id: TimerId)
    requires id in s3.timers && s3.timers[id].task.GraceClear? && s3.timers[id].due == s3.now + GraceMs
    requires |tail| == 2 && tail[0] == Elapse(GraceMs) && tail[1] == Fire(id)
    ensures !Run(s3, tail).final.isEditing
  {
    var s4 := Step(s3, Elapse(GraceMs)).next;
    StepElapse(s3, GraceMs);
    StepFireGrace(s4, id);
    RunHead(s3, tail);
    RunHead(s4, tail[1..]);
    assert tail[1..][1..] == [];
  }

  /** Two blurs with no focus between them would overwrite the first grace
      timer's handle: a focus afterwards cancels only the second, and the
      first one, once due, clears the flag although the input still has
      focus. The trace is `Blur, Blur, Focus, Elapse(500), Fire(first grace
      timer)`. The page never produces it (`TwoBlursBreakDiscipline`): the
      handle is only safe to overwrite because a focus always comes between. */
  lemma StaleGraceClearsFlag(s: Session, es: seq<Event>)
    requires |es| == 5
    requires es[0] == Blur && es[1] == Blur && es[2] == Focus
    requires es[3] == Elapse(GraceMs) && es[4] == Fire(s.nextTimer)
    ensures Run(s, es[..3]).final.isEditing
    ensures !Run(s, es).final.isEditing
  {
    BlurBlurFocus(s);
    RunBlurBlurFocus(s, es[..3]);
    assert es[..3][3..] == [];
    RunBlurBlurFocus(s, es);
    ElapseThenFireGrace(AfterBlurBlurFocus(s), es[3..], s.nextTimer);
  }

  // ---------------------------------------------------------------------------
  // The page's focus discipline
  // ---------------------------------------------------------------------------

  /** Whether an input has focus after the event. */
  function FocusedAfter(focused: bool, e: Event): bool {
    if e == Focus then true else if e == Blur then false else focused
  }

  /** The focus discipline of the page: every input wired to `stopEditing`
      on blur is wired to `startEditing` on focus, and an element loses
      focus only after gaining it, so a blur happens only while an input
      has focus. `focused` says whether one has focus before the trace. */
  predicate Alternates(focused: bool, es: seq<Event>)
    decreases |es|
  {
    es == [] || ((es[0] == Blur ==> focused) && Alternates(FocusedAfter(focused, es[0]), es[1..]))
  }

  /** Two blurs in a row, anywhere in a trace, break the discipline. */
  lemma {:induction false} TwoBlursBreakDiscipline(focused: bool, es: seq<Event>, i: nat)
    requires i + 1 < |es| && es[i] == Blur && es[i + 1] == Blur
    ensures !Alternates(focused, es)
    decreases i
  {
    if i == 0 {
      assert es[1..][0] == Blur;
    } else {
      assert es[1..][i - 1] == es[i] && es[1..][i] == es[i + 1];
      TwoBlursBreakDiscipline(FocusedAfter(focused, es[0]), es[1..], i - 1);
    }
  }

  /** Only a blur moves `editTimeout`. */
  lemma StepEditTimeout(s: Session, e: Event)
    requires e != Blur
    ensures Step(s, e).next.editTimeout == s.editTimeout
  {
  }

  /** The invariant, every pending grace timer recorded, and none at all
      while an input has focus. */
  ghost predicate Controlled(s: Session, focused: bool) {
    Wf(s) && GraceControlled(s) && (focused ==> NoGracePending(s))
  }

  /** A focus cancels the only grace timer there can be; a blur, which
      comes only while no grace timer is pending, creates the recorded one;
      every other event creates none and leaves `editTimeout` alone. */
  lemma StepKeepsControlled(s: Session, focused: bool, e: Event)
    requires Controlled(s, focused) && (e == Blur ==> focused)
    ensures Controlled(Step(s, e).next, FocusedAfter(focused, e))
  {
    Invariant.StepKeepsWf(s, e);
    if e == Focus {
      StepFocus(s);
    } else if e == Blur {
      StepBlur(s);
    } else {
      StepNoNewGrace(s, e);
      StepEditTimeout(s, e);
    }
  }

  lemma {:induction false} RunKeepsControlled(s: Session, focused: bool, es: seq<Event>)
    requires Controlled(s, focused) && Alternates(focused, es)
    ensures Wf(Run(s, es).final) && GraceControlled(Run(s, es).final)
    decreases |es|
  {
    if es != [] {
      StepKeepsControlled(s, focused, es[0]);
      RunKeepsControlled(Step(s, es[0]).next, FocusedAfter(focused, es[0]), es[1..]);
    }
  }

  /** In every session the page can reach, every pending grace timer is
      the one `editTimeout` records, so at most one is pending. */
  lemma ReachableGraceControlled(stored: Option<int>, es: seq<Event>)
    requires Alternates(false, es)
    ensures var t := Run(Init(stored), es).final;
      && Wf(t) && GraceControlled(t)
      && forall i, j | i in t.timers && j in t.timers && t.timers[i].task.GraceClear? && t.timers[j].task.GraceClear? :: i == j
  {
    RunKeepsControlled(Init(stored), false, es);
  }

  /** On the page, a focus holds until the next blur: after any trace from
      page load that keeps the focus discipline, a focus followed by any
      events but a blur leaves the editing flag set. */
  lemma FocusHoldsOnPage(stored: Option<int>, pre: seq<Event>, es: seq<Event>)
    requires Alternates(false, pre)
    requires forall i | 0 <= i < |es| :: es[i] != Blur
    ensures Run(Init(stored), pre + ([Focus] + es)).final.isEditing
  {
    ReachableGraceControlled(stored, pre);
    RunAppend(Init(stored), pre, [Focus] + es);
    FocusHoldsWithoutBlur(Run(Init(stored), pre).final, es);
  }
}
