/** The edit session tracker: `startEditing`, `stopEditing` and the grace
    timer that clears the editing flag 500 ms after an input loses focus. */
module Editing {
  import opened Base
  import opened Protocol
  import opened State

  /** `startEditing` (onfocus): the flag is set and the timer recorded in
      `editTimeout` is cancelled; the handle itself is left in place, and
      grace timers scheduled before it stay pending. */
  function StartEditing(s: Session): (o: Outcome)
    ensures o.next.isEditing
    ensures s.editTimeout.Some? ==> s.editTimeout.value !in o.next.timers
    ensures forall id | id in s.timers && Some(id) != s.editTimeout :: id in o.next.timers && o.next.timers[id] == s.timers[id]
    ensures forall id | id in o.next.timers :: id in s.timers
    ensures o.next == s.(isEditing := true, timers := o.next.timers)
    ensures o.sent == [] && o.effects == []
    ensures Wf(s) ==> Wf(o.next) && DebounceFrame(s, o.next) && NoNewGrace(s, o.next)
  {
    var s1 := if s.editTimeout.Some? then ClearTimer(s, s.editTimeout.value) else s;
    Quiet(s1.(isEditing := true))
  }

  /** `stopEditing` (onblur): the flag stays as it is for now; a grace timer
      due 500 ms from now is scheduled and recorded in `editTimeout`,
      overwriting the previous handle without cancelling its timer. */
  function StopEditing(s: Session): (o: Outcome)
    ensures o.next.isEditing == s.isEditing
    ensures o.next.editTimeout == Some(s.nextTimer)
    ensures o.next.timers == s.timers[s.nextTimer := Timer(s.now + GraceMs, GraceClear)]
    ensures o.next == s.(editTimeout := o.next.editTimeout, timers := o.next.timers, nextTimer := s.nextTimer + 1)
    ensures o.sent == [] && o.effects == []
    ensures Wf(s) ==> s.nextTimer !in s.timers && Wf(o.next) && DebounceFrame(s, o.next)
  {
    var (s1, id) := SetTimer(s, GraceMs, GraceClear);
    Quiet(s1.(editTimeout := Some(id)))
  }

  /** The grace timer's callback: the flag is cleared, whichever blur
      scheduled the timer. */
  function GraceExpired(s: Session, id: TimerId): (o: Outcome)
    requires id in s.timers && s.timers[id].task.GraceClear?
    ensures !o.next.isEditing
    ensures id !in o.next.timers
    ensures o.next == s.(isEditing := false, timers := s.timers - {id})
    ensures o.sent == [] && o.effects == []
    ensures Wf(s) ==> Wf(o.next) && DebounceFrame(s, o.next) && NoNewGrace(s, o.next)
  {
    Quiet(ClearTimer(s, id).(isEditing := false))
  }
}
