/** The write gate `enginePaused`: `checkEngineStatus` sets it from the
    engine, and `toggleEnginePause` flips it when the engine acknowledges a
    pause or resume. Writes are only allowed while the engine is paused. */
module Gate {
  import opened Base
  import opened Protocol
  import opened State

  /** The pause button: `/engine/resume` when the inspector believes the
      engine paused, `/engine/pause` otherwise. Nothing changes yet. */
  function TogglePause(s: Session): (o: Outcome)
    ensures o.next == s && o.effects == []
    ensures o.sent == [PauseToggle(s.enginePaused)]
  {
    Send(s, PauseToggle(s.enginePaused))
  }

  /** The acknowledgement. An `ok` answer flips the flag the inspector holds
      now, whichever endpoint the request went to, and a truthy selection
      has its details (and then its components) reloaded. Anything else
      changes nothing. */
  function PauseReplied(s: Session, resume: bool, r: Response): (o: Outcome)
    ensures r.Http? && r.ok ==> o.next == s.(enginePaused := !s.enginePaused)
    ensures r.Http? && r.ok && SelectionTruthy(s.selected) ==> o.sent == [DetailsFetch(s.selected.value)]
    ensures !(r.Http? && r.ok && SelectionTruthy(s.selected)) ==> o.sent == []
    ensures !(r.Http? && r.ok) ==> o.next == s
    ensures o.effects == []
  {
    if !(r.Http? && r.ok) then Quiet(s)
    else
      var s1 := s.(enginePaused := !s.enginePaused);
      if SelectionTruthy(s.selected) then Send(s1, DetailsFetch(s.selected.value)) else Quiet(s1)
  }

  /** `checkEngineStatus`' answer: an `ok` answer adopts the engine's
      `paused` (a missing one reads as false); anything else changes nothing. */
  function StatusReplied(s: Session, r: Response): (o: Outcome)
    ensures r.Http? && r.ok ==> o.next.enginePaused == r.body.paused
    ensures !(r.Http? && r.ok) ==> o.next == s
    ensures o.next == s.(enginePaused := o.next.enginePaused)
    ensures o.sent == [] && o.effects == []
  {
    if r.Http? && r.ok then Quiet(s.(enginePaused := r.body.paused)) else Quiet(s)
  }
}
