/** What the write gate guarantees, and where it leaks: with the engine
    running, no event other than an answer sends a write and the write
    events change nothing; but a transform read already under way is still
    written back, and two quick clicks on the pause button leave the
    inspector's flag out of step with the engine. */
module GateFacts {
  import opened Base
  import opened Scene
  import opened Protocol
  import opened State
  import Writes
  import opened Engine

  /** A request that writes to the engine, or starts a write. */
  predicate IsWrite(r: Request) {
    r.ActorPropertyPost? || r.TransformFetch? || r.TransformPost? || r.ComponentPropertyPost? || r.ComponentEnabledPost?
  }

  lemma ClosedGateFire(s: Session, id: TimerId)
    requires !s.enginePaused
    ensures forall r | r in Step(s, Fire(id)).sent :: !IsWrite(r)
  {
  }

  /** With the gate closed, no event but an answer sends a write. */
  lemma GateClosedBlocksWrites(s: Session, e: Event)
    requires !s.enginePaused && !e.Reply?
    ensures forall r | r in Step(s, e).sent :: !IsWrite(r)
  {
    match e
    case Fire(id) => ClosedGateFire(s, id);
    case _ =>
  }

  /** With the gate closed, the write events send nothing and change
      nothing; a refused enable toggle puts its checkbox back. */
  lemma GateClosedWritesAreNoOps(s: Session, e: Event)
    requires !s.enginePaused
    requires e.ActorFieldChanged? || e.ComponentCheckboxChanged? || e.EnabledToggled?
    ensures Step(s, e).next == s && Step(s, e).sent == []
    ensures e.EnabledToggled? ==> Step(s, e).effects == [CheckboxRestored(e.component, !e.enabled)]
    ensures !e.EnabledToggled? ==> Step(s, e).effects == []
  {
  }

  /** A debounced edit whose timer fires while the gate is closed is
      dropped: nothing is sent and no cache changes. */
  lemma GateClosedDropsDebounced(s: Session, id: TimerId)
    requires !s.enginePaused && id in s.timers && s.timers[id].task.Debounced? && s.timers[id].due <= s.now
    ensures Step(s, Fire(id)).sent == []
    ensures Step(s, Fire(id)).next.actors == s.actors && Step(s, Fire(id)).next.components == s.components
  {
  }

  /** The gate is checked only before the first request of a transform
      write: the answer to the read is written back even if the gate has
      closed in the meantime. */
  lemma TransformWriteIgnoresGate(s: Session, actor: int, part: Part, axis: Axis, coord: real, r: Response)
    requires TransformFetch(actor, part, axis, coord) in s.inflight
    requires r.Http? && r.body.transform.Some?
    ensures Step(s, Reply(TransformFetch(actor, part, axis, coord), r)).sent
         == [TransformPost(actor, SetAxis(r.body.transform.value, part, axis, coord))]
  {
  }

  /** With the gate read again when the transform arrives, a transform
      write never posts from a session whose engine is running, neither at
      the click nor at the answer; the script as written does post there. */
  lemma IntendedTransformWriteHonoursGate(s: Session, actor: int, part: Part, axis: Axis, coord: real, r: Response)
    requires !s.enginePaused
    ensures forall m | m in Writes.UpdateTransform(s, actor, part, axis, coord).sent :: !IsWrite(m)
    ensures forall m | m in Writes.TransformFetchedIntended(s, actor, part, axis, coord, r).sent :: !m.TransformPost?
    ensures r.Http? && r.body.transform.Some? ==>
      Writes.TransformFetched(s, actor, part, axis, coord, r).sent[0].TransformPost?
  {
  }

  lemma PauseClickedStep(s: Session)
    ensures Step(s, PauseClicked).sent == [PauseToggle(s.enginePaused)]
    ensures Step(s, PauseClicked).next == s.(inflight := s.inflight + multiset{PauseToggle(s.enginePaused)})
  {
  }

  lemma PauseAckStep(s: Session, resume: bool, r: Response)
    requires PauseToggle(resume) in s.inflight && r.Http? && r.ok && !SelectionTruthy(s.selected)
    ensures Step(s, Reply(PauseToggle(resume), r)).sent == []
    ensures Step(s, Reply(PauseToggle(resume), r)).next
         == s.(enginePaused := !s.enginePaused, inflight := s.inflight - multiset{PauseToggle(resume)})
  {
  }

  lemma TwoClicksStep(s: Session)
    ensures var s1 := Step(s, PauseClicked).next;
      && Step(s1, PauseClicked).next
         == s.(inflight := s.inflight + multiset{PauseToggle(s.enginePaused), PauseToggle(s.enginePaused)})
      && Step(s1, PauseClicked).sent == [PauseToggle(s.enginePaused)]
  {
    var s1 := Step(s, PauseClicked).next;
    PauseClickedStep(s);
    PauseClickedStep(s1);
    assert s.inflight + multiset{PauseToggle(s.enginePaused)} + multiset{PauseToggle(s.enginePaused)}
        == s.inflight + multiset{PauseToggle(s.enginePaused), PauseToggle(s.enginePaused)};
  }

  lemma TwoClicksUnfold(s: Session, es: seq<Event>)
    requires |es| >= 2 && es[0] == PauseClicked && es[1] == PauseClicked
    ensures var s1 := Step(s, PauseClicked).next; var s2 := Step(s1, PauseClicked).next;
      && Run(s, es).final == Run(s2, es[2..]).final
      && Run(s, es).sent == Step(s, PauseClicked).sent + (Step(s1, PauseClicked).sent + Run(s2, es[2..]).sent)
  {
    var s1 := Step(s, PauseClicked).next;
    RunHead(s, es);
    RunHead(s1, es[1..]);
    assert es[1..][1..] == es[2..];
  }

  lemma TwoClicksRun(s: Session, es: seq<Event>)
    requires |es| >= 2 && es[0] == PauseClicked && es[1] == PauseClicked
    ensures var s2 := s.(inflight := s.inflight + multiset{PauseToggle(s.enginePaused), PauseToggle(s.enginePaused)});
      && Run(s, es).final == Run(s2, es[2..]).final
      && Run(s, es).sent == [PauseToggle(s.enginePaused), PauseToggle(s.enginePaused)] + Run(s2, es[2..]).sent
  {
    PauseClickedStep(s);
    TwoClicksStep(s);
    TwoClicksUnfold(s, es);
  }

  lemma TwoAcksRun(s: Session, r: Response, es: seq<Event>)
    requires r.Http? && r.ok && !SelectionTruthy(s.selected)
    requires s.inflight[PauseToggle(false)] >= 2
    requires |es| == 2 && es[0] == Reply(PauseToggle(false), r) && es[1] == Reply(PauseToggle(false), r)
    ensures Run(s, es).sent == [] && Run(s, es).final.enginePaused == s.enginePaused
  {
    var s1 := Step(s, Reply(PauseToggle(false), r)).next;
    PauseAckStep(s, false, r);
    PauseAckStep(s1, false, r);
    RunHead(s, es);
    RunHead(s1, es[1..]);
    assert es[1..][1..] == [];
  }

  /** Two clicks on the pause button before either answer arrives both ask
      the engine to pause; both acknowledgements flip the flag, so the
      inspector ends up believing the engine runs (and refusing writes)
      while it is paused. */
  lemma DoublePauseDesyncs(s: Session, r: Response, es: seq<Event>)
    requires !s.enginePaused && !SelectionTruthy(s.selected) && r.Http? && r.ok
    requires |es| == 4 && es[0] == PauseClicked && es[1] == PauseClicked
    requires es[2] == Reply(PauseToggle(false), r) && es[3] == Reply(PauseToggle(false), r)
    ensures Run(s, es).sent == [PauseToggle(false), PauseToggle(false)]
    ensures !Run(s, es).final.enginePaused
  {
    TwoClicksRun(s, es);
    var s2 := s.(inflight := s.inflight + multiset{PauseToggle(false), PauseToggle(false)});
    TwoAcksRun(s2, r, es[2..]);
  }
}
