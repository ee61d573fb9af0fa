// The keyboard state consulted by the demo: six independent two-valued flags.
// In the program the record is a copyable value compared field by field, so it
// is a datatype here and Dafny's structural equality is its derived equality.

module InputStates {

  /** The state of a button as the windowing toolkit reports it. */
  datatype ButtonState = Press | Release

  /** The six flags of the record, by name. */
  datatype Flag = Left | Right | Front | Back | Up | Down

  datatype InputState = InputState(
    left: ButtonState,
    right: ButtonState,
    front: ButtonState,
    back: ButtonState,
    up: ButtonState,
    down: ButtonState)
  {
    /** The state of flag f. */
    function Get(f: Flag): ButtonState {
      match f
      case Left => left
      case Right => right
      case Front => front
      case Back => back
      case Up => up
      case Down => down
    }

    /** This record with flag f set to st and every other flag kept. */
    function With(f: Flag, st: ButtonState): (r: InputState)
      ensures r.Get(f) == st
      ensures forall g :: g != f ==> r.Get(g) == Get(g)
    {
      match f
      case Left => this.(left := st)
      case Right => this.(right := st)
      case Front => this.(front := st)
      case Back => this.(back := st)
      case Up => this.(up := st)
      case Down => this.(down := st)
    }

    predicate AllReleased() {
      forall f :: Get(f) == Release
    }

    /** InputState::reset: every field is overwritten with Release, whatever it held. */
    function Reset(): (r: InputState)
      ensures r.AllReleased()
      ensures r == New()
    {
      this.(left := Release, right := Release, front := Release,
            back := Release, up := Release, down := Release)
    }
  }

  /** InputState::new: a record with all six flags released. */
  function New(): (r: InputState)
    ensures r.AllReleased()
  {
    InputState(Release, Release, Release, Release, Release, Release)
  }

  /** Two records are equal exactly when they agree on every flag. */
  lemma EqualIffSameFlags(s: InputState, t: InputState)
    ensures s == t <==> forall f :: s.Get(f) == t.Get(f)
  {
    if forall f :: s.Get(f) == t.Get(f) {
      assert s.Get(Left) == t.Get(Left) && s.Get(Right) == t.Get(Right);
      assert s.Get(Front) == t.Get(Front) && s.Get(Back) == t.Get(Back);
      assert s.Get(Up) == t.Get(Up) && s.Get(Down) == t.Get(Down);
    }
  }

  /** The fully released record is the one that new() builds, and no other. */
  lemma AllReleasedIsNew(s: InputState)
    ensures s.AllReleased() <==> s == New()
  {
    if s.AllReleased() {
      EqualIffSameFlags(s, New());
    }
  }

  /** Resetting twice is the same as resetting once. */
  lemma ResetIdempotent(s: InputState)
    ensures s.Reset().Reset() == s.Reset()
  {
  }
}
