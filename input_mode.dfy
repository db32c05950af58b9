/** The switch between the two ways of entering a melody, the on-screen piano and
    the microphone, and the lazily created single switch the pages share. */
module InputMode {

  /** One bit of state: true while the piano is the selected input. */
  class SwitchInput {
    var pianoSelected: bool

    /** A new switch starts on the piano. */
    constructor ()
      ensures pianoSelected
    {
      pianoSelected := true;
    }

    function IsPianoSelected(): (r: bool)
      reads this
      ensures r <==> pianoSelected
    {
      pianoSelected
    }

    /** The microphone is selected exactly when the piano is not. */
    function IsMicrophoneSelected(): (r: bool)
      reads this
      ensures r <==> !IsPianoSelected()
    {
      !pianoSelected
    }

    method DisplayPiano()
      modifies this
      ensures IsPianoSelected()
    {
      pianoSelected := true;
    }

    method DisplayMicrophone()
      modifies this
      ensures IsMicrophoneSelected()
    {
      pianoSelected := false;
    }

    /** Flips the selection. */
    method Toggle()
      modifies this
      ensures IsPianoSelected() == !old(IsPianoSelected())
    {
      if IsPianoSelected() {
        DisplayMicrophone();
      } else {
        DisplayPiano();
      }
    }
  }

  /** Holder of the shared switch, standing for the class-level private slot that
      starts out empty. */
  class Registry {
    var instance: SwitchInput?

    constructor ()
      ensures instance == null
    {
      instance := null;
    }

    /** The first call creates a switch on the piano and keeps it; every later call
        hands back that same switch, whatever its selection is by then. */
    method GetInstance() returns (s: SwitchInput)
      modifies this
      ensures old(instance) == null ==> fresh(s) && s.pianoSelected
      ensures old(instance) != null ==> s == old(instance)
      ensures instance == s
    {
      if instance == null {
        instance := new SwitchInput();
      }
      s := instance;
    }
  }

  /** Two calls in a row give the very same object. */
  method GetInstanceIsShared(r: Registry) returns (a: SwitchInput, b: SwitchInput)
    modifies r
    ensures a == b
    ensures old(r.instance) != null ==> a == old(r.instance)
  {
    a := r.GetInstance();
    b := r.GetInstance();
  }

  /** Toggling twice puts the selection back; nothing but the switch changes. */
  method ToggleTwiceRestores(s: SwitchInput)
    modifies s
    ensures s.IsPianoSelected() == old(s.IsPianoSelected())
  {
    s.Toggle();
    s.Toggle();
  }

  /** Selecting an input whichever was selected before, and selecting it again,
      leaves it selected: both setters are idempotent. */
  method DisplayIsIdempotent(s: SwitchInput, piano: bool)
    modifies s
    ensures s.IsPianoSelected() == piano
  {
    if piano {
      s.DisplayPiano();
      s.DisplayPiano();
    } else {
      s.DisplayMicrophone();
      s.DisplayMicrophone();
    }
  }
}
