/** The pause screen of Assets/Scripts/PauseScreenBehaviour.cs: a
    process-wide `paused` flag, the engine's global time scale (0 freezes
    gameplay, 1 runs it) and whether the pause menu is shown. */
module PauseMenu {

  /** The three values the pause screen writes. */
  datatype PauseState = PauseState(paused: bool, timeScale: real, menuActive: bool)

  /** The state the pause screen leaves behind whenever it has written all
      three values: time frozen and menu shown exactly while paused. */
  predicate Consistent(s: PauseState) {
    s.timeScale == (if s.paused then 0.0 else 1.0) && s.menuActive == s.paused
  }

  /** SetPauseMenu(isPaused). */
  function SetPause(s: PauseState, isPaused: bool): (r: PauseState)
    ensures r.paused == isPaused
    ensures r.timeScale == 0.0 || r.timeScale == 1.0
    ensures (r.timeScale == 0.0 <==> isPaused) && (r.menuActive <==> isPaused)
    ensures Consistent(r)
  {
    var paused := isPaused;
    PauseState(paused, if paused then 0.0 else 1.0, paused)
  }

  /** The state only depends on the last argument: prior state and earlier
      calls are forgotten, so in particular a repeated call changes nothing. */
  lemma SetPauseLastWins(s: PauseState, t: PauseState, earlier: bool, isPaused: bool)
    ensures SetPause(SetPause(s, earlier), isPaused) == SetPause(t, isPaused)
    ensures SetPause(SetPause(s, isPaused), isPaused) == SetPause(s, isPaused)
  {
  }

  /** Start: clear the flag, then SetPauseMenu(paused). */
  function Started(s: PauseState): (r: PauseState)
    ensures !r.paused && r.timeScale == 1.0 && !r.menuActive
  {
    var cleared := s.(paused := false);
    SetPause(cleared, cleared.paused)
  }

  /** The pause screen component. `paused` is the static flag every player
      reads, `timeScale` the engine's global Time.timeScale and
      `pauseMenuActive` the active flag of the pause menu object. */
  class PauseScreenBehaviour {
    var paused: bool
    var timeScale: real
    var pauseMenuActive: bool

    function State(): PauseState
      reads this
    {
      PauseState(paused, timeScale, pauseMenuActive)
    }

    /** Before Start runs. The static flag and the global time scale outlive
        a scene reload, so they are whatever the previous scene left (false
        and 1 on the first load; true and 0 after a restart pressed while
        paused); the menu is as the scene left it. */
    constructor (paused: bool, timeScale: real, menuActive: bool)
      ensures State() == PauseState(paused, timeScale, menuActive)
    {
      this.paused := paused;
      this.timeScale := timeScale;
      pauseMenuActive := menuActive;
    }

    method SetPauseMenu(isPaused: bool)
      modifies this
      ensures State() == SetPause(old(State()), isPaused)
    {
      paused := isPaused;
      timeScale := if paused then 0.0 else 1.0;
      pauseMenuActive := paused;
    }

    method Start()
      modifies this
      ensures State() == Started(old(State()))
    {
      paused := false;
      SetPauseMenu(paused);
    }
  }
}
