/** The game mode (DEBUG or GAME) and the manager that switches it. */
module GameModes {

  /** `GameMode`: DEBUG is the creative mode, GAME the survival mode. */
  datatype GameMode = Debug | Game

  /** The other mode. */
  function Other(m: GameMode): (r: GameMode)
    ensures r != m
  {
    if m == Debug then Game else Debug
  }

  /** Taking the other mode twice is the identity. */
  lemma OtherTwice(m: GameMode)
    ensures Other(Other(m)) == m
  {
  }

  class GameModeManager {
    var currentMode: GameMode

    /** `__init__`: the manager starts in `startingMode`, DEBUG by default. */
    constructor (startingMode: GameMode := Debug)
      ensures currentMode == startingMode
    {
      currentMode := startingMode;
    }

    /** `switch_mode`: reports a change exactly when `newMode` differs from
        the current mode; either way the mode is `newMode` afterwards. */
    method SwitchMode(newMode: GameMode) returns (changed: bool)
      modifies this
      ensures changed <==> newMode != old(currentMode)
      ensures currentMode == newMode
    {
      if newMode != currentMode {
        currentMode := newMode;
        return true;
      }
      return false;
    }

    /** `toggle_mode`: DEBUG becomes GAME and GAME becomes DEBUG. */
    method ToggleMode()
      modifies this
      ensures currentMode == Other(old(currentMode)) && currentMode != old(currentMode)
    {
      var changed;
      if currentMode == Debug {
        changed := SwitchMode(Game);
      } else {
        changed := SwitchMode(Debug);
      }
    }

    /** `is_debug`. */
    predicate IsDebug()
      reads this
    {
      currentMode == Debug
    }

    /** `is_game`. */
    predicate IsGame()
      reads this
    {
      currentMode == Game
    }

    /** Exactly one of the two queries holds. */
    lemma ExactlyOneMode()
      ensures IsDebug() != IsGame()
    {
    }
  }

  /** Toggling twice restores the starting mode. */
  method ToggleTwice(g: GameModeManager)
    modifies g
    ensures g.currentMode == old(g.currentMode)
  {
    g.ToggleMode();
    g.ToggleMode();
    OtherTwice(old(g.currentMode));
  }
}
