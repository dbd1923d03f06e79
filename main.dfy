/** The page's entry point: the first state and the loop of js/04_main.js. */
module Page {
  import opened Structs
  import opened Cookies
  import opened Data
  import opened States

  /** The running game: the current state and the page's cookie storage. */
  class Game {
    var currentState: GameState
    const jar: CookieJar

    /** Between frames the current state is well formed and asks for nothing. */
    ghost predicate Valid()
      reads this, currentState, currentState.persistentData, currentState.persistentData.Repr()
    {
      currentState.Valid() && currentState.requestedChange == None
    }

    /** The page starts on the menu, over the data of a new game and with the intro at its start. */
    constructor (d: InitDraws, jar: CookieJar)
      requires d.Valid()
      ensures Valid() && this.jar == jar
      ensures currentState.behavior == MenuBehavior && currentState.persistentData.IsInitial(d, jar.cookie)
      ensures currentState.introTimer == 0.0
    {
      var data := GetInitialData(d, jar.cookie);
      var state := ChangeState(data, MenuBehavior);
      currentState := state;
      this.jar := jar;
    }

    /**
     * `loop`: one step, then the hand-off to the requested phase, over the
     * same persistent data. The phase either stays or becomes its successor.
     */
    method Loop(ready: bool, time: real, keys: set<int>, swapDraws: Draws, initDraws: InitDraws, root: real -> real)
      requires Valid() && time >= 0.0 && swapDraws.Valid() && initDraws.Valid() && IsSquareRoot(root)
      requires currentState.behavior == RunningBehavior ==> LookupInRange(currentState.persistentData, time)
      modifies this, currentState, currentState.persistentData, currentState.persistentData.Repr(), jar
      ensures Valid()
      ensures currentState.behavior == old(currentState.behavior) ||
              currentState.behavior == Successor(old(currentState.behavior))
      ensures currentState.behavior != old(currentState.behavior) ==> fresh(currentState) && currentState.introTimer == 0.0
      ensures currentState.persistentData == old(currentState).persistentData
      ensures old(currentState).requestedChange.None? ==> currentState == old(currentState)
      ensures old(currentState).requestedChange.Some? ==>
        fresh(currentState) && currentState.behavior == old(currentState).requestedChange.value
      ensures !ready ==>
        && currentState == old(currentState) && unchanged(old(currentState))
        && unchanged(old(currentState.persistentData.Repr())) && unchanged(jar)
    {
      currentState.Step(ready, time, keys, swapDraws, initDraws, jar, root);
      HandOff();
    }

    /** The end of `loop`: a requested phase replaces the state, over the same persistent data. */
    method HandOff()
      requires currentState.Valid()
      modifies this`currentState
      ensures Valid() && currentState.persistentData == old(currentState.persistentData)
      ensures old(currentState.requestedChange).None? ==> currentState == old(currentState)
      ensures old(currentState.requestedChange).Some? ==>
        && fresh(currentState) && currentState.behavior == old(currentState.requestedChange).value
        && currentState.introTimer == 0.0
    {
      if currentState.requestedChange.Some? {
        currentState := ChangeState(currentState.persistentData, currentState.requestedChange.value);
      }
    }
  }
}
