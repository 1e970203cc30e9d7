/**
 * `RaceStatus` (src/race-status.ts): a flag that starts out running and can
 * only be switched off, together with a random two-character id. The two
 * random draws are passed to the constructor.
 */
module Race {

  /** `RaceStatus.ID_CHARS` */
  const ID_CHARS: string := "ABCDEFGHIJKLMNOPQRSTUVWXYZ0123456789"

  /**
   * The source declares `running` private, so only the class itself can
   * change it. Dafny has no private fields: here `running` is a plain field,
   * and it never goes back to true only because nothing in the project but
   * the constructor and `SetRaceOver` assigns it.
   */
  class RaceStatus {
    var running: bool
    const raceId: string

    /** `new RaceStatus()`, where `first` and `second` are the two draws of `Math.floor(Math.random() * 36)`. */
    constructor(first: nat, second: nat)
      requires first < 36 && second < 36
      ensures running
      ensures raceId == [ID_CHARS[first], ID_CHARS[second]]
    {
      running := true;
      raceId := [ID_CHARS[first], ID_CHARS[second]];
    }

    function IsRunning(): bool
      reads this
    {
      running
    }

    /** The only way the flag changes, and it only ever changes to false. */
    method SetRaceOver()
      modifies this
      ensures !running
    {
      running := false;
    }
  }

  /** The alphabet is the 26 capital letters followed by the 10 digits. */
  lemma AlphabetLayout()
    ensures |ID_CHARS| == 36
    ensures forall i :: 0 <= i < 26 ==> ID_CHARS[i] as int == 'A' as int + i
    ensures forall i :: 26 <= i < 36 ==> ID_CHARS[i] as int == '0' as int + i - 26
  {
  }

  /** Every id is two characters of the alphabet, and different draws give different ids. */
  lemma RaceIdAlphabet(a1: nat, a2: nat, b1: nat, b2: nat)
    requires a1 < 36 && a2 < 36 && b1 < 36 && b2 < 36
    ensures |[ID_CHARS[a1], ID_CHARS[a2]]| == 2
    ensures [ID_CHARS[a1], ID_CHARS[a2]] == [ID_CHARS[b1], ID_CHARS[b2]] <==> a1 == b1 && a2 == b2
  {
    AlphabetLayout();
    if [ID_CHARS[a1], ID_CHARS[a2]] == [ID_CHARS[b1], ID_CHARS[b2]] {
      assert ID_CHARS[a1] == ID_CHARS[b1] && ID_CHARS[a2] == ID_CHARS[b2];
    }
  }

  /** A race ends at most once and stays over: ending it again changes nothing, and `IsRunning` changes nothing. */
  method RaceLifecycle(first: nat, second: nat) returns (before: bool, after: bool, again: bool, id: string)
    requires first < 36 && second < 36
    ensures before && !after && !again
    ensures id == [ID_CHARS[first], ID_CHARS[second]]
  {
    var race := new RaceStatus(first, second);
    before := race.IsRunning();
    race.SetRaceOver();
    after := race.IsRunning();
    race.SetRaceOver();
    again := race.IsRunning();
    id := race.raceId;
  }
}
