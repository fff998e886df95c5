/**
 * Round scheduling in the desktop game: a buffer of visibility states,
 * shuffled and popped one per round, and the countdown of rounds that
 * draws from it.
 */
module RegistrationGame {
  import opened Outcomes
  import opened Shuffling

  /**
   * Which statistics are shown in a round (fiducial count, actual TRE,
   * expected TRE, expected FRE, FRE, score, total score, margin, repeats)
   * and the round's name.
   */
  datatype VisState = VisState(
    fidsText: bool, treText: bool, expTreText: bool, expFreText: bool, freText: bool,
    scoreText: bool, totalScoreText: bool, marginText: bool, repeatsText: bool,
    stateName: string)

  const FleAndFids := VisState(true, false, false, false, false, true, true, true, true, "FLE and Number of Fids")
  const ExpTre := VisState(false, false, true, false, false, true, true, true, true, "Expected TRE")
  const ExpFre := VisState(false, false, false, true, false, true, true, true, true, "Expected FRE")
  const ActualFre := VisState(false, false, false, false, true, true, true, true, true, "Actual FRE")

  /** One bin: the four states in the order the constructor appends them. */
  const Bin := [FleAndFids, ExpTre, ExpFre, ActualFre]

  class VisibilitySettings {
    var stateList: seq<VisState>

    /** The buffer filled with `eachBin` bins (none when `eachBin` is not positive). */
    constructor (eachBin: int)
      ensures stateList == Repeated(Bin, if eachBin < 0 then 0 else eachBin)
    {
      stateList := [];
      new;
      var i := 0;
      while i < eachBin
        invariant 0 <= i && (eachBin >= 0 ==> i <= eachBin) && (eachBin < 0 ==> i == 0)
        invariant stateList == Repeated(Bin, i)
      {
        stateList := stateList + [FleAndFids];
        stateList := stateList + [ExpTre];
        stateList := stateList + [ExpFre];
        stateList := stateList + [ActualFre];
        i := i + 1;
      }
    }

    /** `__init__`: the buffer size must be a multiple of 4; it holds a quarter of it in bins. */
    static method New(bufferSize: int) returns (r: Result<VisibilitySettings>)
      ensures r.Err? <==> bufferSize % 4 != 0
      ensures r.Err? ==> r.error == ValueError
      ensures r.Ok? ==> fresh(r.value) && r.value.stateList == Repeated(Bin, if bufferSize < 0 then 0 else bufferSize / 4)
    {
      if bufferSize % 4 != 0 {
        return Err(ValueError);
      }
      var settings := new VisibilitySettings(bufferSize / 4);
      return Ok(settings);
    }

    /**
     * `get_vis_state`: shuffle the buffer in place, then pop and return its
     * last state; an empty buffer is an IndexError.
     */
    method GetVisState(pick: nat -> int) returns (r: Result<VisState>)
      requires ValidPicks(pick)
      modifies this
      ensures old(stateList) == [] ==> r == Err(IndexError) && stateList == []
      ensures old(stateList) != [] ==>
        var shuffled := Shuffled(old(stateList), pick);
        r == Ok(shuffled[|shuffled| - 1]) && stateList == shuffled[..|shuffled| - 1]
      ensures r.Ok? ==> r.value == old(stateList)[pick(|old(stateList)| - 1)]
      ensures r.Ok? ==> multiset(stateList) + multiset{r.value} == multiset(old(stateList))
    {
      stateList := Shuffled(stateList, pick);
      if |stateList| == 0 {
        return Err(IndexError);
      }
      ShuffledLast(old(stateList), pick);
      var last := stateList[|stateList| - 1];
      assert stateList == stateList[..|stateList| - 1] + [last];
      stateList := stateList[..|stateList| - 1];
      return Ok(last);
    }
  }

  /** A buffer built from `b` bins holds 4b states, b of each kind. */
  lemma BinsHoldEachStateEqually(b: nat)
    ensures |Repeated(Bin, b)| == 4 * b
    ensures multiset(Repeated(Bin, b))[FleAndFids] == b
    ensures multiset(Repeated(Bin, b))[ExpTre] == b
    ensures multiset(Repeated(Bin, b))[ExpFre] == b
    ensures multiset(Repeated(Bin, b))[ActualFre] == b
  {
    RepeatedCounts(Bin, b);
    assert multiset(Bin)[FleAndFids] == 1;
    assert multiset(Bin)[ExpTre] == 1;
    assert multiset(Bin)[ExpFre] == 1;
    assert multiset(Bin)[ActualFre] == 1;
  }

  /** The rounds of the desktop game that draw visibility states. */
  class GameRounds {
    var repeats: int
    var visibilitySetter: VisibilitySettings
    var stateString: string

    /**
     * The countdown starts at 20 with a buffer of 16; states are popped only
     * while 1 < repeats < 18, so the buffer holds one state for every
     * remaining popping round.
     */
    ghost predicate Valid()
      reads this, visibilitySetter
    {
      1 <= repeats <= 20 &&
      |visibilitySetter.stateList| == (if repeats >= 17 then 16 else repeats - 1)
    }

    constructor ()
      ensures Valid() && fresh(visibilitySetter)
      ensures repeats == 20 && stateString == "Actual TRE"
    {
      var startRepeats := 20;
      var setter := VisibilitySettings.New(startRepeats - 4);
      assert setter.Ok? && setter.value.stateList == Repeated(Bin, 4);
      BinsHoldEachStateEqually(4);
      repeats := startRepeats;
      visibilitySetter := setter.value;
      stateString := "Actual TRE";
    }

    /**
     * The end of a scored ablation in `keypress_event`: while rounds remain,
     * draw the next round's state (from repeats 17 down to 2) and count
     * down; otherwise the game is over. The draw never fails.
     */
    method FinishRound(pick: nat -> int) returns (r: Result<bool>)
      requires Valid() && ValidPicks(pick)
      modifies this, visibilitySetter
      ensures Valid() && visibilitySetter == old(visibilitySetter)
      ensures r.Ok?
      ensures r.value <==> old(repeats) <= 1
      ensures old(repeats) > 1 ==> repeats == old(repeats) - 1
      ensures old(repeats) <= 1 ==> repeats == old(repeats) && stateString == old(stateString)
      ensures 1 < old(repeats) < 18 ==>
        |visibilitySetter.stateList| == |old(visibilitySetter.stateList)| - 1 &&
        stateString == old(visibilitySetter.stateList)[pick(|old(visibilitySetter.stateList)| - 1)].stateName
      ensures !(1 < old(repeats) < 18) ==> visibilitySetter.stateList == old(visibilitySetter.stateList)
    {
      if repeats > 1 {
        if repeats < 18 {
          var state := visibilitySetter.GetVisState(pick);
          if state.Err? {
            return Err(IndexError);
          }
          stateString := state.value.stateName;
        }
        repeats := repeats - 1;
        return Ok(false);
      }
      return Ok(true);
    }
  }
}
