/**
 * Round scheduling in the web game: an in-place Durstenfeld shuffle and
 * the vector of statistic states the rounds pop from.
 */
module GameJs {
  import opened Reals
  import opened Outcomes
  import opened Shuffling

  /** The web game's rounds and its five states, the first being the start state. */
  const TotalRepeats := 10
  const StateStrings := ["Actual TRE", "FLE and no fids", "Expected FRE", "Expected TRE", "Actual FRE"]

  /** Every `Math.random()` draw lies in [0, 1). */
  ghost predicate ValidDraws(draw: nat -> real) {
    forall k: nat :: 0.0 <= draw(k) < 1.0
  }

  /** The partner of step i: `Math.floor(Math.random() * (i + 1))`. */
  function Partner(draw: nat -> real, i: nat): int {
    Mul(draw(i), (i + 1) as real).Floor
  }

  /** Each step's partner lies in [0, i]. */
  lemma PartnerInRange(draw: nat -> real, i: nat)
    requires 0.0 <= draw(i) < 1.0
    ensures 0 <= Partner(draw, i) <= i
  {
    var n := (i + 1) as real;
    MulNonNeg(draw(i), n);
    MulPos(1.0 - draw(i), n);
    assert Mul(1.0 - draw(i), n) == n - Mul(draw(i), n);
  }

  /** The partners of all steps, as the shuffle specification takes them. */
  function Picks(draw: nat -> real): (pick: nat -> int)
    requires ValidDraws(draw)
    ensures ValidPicks(pick)
    ensures forall i: nat :: pick(i) == Partner(draw, i)
  {
    forall i: nat ensures 0 <= Partner(draw, i) <= i {
      PartnerInRange(draw, i);
    }
    (i: nat) => Partner(draw, i)
  }

  /** `shuffleArray`: the Durstenfeld shuffle, in place. */
  method ShuffleArray<T>(a: array<T>, draw: nat -> real)
    requires ValidDraws(draw)
    modifies a
    ensures a[..] == Shuffled(old(a[..]), Picks(draw))
    ensures multiset(a[..]) == multiset(old(a[..]))
  {
    var pick := Picks(draw);
    if a.Length == 0 {
      return;
    }
    var i := a.Length - 1;
    while i > 0
      invariant 0 <= i < a.Length
      invariant ShuffleDown(a[..], i, pick) == Shuffled(old(a[..]), pick)
    {
      var j := Partner(draw, i);
      PartnerInRange(draw, i);
      assert j == pick(i);
      ghost var before := a[..];
      assert ShuffleDown(before, i, pick) == ShuffleDown(Swap(before, i, j), i - 1, pick);
      a[i], a[j] := a[j], a[i];
      assert a[..] == Swap(before, i, j);
      i := i - 1;
    }
  }

  /** Dafny's remainder of a natural number by a positive divisor. */
  lemma NatRem(a: int, n: int)
    requires a >= 0 && n > 0
    ensures 0 <= a % n < n
    ensures a == 0 ==> a % n == 0
  {
    if a == 0 {
      assert 0 == 0 * n + 0;
    }
  }

  /** JavaScript's `%` for a positive divisor: the remainder takes the sign of the dividend. */
  function JsRem(a: int, n: int): (r: int)
    requires n > 0
    ensures -n < r < n
    ensures r > 0 <==> a > 0 && a % n != 0
  {
    if a >= 0 then NatRem(a, n); a % n
    else NatRem(-a, n); -((-a) % n)
  }

  /**
   * How often the block loop of `create_state_vector` runs. JavaScript
   * divides as floats: for a positive multiple of n that is the exact
   * quotient; a negative count gives a negative bound and an empty state
   * list a non-positive count gives 0/0 or -Infinity, so the loop never runs.
   */
  function Blocks(totalRepeats: int, n: nat): (b: nat)
    ensures b > 0 ==> n > 0 && totalRepeats > 0
  {
    if n > 0 && totalRepeats > 0 then totalRepeats / n else 0
  }

  /**
   * What `create_state_vector` returns: nothing when the count is not a
   * multiple of the number of states; otherwise `blocks` copies of every
   * state but the first, shuffled, followed by `blocks` copies of the first.
   */
  function StateVector(stateStrings: seq<string>, totalRepeats: int, draw: nat -> real): seq<string>
    requires ValidDraws(draw)
  {
    var b := Blocks(totalRepeats, |stateStrings|);
    if |stateStrings| > 0 && JsRem(totalRepeats, |stateStrings|) > 0 then []
    else if b == 0 then []
    else Shuffled(Repeated(stateStrings[1..], b), Picks(draw)) + Repeated([stateStrings[0]], b)
  }

  /** The web game's round schedule: the global `state_string_vector`. */
  class WebGame {
    var stateStringVector: seq<string>

    constructor ()
      ensures stateStringVector == []
    {
      stateStringVector := [];
    }

    /**
     * `create_state_vector`: empty the global vector, refuse a count that is
     * not a multiple of the number of states, then push `blocks` rounds of
     * the other states, shuffled in place, and `blocks` start states. An
     * empty state list with a positive count loops forever in JavaScript,
     * so it is excluded.
     */
    method CreateStateVector(stateStrings: seq<string>, totalRepeats: int, draw: nat -> real)
      returns (r: seq<string>)
      requires ValidDraws(draw)
      requires |stateStrings| > 0 || totalRepeats <= 0
      modifies this
      ensures r == stateStringVector == StateVector(stateStrings, totalRepeats, draw)
    {
      stateStringVector := [];
      if |stateStrings| > 0 && JsRem(totalRepeats, |stateStrings|) > 0 {
        return [];
      }
      var randomStates: seq<string> := [];
      var startStates: seq<string> := [];
      var blocks := Blocks(totalRepeats, |stateStrings|);
      var i := 0;
      while i < blocks
        invariant 0 <= i <= blocks
        invariant blocks > 0 ==> randomStates == Repeated(stateStrings[1..], i)
        invariant blocks > 0 ==> startStates == Repeated([stateStrings[0]], i)
        invariant blocks == 0 ==> randomStates == [] && startStates == []
      {
        startStates := startStates + [stateStrings[0]];
        randomStates := randomStates + stateStrings[1..];
        i := i + 1;
      }
      var shuffled := new string[|randomStates|](k requires 0 <= k < |randomStates| => randomStates[k]);
      assert shuffled[..] == randomStates;
      ShuffleArray(shuffled, draw);
      stateStringVector := stateStringVector + shuffled[..];
      stateStringVector := stateStringVector + startStates;
      r := stateStringVector;
    }

    /** `state_string_vector.pop()`: the last state, or `undefined` (None) when empty. */
    method PopState() returns (s: Option<string>)
      modifies this
      ensures old(stateStringVector) == [] ==> s == None && stateStringVector == []
      ensures old(stateStringVector) != [] ==>
        s == Some(old(stateStringVector)[|old(stateStringVector)| - 1]) &&
        stateStringVector == old(stateStringVector)[..|old(stateStringVector)| - 1]
    {
      if |stateStringVector| == 0 {
        return None;
      }
      s := Some(stateStringVector[|stateStringVector| - 1]);
      stateStringVector := stateStringVector[..|stateStringVector| - 1];
    }
  }

  /** An exact quotient times the divisor gives back the dividend. */
  lemma ExactQuotient(t: int, n: int)
    requires t > 0 && n > 0 && t % n == 0
    ensures t / n >= 0 && Times(t / n, n) == t
  {
    assert t == (t / n) * n + t % n;
  }

  /**
   * The vector is empty exactly when the count is not a positive multiple
   * of the number of states.
   */
  lemma StateVectorEmpty(stateStrings: seq<string>, totalRepeats: int, draw: nat -> real)
    requires ValidDraws(draw)
    ensures StateVector(stateStrings, totalRepeats, draw) == [] <==>
      !(|stateStrings| > 0 && totalRepeats > 0 && totalRepeats % |stateStrings| == 0)
  {
    var n := |stateStrings|;
    if n > 0 && totalRepeats > 0 && totalRepeats % n == 0 {
      ExactQuotient(totalRepeats, n);
      var b := totalRepeats / n;
      assert b > 0;
      RepeatedSingle(stateStrings[0], b);
    }
  }

  /**
   * For a positive multiple of the number of states the vector has one
   * entry per round; its last `blocks` entries are the start state, and
   * the entries before them hold `blocks` copies of each other state.
   */
  lemma StateVectorLayout(stateStrings: seq<string>, totalRepeats: int, draw: nat -> real)
    requires ValidDraws(draw)
    requires |stateStrings| > 0 && totalRepeats > 0 && totalRepeats % |stateStrings| == 0
    ensures var v := StateVector(stateStrings, totalRepeats, draw);
      var b := totalRepeats / |stateStrings|;
      |v| == totalRepeats && 0 < b <= totalRepeats &&
      (forall i :: totalRepeats - b <= i < totalRepeats ==> v[i] == stateStrings[0]) &&
      (forall x :: multiset(v[..totalRepeats - b])[x] == Times(b, multiset(stateStrings[1..])[x]))
  {
    var n := |stateStrings|;
    ExactQuotient(totalRepeats, n);
    var b := totalRepeats / n;
    var rest := stateStrings[1..];
    RepeatedCounts(rest, b);
    RepeatedSingle(stateStrings[0], b);
    var front := Shuffled(Repeated(rest, b), Picks(draw));
    var v := StateVector(stateStrings, totalRepeats, draw);
    assert v == front + Repeated([stateStrings[0]], b);
    TimesStep(b, n);
    assert v[..totalRepeats - b] == front;
    forall i | totalRepeats - b <= i < totalRepeats
      ensures v[i] == stateStrings[0]
    {
      assert v[i] == Repeated([stateStrings[0]], b)[i - (totalRepeats - b)];
    }
  }

  /**
   * With the web game's ten rounds and five states: two blocks, so the two
   * rounds popped first are both "Actual TRE", and the eight others are two
   * of each remaining state in shuffled order.
   */
  lemma WebGameSchedule(draw: nat -> real)
    requires ValidDraws(draw)
    ensures var v := StateVector(StateStrings, TotalRepeats, draw);
      |v| == 10 && v[9] == "Actual TRE" && v[8] == "Actual TRE" &&
      multiset(v[..8])["FLE and no fids"] == 2 && multiset(v[..8])["Expected FRE"] == 2 &&
      multiset(v[..8])["Expected TRE"] == 2 && multiset(v[..8])["Actual FRE"] == 2 &&
      multiset(v[..8])["Actual TRE"] == 0
  {
    StateVectorLayout(StateStrings, TotalRepeats, draw);
    var rest := StateStrings[1..];
    assert rest == ["FLE and no fids", "Expected FRE", "Expected TRE", "Actual FRE"];
    assert multiset(rest)["FLE and no fids"] == 1;
    assert multiset(rest)["Expected FRE"] == 1;
    assert multiset(rest)["Expected TRE"] == 1;
    assert multiset(rest)["Actual FRE"] == 1;
    assert multiset(rest)["Actual TRE"] == 0;
  }
}
