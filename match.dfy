/** The championship itself: the counters of `RockPaperScissorsGame`, the
    round handler that advances them, the end-of-match verdict and the reset. */
module Match {
  import opened Text
  import opened Rules

  datatype Option<T> = None | Some(value: T)

  /** The championship verdict announced by `end_game`. */
  datatype Verdict = UserChampion | ComputerChampion | DrawnChampionship

  /** The three-way score comparison of `end_game`. */
  function VerdictOf(userScore: int, computerScore: int): (v: Verdict)
    ensures v == UserChampion <==> userScore > computerScore
    ensures v == ComputerChampion <==> userScore < computerScore
    ensures v == DrawnChampionship <==> userScore == computerScore
  {
    if userScore > computerScore then UserChampion
    else if userScore < computerScore then ComputerChampion
    else DrawnChampionship
  }

  /** The number of rounds in a championship, fixed at start-up. */
  const DefaultMaxRounds: nat := 5

  class Game {
    var userScore: nat
    var computerScore: nat
    var roundsPlayed: nat
    var maxRounds: nat

    /** Ties score for nobody and rounds stop at the limit. */
    ghost predicate Valid()
      reads this
    {
      userScore + computerScore <= roundsPlayed <= maxRounds
    }

    /** The championship is over once the round limit is reached. */
    predicate IsOver()
      reads this
    {
      roundsPlayed >= maxRounds
    }

    /** The counters as set up when the window opens. */
    constructor ()
      ensures Valid()
      ensures userScore == 0 && computerScore == 0 && roundsPlayed == 0
      ensures maxRounds == DefaultMaxRounds
    {
      userScore := 0;
      computerScore := 0;
      roundsPlayed := 0;
      maxRounds := DefaultMaxRounds;
    }

    /** `play_round` with the computer's draw supplied by the caller. Once the
        championship is over the call changes nothing and shows nothing.
        Otherwise it returns the round message, scores the round by reading
        that message, counts the round, and on the last round returns the
        verdict that `end_game` announces. */
    method PlayRound(user: Choice, computer: Choice)
      returns (message: Option<string>, verdict: Option<Verdict>)
      requires Valid()
      modifies this`userScore, this`computerScore, this`roundsPlayed
      ensures Valid()
      ensures old(IsOver()) ==>
                message == None && verdict == None
                && userScore == old(userScore) && computerScore == old(computerScore)
                && roundsPlayed == old(roundsPlayed)
      ensures !old(IsOver()) ==>
                && message == Some(DetermineWinner(user, computer))
                && roundsPlayed == old(roundsPlayed) + 1
                && userScore == old(userScore) + (if Resolve(user, computer) == UserWin then 1 else 0)
                && computerScore == old(computerScore) + (if Resolve(user, computer) == ComputerWin then 1 else 0)
      ensures verdict.Some? <==> !old(IsOver()) && roundsPlayed == maxRounds
      ensures verdict.Some? ==> verdict.value == VerdictOf(userScore, computerScore)
      ensures maxRounds == old(maxRounds)
    {
      if roundsPlayed >= maxRounds {
        return None, None;
      }
      var result := DetermineWinner(user, computer);
      message := Some(result);
      ClassificationAgrees(user, computer);
      var saysWin := Contains(result, "win");
      if saysWin {
        userScore := userScore + 1;
      } else {
        var saysLose := Contains(result, "lose");
        if saysLose {
          computerScore := computerScore + 1;
        }
      }
      roundsPlayed := roundsPlayed + 1;
      verdict := None;
      if roundsPlayed >= maxRounds {
        verdict := Some(VerdictOf(userScore, computerScore));
      }
    }

    /** `reset_game`: a new championship of the same length, from any state. */
    method Reset()
      modifies this`userScore, this`computerScore, this`roundsPlayed
      ensures Valid()
      ensures userScore == 0 && computerScore == 0 && roundsPlayed == 0
      ensures maxRounds == old(maxRounds)
    {
      userScore := 0;
      computerScore := 0;
      roundsPlayed := 0;
    }
  }

  /** A caller's view: five rounds of Rock against Scissors, Paper, Rock,
      Scissors, Paper end two all, the verdict comes with the fifth round, and
      a sixth press is ignored until the reset. */
  method FiveRoundScenario()
  {
    var g := new Game();
    var m, v := g.PlayRound(Rock, Scissors);
    assert v == None && g.userScore == 1;
    m, v := g.PlayRound(Rock, Paper);
    m, v := g.PlayRound(Rock, Rock);
    m, v := g.PlayRound(Rock, Scissors);
    assert v == None;
    m, v := g.PlayRound(Rock, Paper);
    assert g.userScore == 2 && g.computerScore == 2 && g.roundsPlayed == 5;
    assert v == Some(DrawnChampionship);
    m, v := g.PlayRound(Paper, Rock);
    assert m == None && v == None && g.userScore == 2;
    g.Reset();
    assert !g.IsOver() && g.maxRounds == 5;
  }
}
