# Rock Paper Scissors Championship — match engine model

A Dafny model of the match engine inside `RockPaperScissorsGame`
(`rps_championship.py`): a five-round championship of Rock, Paper, Scissors
between the user and a computer opponent.

- `text.dfy`, module `Text`: Python's substring test `pat in s`, which the
  round handler uses to read the outcome back out of the round message, as a
  scanning method proved to answer "`pat` occurs at some position of `s`".
- `rules.dfy`, module `Rules`: the choices, the `win_conditions` table
  (`Beats`), the three message shapes and `DetermineWinner` (the source's
  `determine_winner`). `Resolve` is an independent, symmetric statement of the
  rule (the user wins when their choice beats the computer's, loses when the
  computer's beats theirs, ties otherwise); the lemmas tie the message-returning
  code to it, and prove that the substring tests recover it from each message.
- `match.dfy`, module `Match`: the class `Game` with the four counters of the
  source object (`userScore`, `computerScore`, `roundsPlayed`, `maxRounds`),
  its object invariant `Valid()` (`userScore + computerScore <= roundsPlayed <=
  maxRounds`), the round handler `PlayRound`, the reset `Reset`, and the
  verdict comparison `VerdictOf` of `end_game`. The constructor establishes
  `Valid()` and both methods preserve it, so the invariant holds after any
  sequence of rounds and resets from start-up. `FiveRoundScenario` is a client
  that plays a full championship through the contracts alone.

The computer's random draw is a parameter of `PlayRound`. Where the source's
`end_game` is called, `PlayRound` returns the verdict it announces; the round
message that the source writes to a label is returned too.

`end_game`'s comparison is reached only on the round that reaches the limit,
so no verdict exists before completion. The completion test is
`rounds_played >= max_rounds`, which under `Valid()` is the same as
`roundsPlayed == maxRounds`.

## Model

| member | source | states |
|---|---|---|
| Text.Contains | rps_championship.py:104-107 | the left-to-right substring scan answers true exactly when the pattern occurs at some index of the string |
| Text.AbsentWithoutFirstChar | rps_championship.py:104-107 | a pattern whose first character never appears in the string occurs nowhere in it |
| Rules.BeatsIsCycle | rps_championship.py:126-130 | the win table is a 3-cycle: no choice beats itself, and of two distinct choices exactly one beats the other |
| Rules.NameInjective | rps_championship.py:123 | two choices have equal labels exactly when they are the same choice, so the label comparison is the choice comparison |
| Rules.DetermineWinnerFollowsRule | rps_championship.py:122-135 | the returned message is the win, lose or tie message of the symmetric reference outcome; the fall-through lose branch is exactly "the computer's choice beats the user's" |
| Rules.MessagesDistinct | rps_championship.py:124-135 | the win, lose and tie messages are pairwise different strings |
| Rules.TieExactlyOnEqual | rps_championship.py:123-124 | the tie message (and the tie outcome) occurs if and only if the two choices are equal |
| Rules.WinExactlyOnTable | rps_championship.py:126-135 | for distinct choices the win message is returned iff the table maps the user's choice to the computer's, and the lose message iff it does not |
| Rules.SwapExchangesWinAndLoss | rps_championship.py:132-135 | exchanging the two choices flips a win into a loss and back, keeps a tie; the user wins with (a, b) iff they lose with (b, a) |
| Rules.OutcomeCounts | rps_championship.py:122-135 | of the nine pairs of choices exactly three are user wins, three computer wins and three ties |
| Rules.NamesHaveNoWOrL | rps_championship.py:94 | no choice label contains the letters that start "win" or "lose" |
| Rules.WinMessageReadsAsWin | rps_championship.py:133 | "win" occurs in the win message |
| Rules.LoseMessageReadsAsLoss | rps_championship.py:135 | the lose message contains "lose" and does not contain "win" |
| Rules.TieMessageReadsAsTie | rps_championship.py:124 | the tie message contains neither "win" nor "lose" |
| Rules.ClassificationAgrees | rps_championship.py:101-111 | the two substring tests of the round handler read every message correctly: "win" is found iff the user won, and "lose" without "win" iff the computer won |
| Match.VerdictOf | rps_championship.py:142-151 | the verdict is a user championship iff the user's score is higher, a computer championship iff it is lower, a drawn championship iff equal; exactly one applies |
| Match.Game.constructor | rps_championship.py:17-21 | a new game starts with zero scores and zero rounds of a five-round limit, satisfying the invariant |
| Match.Game.PlayRound | rps_championship.py:89-120 | once the limit is reached nothing changes and nothing is shown; otherwise the message is the rule's message, exactly one round is counted, the user's score rises by one exactly on a user win and the computer's exactly on a computer win (neither on a tie), the invariant is kept, the limit is unchanged, and the verdict is returned exactly on the round that reaches the limit |
| Match.Game.Reset | rps_championship.py:160-163 | from any state, both scores and the round count become zero, the limit is unchanged, and the invariant holds |

## Left out

- Widget construction, label and colour updates, the scoreboard text, button enabling and the summary popup (`create_widgets`, `update_scoreboard`, the display lines of `play_round`, `end_game` and `reset_game`): presentation only. `end_game` is modelled by the verdict it selects; its emoji message strings are not modelled.
- `center_window`: window geometry computed from values queried from the GUI toolkit.
- `resource_path` and the start-up block: file-path lookup and GUI bootstrap.
- `exit_game`: a call into the toolkit that destroys the window.
- `random.choice`: the computer's draw is a parameter of `PlayRound`, so every draw is covered but no distribution is modelled.
- Choice labels other than the three button names: the source passes only these, so the model types choices as a three-valued datatype; an unknown user label, which the source would reject with a dictionary lookup error, cannot be expressed.
- Match.Game.PlayRound: requires the object invariant `Valid()`, which the constructor establishes and both methods keep; states reached by writing the fields from outside the class are not modelled.
