/** The round resolution rule of the championship: the three choices, the
    `win_conditions` table, the message `determine_winner` returns, and the
    substring test by which the round handler reads that message back. */
module Rules {
  import opened Text

  datatype Choice = Rock | Paper | Scissors

  /** The outcome of one round, seen from the user's side. */
  datatype Outcome = UserWin | ComputerWin | Tie

  /** The button label of a choice, as it appears in the messages. */
  function Name(c: Choice): string
  {
    match c
    case Rock => "Rock"
    case Paper => "Paper"
    case Scissors => "Scissors"
  }

  /** `win_conditions`: the choice each choice defeats. */
  function Beats(c: Choice): Choice
  {
    match c
    case Rock => Scissors
    case Paper => Rock
    case Scissors => Paper
  }

  const TieMessage: string := "It's a tie!"

  function WinMessage(user: Choice, computer: Choice): string
  {
    "You win this round! " + Name(user) + " beats " + Name(computer)
  }

  function LoseMessage(user: Choice, computer: Choice): string
  {
    "You lose this round! " + Name(computer) + " beats " + Name(user)
  }

  /** `determine_winner`: tie on equal choices, otherwise the table decides
      between the win and the lose message. */
  function DetermineWinner(user: Choice, computer: Choice): string
  {
    if user == computer then TieMessage
    else if Beats(user) == computer then WinMessage(user, computer)
    else LoseMessage(user, computer)
  }

  /** Reference rule, stated symmetrically: the user wins when their choice
      beats the computer's, loses when the computer's beats theirs, and ties
      otherwise. */
  function Resolve(user: Choice, computer: Choice): Outcome
  {
    if Beats(user) == computer then UserWin
    else if Beats(computer) == user then ComputerWin
    else Tie
  }

  /** The outcome seen from the other player's side. */
  function Flip(o: Outcome): Outcome
  {
    match o
    case UserWin => ComputerWin
    case ComputerWin => UserWin
    case Tie => Tie
  }

  /** The message selected for each outcome of the reference rule. */
  function MessageFor(o: Outcome, user: Choice, computer: Choice): string
  {
    match o
    case UserWin => WinMessage(user, computer)
    case ComputerWin => LoseMessage(user, computer)
    case Tie => TieMessage
  }

  /** The table is one 3-cycle: no choice beats itself, and of two distinct
      choices exactly one beats the other. */
  lemma BeatsIsCycle(a: Choice, b: Choice)
    ensures Beats(a) != a
    ensures Beats(Beats(Beats(a))) == a
    ensures a != b ==> (Beats(a) == b <==> Beats(b) != a)
  {
  }

  /** Distinct choices have distinct names, so comparing the labels (as the
      source does) is comparing the choices. */
  lemma NameInjective(a: Choice, b: Choice)
    ensures Name(a) == Name(b) <==> a == b
  {
  }

  /** `determine_winner` picks the message of the reference outcome: its
      fall-through "lose" branch is exactly the computer-wins case. */
  lemma DetermineWinnerFollowsRule(user: Choice, computer: Choice)
    ensures DetermineWinner(user, computer) == MessageFor(Resolve(user, computer), user, computer)
  {
    BeatsIsCycle(user, computer);
  }

  /** The three message shapes are pairwise different. */
  lemma MessagesDistinct(user: Choice, computer: Choice)
    ensures WinMessage(user, computer) != TieMessage
    ensures LoseMessage(user, computer) != TieMessage
    ensures WinMessage(user, computer) != LoseMessage(user, computer)
  {
    assert WinMessage(user, computer)[4] == 'w';
    assert LoseMessage(user, computer)[4] == 'l';
  }

  /** The tie message is returned exactly when the two choices are equal. */
  lemma TieExactlyOnEqual(user: Choice, computer: Choice)
    ensures DetermineWinner(user, computer) == TieMessage <==> user == computer
    ensures Resolve(user, computer) == Tie <==> user == computer
  {
    MessagesDistinct(user, computer);
    BeatsIsCycle(user, computer);
  }

  /** For distinct choices the user wins exactly when the table maps their
      choice to the computer's, and loses otherwise. */
  lemma WinExactlyOnTable(user: Choice, computer: Choice)
    requires user != computer
    ensures DetermineWinner(user, computer) == WinMessage(user, computer) <==> Beats(user) == computer
    ensures DetermineWinner(user, computer) == LoseMessage(user, computer) <==> Beats(user) != computer
  {
    MessagesDistinct(user, computer);
  }

  /** Swapping the two choices turns a win into a loss and a loss into a win. */
  lemma SwapExchangesWinAndLoss(user: Choice, computer: Choice)
    ensures Resolve(computer, user) == Flip(Resolve(user, computer))
    ensures DetermineWinner(user, computer) == WinMessage(user, computer)
            <==> DetermineWinner(computer, user) == LoseMessage(computer, user)
  {
    BeatsIsCycle(user, computer);
    MessagesDistinct(user, computer);
    MessagesDistinct(computer, user);
  }

  /** Over the nine pairs, three are user wins, three computer wins, three ties. */
  lemma OutcomeCounts()
    ensures |set u: Choice, c: Choice | Resolve(u, c) == UserWin :: (u, c)| == 3
    ensures |set u: Choice, c: Choice | Resolve(u, c) == ComputerWin :: (u, c)| == 3
    ensures |set u: Choice, c: Choice | Resolve(u, c) == Tie :: (u, c)| == 3
  {
    assert (set u: Choice, c: Choice | Resolve(u, c) == UserWin :: (u, c))
        == {(Rock, Scissors), (Paper, Rock), (Scissors, Paper)};
    assert (set u: Choice, c: Choice | Resolve(u, c) == ComputerWin :: (u, c))
        == {(Scissors, Rock), (Rock, Paper), (Paper, Scissors)};
    assert (set u: Choice, c: Choice | Resolve(u, c) == Tie :: (u, c))
        == {(Rock, Rock), (Paper, Paper), (Scissors, Scissors)};
  }

  /** No choice label holds a `w` or an `l`, so neither can start a false match
      for "win" or "lose" inside a message. */
  lemma NamesHaveNoWOrL(c: Choice)
    ensures 'w' !in Name(c) && 'l' !in Name(c)
  {
  }

  /** The win message contains "win". */
  lemma WinMessageReadsAsWin(user: Choice, computer: Choice)
    ensures Occurs(WinMessage(user, computer), "win")
  {
    var m := WinMessage(user, computer);
    assert m[4..7] == "win";
    assert OccursAt(m, "win", 4);
  }

  /** The lose message contains "lose" and not "win". */
  lemma LoseMessageReadsAsLoss(user: Choice, computer: Choice)
    ensures Occurs(LoseMessage(user, computer), "lose")
    ensures !Occurs(LoseMessage(user, computer), "win")
  {
    var m := LoseMessage(user, computer);
    assert m[4..8] == "lose";
    assert OccursAt(m, "lose", 4);
    NamesHaveNoWOrL(user);
    NamesHaveNoWOrL(computer);
    assert 'w' !in "You lose this round! " && 'w' !in " beats ";
    assert 'w' !in m;
    AbsentWithoutFirstChar(m, "win");
  }

  /** The tie message contains neither "win" nor "lose". */
  lemma TieMessageReadsAsTie()
    ensures !Occurs(TieMessage, "win")
    ensures !Occurs(TieMessage, "lose")
  {
    assert 'w' !in TieMessage && 'l' !in TieMessage;
    AbsentWithoutFirstChar(TieMessage, "win");
    AbsentWithoutFirstChar(TieMessage, "lose");
  }

  /** Reading the message of `determine_winner` with the two substring tests
      of the round handler recovers the reference outcome: "win" exactly on a
      user win, and, failing that, "lose" exactly on a computer win. */
  lemma ClassificationAgrees(user: Choice, computer: Choice)
    ensures Occurs(DetermineWinner(user, computer), "win")
            <==> Resolve(user, computer) == UserWin
    ensures !Occurs(DetermineWinner(user, computer), "win")
            && Occurs(DetermineWinner(user, computer), "lose")
            <==> Resolve(user, computer) == ComputerWin
  {
    DetermineWinnerFollowsRule(user, computer);
    match Resolve(user, computer)
    case UserWin => WinMessageReadsAsWin(user, computer);
    case ComputerWin => LoseMessageReadsAsLoss(user, computer);
    case Tie => TieMessageReadsAsTie();
  }
}
