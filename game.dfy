/** One round of the game across both screens, sharing the log through
    storage: the player asks, the operator answers, the AI answers, the
    pair is revealed, and the player's guess of the human is resolved. */
module Game {
  import opened Wrappers
  import opened ChatLog
  import opened Usernames
  import opened MainChat
  import opened HumanPage

  const Prompt: string := "What is your favorite color?"
  const HumanAnswer: string := "blue"
  const AiAnswer: string := "Blue."

  /** Neither the prompt nor the operator's answer is white space. */
  lemma RoundTextsNotBlank()
    ensures !IsBlank(Prompt) && !IsBlank(HumanAnswer)
  {
    assert !IsJsSpace(Prompt[0]);
    assert !IsJsSpace(HumanAnswer[0]);
  }

  /** From a fresh start the player asks: the prompt is taken and the screen
      waits, under a freshly generated pair of distinct pseudonyms. */
  method Ask(draws: seq<seq<int>>) returns (main: MainScreen)
    requires DrawsOk(draws)
    ensures fresh(main)
    ensures main.log == [Turn(Prompt, User, None, None)]
    ensures main.waiting && main.pending == NoPending
    ensures main.anon.first != "" && main.anon.second != "" && main.anon.first != main.anon.second
  {
    main := new MainScreen([], None, draws);
    GeneratedPairShape(main.anon, draws);
    RoundTextsNotBlank();
    var sent := main.Send(Prompt);
  }

  /** The operator, whose gate the prompt opened, answers before the AI
      does, and that shuts the gate. */
  method Answer(asked: seq<Turn>, humanPicks: seq<int>, aiPicks: seq<int>) returns (operator: HumanScreen)
    requires ValidPicks(humanPicks) && ValidPicks(aiPicks)
    requires asked == [Turn(Prompt, User, None, None)]
    ensures fresh(operator)
    ensures operator.log == asked + [Turn(HumanAnswer, Human, None, Some(operator.humanUsername))]
    ensures !CanRespond(operator.log)
  {
    operator := new HumanScreen(asked, None, None, humanPicks, aiPicks);
    PromptOpensGate([], asked[0]);
    assert [] + [asked[0]] == asked;
    RoundTextsNotBlank();
    var replied := operator.Send(HumanAnswer);
  }

  /** The first half of the round: the player asks, the operator answers,
      and the main screen sees the answer through storage; its human slot is
      still empty. */
  method AskAndAnswer(draws: seq<seq<int>>, humanPicks: seq<int>, aiPicks: seq<int>)
    returns (main: MainScreen, operator: HumanScreen)
    requires DrawsOk(draws) && ValidPicks(humanPicks) && ValidPicks(aiPicks)
    ensures fresh(main) && fresh(operator)
    ensures main.log == operator.log ==
      [Turn(Prompt, User, None, None), Turn(HumanAnswer, Human, None, Some(operator.humanUsername))]
    ensures main.waiting && main.pending == NoPending
    ensures main.anon.first != "" && main.anon.second != "" && main.anon.first != main.anon.second
    ensures !CanRespond(operator.log)
  {
    main := Ask(draws);
    operator := Answer(main.log, humanPicks, aiPicks);
    main.Reload(operator.log);
  }

  /** While waiting with both slots empty and a human reply already after
      the last prompt: an effect run before the AI answers changes nothing,
      the AI outcome fills the AI slot, and the next run picks the human reply
      up. */
  method CollectReplies(main: MainScreen, outcome: AiOutcome, j: int)
    requires 0 <= j <= 1
    requires main.waiting && main.pending == NoPending
    requires FindHumanAfter(main.log, LastIndexOf(main.log, User)) != -1
    modifies main
    ensures main.log == old(main.log) && main.anon == old(main.anon) && main.waiting
    ensures main.pending ==
      Pending(Some(AiText(outcome)), Some(main.log[FindHumanAfter(main.log, LastIndexOf(main.log, User))].text))
  {
    main.Effect(j);
    main.AiReply(outcome);
    main.Effect(j);
  }

  /** With both slots set, the next run reveals the pair, and a guess of
      `anonUsernames[1]` is right. */
  method RevealAndGuess(main: MainScreen, j: int)
    requires 0 <= j <= 1
    requires main.waiting && main.pending.ai.Some? && main.pending.human.Some?
    requires main.anon.first != "" && main.anon.second != "" && main.anon.first != main.anon.second
    modifies main
    ensures main.log == Revealed(old(main.log), old(main.pending).ai.value, old(main.pending).human.value, main.anon, j)
    ensures !main.waiting && main.pending == NoPending
    ensures main.guessResult == Some(true)
  {
    var names := main.anon;
    ghost var before := main.log;
    ghost var aiText, humanText := main.pending.ai.value, main.pending.human.value;
    main.Effect(j);
    ghost var after := main.log;
    assert after == Revealed(before, aiText, humanText, names, j);
    RevealedPair(before, aiText, humanText, names, j);
    assert GuessOutcome(after, names.second) == Some(true);
    main.HandleGuess(names.second);
  }

  /** The log the join writes for this round, and the guess it settles. */
  lemma RoundRevealed(operatorName: string, names: AnonPair, j: int)
    requires 0 <= j <= 1
    requires names.first != "" && names.second != "" && names.first != names.second
    ensures var answered := [Turn(Prompt, User, None, None), Turn(HumanAnswer, Human, None, Some(operatorName))];
      var r := Revealed(answered, AiAnswer, HumanAnswer, names, j);
      |r| == 3 && r[0] == Turn(Prompt, User, None, None) &&
      (r[1..] == [Turn(AiAnswer, Ai, Some(names.first), None),
                  Turn(HumanAnswer, Human, Some(names.second), None)] ||
       r[1..] == [Turn(HumanAnswer, Human, Some(names.second), None),
                  Turn(AiAnswer, Ai, Some(names.first), None)]) &&
      GuessOutcome(r, names.second) == Some(true)
  {
    var answered := [Turn(Prompt, User, None, None), Turn(HumanAnswer, Human, None, Some(operatorName))];
    LastIndexOfConcat([answered[0]], answered[1..], User);
    assert [answered[0]] + answered[1..] == answered;
    assert LastIndexOf(answered, User) == 0;
    RevealedShape(answered, AiAnswer, HumanAnswer, names, j);
    RevealedPair(answered, AiAnswer, HumanAnswer, names, j);
  }

  /** After the operator's answer the last prompt is at 0 and the human
      reply after it at 1. */
  lemma RoundAnswered(operatorName: string)
    ensures var answered := [Turn(Prompt, User, None, None), Turn(HumanAnswer, Human, None, Some(operatorName))];
      LastIndexOf(answered, User) == 0 && FindHumanAfter(answered, 0) == 1
  {
    var answered := [Turn(Prompt, User, None, None), Turn(HumanAnswer, Human, None, Some(operatorName))];
    LastIndexOfConcat([answered[0]], answered[1..], User);
    assert [answered[0]] + answered[1..] == answered;
  }

  /** The whole round: the operator answers first, the AI's "Blue." arrives
      later, both replies are revealed in the shuffled order, and the guess
      of the human's pseudonym is right. */
  method FavouriteColourRound(draws: seq<seq<int>>, humanPicks: seq<int>, aiPicks: seq<int>, j: int)
    returns (main: MainScreen, operator: HumanScreen)
    requires DrawsOk(draws) && ValidPicks(humanPicks) && ValidPicks(aiPicks) && 0 <= j <= 1
    ensures main.log == Revealed([Turn(Prompt, User, None, None),
                                  Turn(HumanAnswer, Human, None, Some(operator.humanUsername))],
                                 AiAnswer, HumanAnswer, main.anon, j)
    ensures !main.waiting && main.pending == NoPending && main.guessResult == Some(true)
  {
    main, operator := AskAndAnswer(draws, humanPicks, aiPicks);
    RoundAnswered(operator.humanUsername);
    CollectReplies(main, Reply(AiAnswer), j);
    RevealAndGuess(main, j);
  }
}
