# The Imitation Game, modelled in Dafny

The Imitation Game is a two-screen browser game. On the main screen a player
sends a prompt. The screen waits for two answers: one from an AI
chat-completion service and one typed by a human operator on a second
screen. Both screens share one chat log through browser storage. When both
answers are in, they are revealed under two pseudonyms in shuffled order,
and the player guesses which pseudonym is the human.

This project models the game logic of the two screens and of the pseudonym
generator:

- `Wrappers` (wrappers.dfy) holds the optional value that stands for
  `null`/`undefined`.
- `ChatLog` (chat_log.dfy) holds the shared log: `Turn` records with an
  origin (`User`, `Ai`, `Human`), `lastIndexOf` over the origins, and
  JavaScript's `trim`.
- `Usernames` (usernames.dfy) models `getRandomUsername`: a prefix
  (default `"user"`) followed by four letters A–Z. The four `Math.random`
  draws are passed in as letter indices.
- `MainChat` (main_chat.dfy) models the guesser's screen:
  - the response-pair lookup, `canGuess` and the guess check, as functions
    with lemmas relating them to positions in the log;
  - the Fisher–Yates shuffle, as an in-place array method proved against a
    specification function;
  - the do–while that draws two distinct pseudonyms;
  - class `MainScreen`, holding the `messages`, `waiting`,
    `pendingResponses`, `anonUsernames` and guess-result state, with one
    method per handler.
- `HumanPage` (human_page.dfy) models the operator's screen: the
  `canRespond` gate, the cached pseudonym initialisers, and class
  `HumanScreen` with its send, reset and storage-reload handlers.
- `Game` (game.dfy) plays one full round across both screens: the
  favourite-colour exchange. It shows that the handlers compose. The
  operator answers first, the AI answers later, two effect runs reveal the
  pair, and a guess of `anonUsernames[1]` is right.

Randomness is a parameter throughout:

- letter picks lie in [0, 26);
- each shuffle pick `j` for step `i` lies in [0, i];
- the AI call is an `AiOutcome`: either the reply text or a failure, which
  puts the fixed fallback text `"⚠️ AI error. Try again."` in the AI slot.

Three points of the code shape the model:

- **When the human slot fills.** The join effect takes the human answer
  only once the AI slot is set (src/components/MainChat.jsx:92-99). With the
  operator answering first, the reveal therefore needs two effect runs after
  the AI answer: one to pick up the human answer and one to reveal
  (`Game.CollectReplies`, `Game.RevealAndGuess`).
- **Which pseudonym goes to whom.** The code always gives the AI reply
  `anonUsernames[0]` and the human reply `anonUsernames[1]`. Only the
  display order is shuffled. The model keeps that: `MainChat.RevealedPair`
  proves that the human's pseudonym is always the second one.
- **What reset clears.** The main screen's reset removes the stored log and
  writes a fresh pair to storage (src/components/MainChat.jsx:49-66). The
  operator's reset removes only the log (src/components/HumanPage.jsx:57-62).
  Neither reset touches the cached operator or AI names.

## Model

| member | source | states |
|---|---|---|
| ChatLog.LastIndexOf | src/components/MainChat.jsx:71 | the result is -1 or a position holding a turn from `o`, and no later turn is from `o`: `lastIndexOf` over the mapped origins |
| ChatLog.LastIndexOfConcat | src/components/MainChat.jsx:112-113 | the last `o` turn of `a + b` is the last one in `b` (shifted by the length of `a`) when `b` has one, otherwise the last one in `a` |
| ChatLog.TrimStart | src/components/MainChat.jsx:123 | the result is a suffix of the input, only white space was dropped, and it does not start with white space |
| ChatLog.TrimEnd | src/components/MainChat.jsx:123 | the result is a prefix of the input, only white space was dropped, and it does not end with white space |
| ChatLog.TrimEmptyIff | src/components/MainChat.jsx:123 | `!input.trim()` holds exactly when the input is white space only (the empty string included) |
| ChatLog.Trim | src/components/MainChat.jsx:123 | `trim` as TrimStart then TrimEnd, whose contracts fix it; TrimEmptyIff states when it is empty |
| Usernames.Letters | src/utils/getRandomUsername.js:3-7 | the suffix has one character per pick, and character k is the alphabet letter picked by pick k |
| Usernames.UsernameOf | src/utils/getRandomUsername.js:8 | the name returned for a prefix and picks, computed only; `RandomUsername` is proved equal to it, and UsernameShape and UsernameInjective state its shape and that it determines the picks |
| Usernames.RandomUsername | src/utils/getRandomUsername.js:2-9 | the loop that appends one letter per step returns the prefix followed by the letters of the picks |
| Usernames.UsernameShape | src/utils/getRandomUsername.js:2-8 | a generated name starts with the prefix, is exactly four characters longer, and every suffix character is one of A–Z |
| Usernames.UsernameInjective | src/utils/getRandomUsername.js:5-8 | equal names come from equal picks, so the do–while's comparison of names compares the draws |
| MainChat.TaggedTurns | src/components/MainChat.jsx:73 | `filter(m => m.anon)` keeps no more turns than it is given, and every kept turn has a non-empty pseudonym |
| MainChat.TaggedTurnsSplit | src/components/MainChat.jsx:73 | the filter starts with the first tagged turn and then filters what follows it; with no tagged turn it is empty |
| MainChat.HumanTagOfTagged | src/components/MainChat.jsx:78 | `find` on the filtered turns returns the tag of the first tagged human turn, or nothing when there is none |
| MainChat.FirstTwoOfTagged | src/components/MainChat.jsx:73-77 | the first two filtered turns are the turns at the first and the second tagged positions |
| MainChat.TwoTaggedIff | src/components/MainChat.jsx:73-74 | the filter keeps at least two turns exactly when two tagged turns exist |
| MainChat.TwoTaggedAfterSlice | src/components/MainChat.jsx:73 | two tagged turns after position `lo` are two tagged turns of `slice(lo + 1)`, and the reverse |
| MainChat.LatestPairNoneIff | src/components/MainChat.jsx:71-74 | there is no pair exactly when fewer than two tagged turns follow the last prompt |
| MainChat.NoTaggedBetween | src/components/MainChat.jsx:73 | between the first tagged turn and the next tagged turn no turn is tagged |
| MainChat.FirstTwoOfTaggedAt | src/components/MainChat.jsx:73-77 | when the filter keeps two turns, they sit at the first two tagged positions of the slice |
| MainChat.FirstTwoTaggedShift | src/components/MainChat.jsx:73 | the first two tagged positions of the slice after `lo` are the first two tagged positions after `lo` in the log, shifted by `lo + 1` |
| MainChat.LatestPairAnons | src/components/MainChat.jsx:73-77 | a pair offers the tags of the first and the second tagged turns after the last prompt, in log order |
| MainChat.HumanTagAt | src/components/MainChat.jsx:78 | `find` over the filtered slice is absent exactly when no tagged human turn exists; otherwise it is the tag of the first one |
| MainChat.NoTaggedHumanShift | src/components/MainChat.jsx:73-78 | "no tagged human turn after `lo`" means the same on the log and on the slice after `lo` |
| MainChat.TaggedHumanShift | src/components/MainChat.jsx:73-78 | the first tagged human turn of the slice is the first tagged human turn after `lo` in the log |
| MainChat.WhichIsHumanNone | src/components/MainChat.jsx:78 | `whichIsHuman` is absent exactly when no tagged human turn follows the last prompt |
| MainChat.WhichIsHumanSome | src/components/MainChat.jsx:78 | when present, `whichIsHuman` is the tag of the first tagged human turn after the last prompt |
| MainChat.AfterLastUser | src/components/MainChat.jsx:71-73 | `messages.slice(lastUserIdx + 1)`, computed only; NoPromptScansWholeLog shows it is the whole log when there is no prompt, and TwoTaggedAfterSlice, FirstTwoTaggedShift, NoTaggedHumanShift and TaggedHumanShift relate its positions to the positions after the last prompt |
| MainChat.Responses | src/components/MainChat.jsx:73 | the `responses` array, computed only; TwoTaggedIff and FirstTwoOfTaggedAt show it holds two turns exactly when two tagged turns exist, and its first two are the turns at the first two tagged positions |
| MainChat.HumanTag | src/components/MainChat.jsx:78 | `responses.find(r => r.from === 'human')?.anon`, computed only; HumanTagOfTagged and HumanTagAt show it is the tag of the first tagged human turn, absent exactly when there is none |
| MainChat.LatestResponsePair | src/components/MainChat.jsx:69-80 | getLatestResponsePair, computed only; LatestPairNoneIff (no pair exactly when fewer than two tagged turns follow the last prompt), LatestPairAnons (the tags of the first two tagged turns after it, in log order), WhichIsHumanNone and WhichIsHumanSome (the tag of the first tagged human turn after it, absent exactly when there is none) state what it returns |
| MainChat.CanGuess | src/components/MainChat.jsx:83 | the guess buttons show exactly when the log has a prompt and two tagged turns follow the last prompt |
| MainChat.GuessOutcome | src/components/MainChat.jsx:154-157 | the result handleGuess records, computed only; GuessCorrectIff shows it is absent exactly when there is no pair and true exactly when the choice is the tag of the first tagged human turn after the last prompt |
| MainChat.GuessCorrectIff | src/components/MainChat.jsx:154-157 | a guess is a no-op exactly when no pair exists; it is right exactly when a pair exists and the chosen tag is the tag of the first tagged human turn after the last prompt |
| MainChat.NoPromptScansWholeLog | src/components/MainChat.jsx:71-73 | with no prompt in the log, `lastIndexOf` gives -1 and the whole log is filtered |
| MainChat.Swap | src/components/MainChat.jsx:110 | the destructuring swap exchanges positions `i` and `j` and leaves every other position alone |
| MainChat.SwapPermutes | src/components/MainChat.jsx:110 | a swap keeps the same elements |
| MainChat.ShuffleDown | src/components/MainChat.jsx:108-111 | the remaining loop steps keep the length |
| MainChat.ShuffleDownPermutes | src/components/MainChat.jsx:108-111 | the remaining loop steps keep the same elements |
| MainChat.Shuffled | src/components/MainChat.jsx:108-111 | the whole descending loop as a function; ShuffledPermutes shows it is a permutation, ShufflePairOrders which order each pick gives on a pair, and `Shuffle` is proved equal to it |
| MainChat.ShuffledPermutes | src/components/MainChat.jsx:108-111 | the whole shuffle yields a permutation of its input |
| MainChat.ShufflePairOrders | src/components/MainChat.jsx:108-111 | on two responses, pick 0 swaps them and pick 1 keeps them, so each order comes from exactly one pick |
| MainChat.Shuffle | src/components/MainChat.jsx:108-111 | the in-place descending loop leaves the array holding the shuffle of its old contents, a permutation of them |
| MainChat.Exchange | src/components/MainChat.jsx:110 | the array swap leaves the array holding `Swap` of its old contents |
| MainChat.NewAnonPair | src/components/MainChat.jsx:38-43 | the do–while returns the first draw's name and the name of the first later draw that differs from it |
| MainChat.GeneratedPairShape | src/components/MainChat.jsx:38-43 | the two generated pseudonyms differ, and each is "user" followed by four letters A–Z |
| MainChat.AiText | src/components/MainChat.jsx:143-148 | the text put in the AI slot: the reply, or the fixed fallback text when the call failed; `MainScreen.AiReply` stores it |
| MainChat.ResponseTurns | src/components/MainChat.jsx:103-106 | the `responses` array before the shuffle, computed only; RevealedShape and RevealedPair state what the join makes of it |
| MainChat.Revealed | src/components/MainChat.jsx:112-113 | the spliced log, computed only; RevealedShape (prefix kept up to the last prompt, length lastUserIdx + 3, tail a permutation of the two replies) and RevealedPair (the guess it sets up) state what it is |
| MainChat.LastIndexOfAppend | src/components/MainChat.jsx:112-113 | appending non-prompt turns right after the last prompt leaves the last prompt where it was |
| MainChat.ShuffledResponses | src/components/MainChat.jsx:103-111 | the shuffled responses are `[human, ai]` for pick 0 and `[ai, human]` for pick 1 |
| MainChat.RevealedShape | src/components/MainChat.jsx:101-113 | the join keeps the log up to and including the last prompt, and replaces the rest with exactly two turns, a permutation of the AI reply under `anonUsernames[0]` and the human reply under `anonUsernames[1]` |
| MainChat.PairAfterPrompt | src/components/MainChat.jsx:69-80 | two tagged non-prompt turns right after the last prompt form the pair, in their order, with the human's tag |
| MainChat.HumanTagOfReplies | src/components/MainChat.jsx:78 | among one AI turn and one human turn, in either order, `find` returns the human turn's tag |
| MainChat.RevealedPair | src/components/MainChat.jsx:101-117 | after the join with two distinct non-empty pseudonyms, a pair exists, it offers both pseudonyms in one of the two orders, the human's is `anonUsernames[1]` whatever the shuffle did, and guessing it is right while guessing the other is wrong |
| MainChat.Join | src/components/MainChat.jsx:103-113 | building the responses array, shuffling it in place and splicing it after the last prompt gives the revealed log |
| MainChat.MainScreen.constructor | src/components/MainChat.jsx:14-46 | the log comes from storage, the screen is idle with both slots empty, a stored pair is reused while a missing one is generated by the do–while, and the pair in use is the one left in storage |
| MainChat.MainScreen.Send | src/components/MainChat.jsx:121-130 | a prompt is taken exactly when the input is not blank and the screen is not waiting; then exactly one prompt turn is appended, the screen waits and both slots are cleared; otherwise nothing changes |
| MainChat.MainScreen.AiReply | src/components/MainChat.jsx:133-150 | the AI slot gets the reply, or the fallback text on failure, and the human slot is kept |
| MainChat.MainScreen.Effect | src/components/MainChat.jsx:86-119 | when not waiting or with no AI reply nothing changes; with the AI reply and an empty human slot, the slot takes the first human turn after the last prompt when there is one; with both slots set, the log becomes the revealed log, waiting ends and both slots are cleared |
| MainChat.MainScreen.HandleGuess | src/components/MainChat.jsx:154-158 | without a pair the result is unchanged; with one the result is whether the chosen tag is `whichIsHuman` |
| MainChat.MainScreen.Reset | src/components/MainChat.jsx:49-66 | the log is emptied, waiting ends, both slots are cleared, and a fresh distinct pair is generated and written to storage |
| MainChat.Remount | src/components/MainChat.jsx:35-37 | a later mount reads the pair the screen last wrote to storage, so it shows the same two pseudonyms whatever its own random draws |
| MainChat.MainScreen.Reload | src/components/MainChat.jsx:22-27 | on a storage event the log becomes the stored log |
| MainChat.FindHumanAfter | src/components/MainChat.jsx:90 | `findIndex` returns -1 or the first position after `lo` holding a human turn, and no human turn comes between `lo` and it |
| HumanPage.CanRespond | src/components/HumanPage.jsx:26-28 | with no prompt in the log the gate is shut; with a prompt and no human turn it is open |
| HumanPage.CanRespondIff | src/components/HumanPage.jsx:26-28 | the gate is open exactly when some prompt has no human turn after it, that is, when the last prompt comes after the last human turn |
| HumanPage.SendClosesGate | src/components/HumanPage.jsx:28-51 | after a human turn, the gate stays shut whatever non-prompt turns follow |
| HumanPage.PromptOpensGate | src/components/HumanPage.jsx:26-28 | appending a prompt opens the gate, whatever came before |
| HumanPage.LoadUsername | src/components/HumanPage.jsx:31-46 | a stored non-empty name is returned and left in storage; a missing or empty one is replaced by a generated name, which is stored and returned |
| HumanPage.Loaded | src/components/HumanPage.jsx:31-46 | the name an initialiser settles on, computed only; `LoadUsername` is proved equal to it, LoadedIdempotent shows a second load returns it unchanged and LoadedShape gives a generated one's shape |
| HumanPage.LoadedIdempotent | src/components/HumanPage.jsx:31-46 | the name left in storage is non-empty, so the next load returns it unchanged whatever its random picks |
| HumanPage.LoadedShape | src/components/HumanPage.jsx:33-35 | a generated cached name is "user" followed by four letters A–Z |
| HumanPage.HumanScreen.constructor | src/components/HumanPage.jsx:10-46 | the log comes from storage, and each of the two names is loaded or generated and left in storage |
| HumanPage.HumanScreen.Send | src/components/HumanPage.jsx:48-55 | a reply is taken exactly when the input is not blank and the gate is open; then exactly one human turn with the text and the operator's name is appended, which shuts the gate; otherwise nothing changes |
| HumanPage.HumanScreen.Reset | src/components/HumanPage.jsx:57-62 | the log is emptied |
| HumanPage.HumanScreen.Reload | src/components/HumanPage.jsx:15-20 | on a storage event the log becomes the stored log |
| Game.RoundTextsNotBlank | src/components/MainChat.jsx:123 | scenario helper only: the two literal texts of the round, the favourite-colour prompt and "blue", pass the trim guard |
| Game.Ask | src/components/MainChat.jsx:121-130 | from a fresh start, the prompt is taken under two distinct non-empty pseudonyms and the screen waits |
| Game.Answer | src/components/HumanPage.jsx:48-55 | the prompt opens the operator's gate, the answer is appended under the operator's name, and the gate shuts |
| Game.AskAndAnswer | src/components/MainChat.jsx:22-27 | after the storage event, both screens hold the prompt followed by the operator's answer, and the main screen waits with both slots empty |
| Game.RoundAnswered | src/components/MainChat.jsx:89-90 | in that log the last prompt is at 0 and the human answer after it is at 1 |
| Game.CollectReplies | src/components/MainChat.jsx:86-99 | an effect run before the AI answers changes nothing; after the AI answers, one run fills the human slot from the log |
| Game.RevealAndGuess | src/components/MainChat.jsx:101-117 | with both slots set, one effect run reveals the pair, and the guess of `anonUsernames[1]` is right |
| Game.RoundRevealed | src/components/MainChat.jsx:101-117 | the revealed log is the prompt followed by "Blue." under the AI's pseudonym and "blue" under the human's, in one of the two orders, and the guess of the human's pseudonym is right |
| Game.FavouriteColourRound | src/components/MainChat.jsx:86-158 | the whole round ends with the revealed log, the screen idle with both slots empty, and the guess right |

## Left out

- The chat-completion request, its system prompt, the 1200 ms timer and
  console logging (src/components/MainChat.jsx:7-11, 133-150) are external
  I/O. The AI result is an `AiOutcome` parameter, and `MainScreen.AiReply`
  is the timer callback.
- `Math.random` and `Math.floor` are replaced by integer picks passed in,
  with their ranges as preconditions.
- MainChat.NewAnonPair: the do–while stops only with probability 1. The
  model is given a finite list of draws, one of which differs from the
  first, and does not state the loop's probabilistic termination.
- MainChat.ShufflePairOrders: states which order each pick gives, but not
  that the shuffle is uniform; probabilities are not modelled.
- Browser storage (src/utils/storage.js) and JSON parsing: the stored log is
  a `seq<Turn>` passed to the constructors and to `Reload`. Malformed stored
  data is not modelled.
- Cross-tab storage events are modelled only as whole-log replacement
  (`Reload`). Interleavings of writes from the two screens, and lost updates
  between them, are not.
- MainChat.MainScreen.constructor: a stored pseudonym pair is reused as
  stored, without checking that it holds two distinct names, as in the code.
- A late AI reply is not tied to its prompt. `AiReply` sets the AI slot in
  any state, as the code does. No guard discards a reply that arrives after
  a reset or a newer prompt, because the code has none.
- The `input` field and `setInput('')` are not modelled: the text is a
  parameter of each `Send`.
- MainChat.MainScreen.HandleGuess: opening and closing the result modal,
  and clearing the result on close, are rendering state and not modelled.
- Rendering, scrolling, CSS, routing (src/App.jsx) and the operator
  screen's display filter that hides AI turns are not modelled.
- MainChat.MainScreen.Effect: one call is one run of the effect. Re-running
  it on every state change is left to the caller, as in `Game.CollectReplies`.
