/** The guesser's screen (src/components/MainChat.jsx): the player sends a
    prompt, the screen waits for one AI reply and one human reply, reveals
    them under two pseudonyms in shuffled order, and resolves the player's
    guess of which pseudonym is the human. */
module MainChat {
  import opened Wrappers
  import opened ChatLog
  import opened Usernames

  // ---------------------------------------------------------------------
  // Looking up the latest response pair (getLatestResponsePair, canGuess)
  // ---------------------------------------------------------------------

  /** `m.anon` is truthy: a pseudonym is present and is not the empty string. */
  predicate Tagged(t: Turn) {
    t.anon.Some? && t.anon.value != ""
  }

  /** `filter(m => m.anon)`: the tagged turns of `s`, in their order. */
  function TaggedTurns(s: seq<Turn>): (r: seq<Turn>)
    ensures |r| <= |s|
    ensures forall k :: 0 <= k < |r| ==> Tagged(r[k])
  {
    if s == [] then [] else (if Tagged(s[0]) then [s[0]] else []) + TaggedTurns(s[1..])
  }

  /** `messages.slice(lastUserIdx + 1)`: the turns after the last prompt,
      which is the whole log when there is no prompt (-1 + 1 = 0). */
  function AfterLastUser(log: seq<Turn>): seq<Turn> {
    log[LastIndexOf(log, User) + 1..]
  }

  /** `responses`: the tagged turns after the last prompt. */
  function Responses(log: seq<Turn>): seq<Turn> {
    TaggedTurns(AfterLastUser(log))
  }

  /** `responses.find(r => r.from === 'human')?.anon` */
  function HumanTag(rs: seq<Turn>): Option<string> {
    if rs == [] then None
    else if rs[0].from == Human then rs[0].anon
    else HumanTag(rs[1..])
  }

  /** The two pseudonyms offered to the guesser, and the human's one. */
  datatype ResponsePair = ResponsePair(anons: (string, string), whichIsHuman: Option<string>)

  /** getLatestResponsePair: no pair unless at least two tagged turns follow
      the last prompt; otherwise the first two tags and the human's tag. */
  function LatestResponsePair(log: seq<Turn>): Option<ResponsePair> {
    var rs := Responses(log);
    if |rs| < 2 then None
    else Some(ResponsePair((rs[0].anon.value, rs[1].anon.value), HumanTag(rs)))
  }

  /** `s` holds at least two tagged turns. */
  ghost predicate HasTwoTagged(s: seq<Turn>) {
    exists i, j :: 0 <= i < j < |s| && Tagged(s[i]) && Tagged(s[j])
  }

  /** At least two tagged turns follow position `lo`. */
  ghost predicate HasTwoTaggedAfter(log: seq<Turn>, lo: int) {
    exists i, j :: 0 <= i && lo < i < j < |log| && Tagged(log[i]) && Tagged(log[j])
  }

  /** `i` and `j` are the first and the second tagged positions after `lo`. */
  ghost predicate FirstTwoTaggedAt(log: seq<Turn>, lo: int, i: int, j: int) {
    0 <= i && lo < i < j < |log| && Tagged(log[i]) && Tagged(log[j]) &&
    forall k :: 0 <= k && lo < k < j && k != i ==> !Tagged(log[k])
  }

  /** `k` is the first tagged human turn after `lo`. */
  ghost predicate FirstTaggedHumanAt(log: seq<Turn>, lo: int, k: int) {
    0 <= k && lo < k < |log| && Tagged(log[k]) && log[k].from == Human &&
    forall m :: 0 <= m && lo < m < k && Tagged(log[m]) ==> log[m].from != Human
  }

  /** canGuess: the guess buttons show when the log holds a prompt and a
      response pair follows the last prompt. */
  function CanGuess(log: seq<Turn>): (r: bool)
    ensures r <==> LastIndexOf(log, User) >= 0 && HasTwoTaggedAfter(log, LastIndexOf(log, User))
  {
    LatestPairNoneIff(log);
    (exists k :: 0 <= k < |log| && log[k].from == User) && LatestResponsePair(log).Some?
  }

  /** handleGuess: nothing happens without a pair; otherwise the guess is
      right exactly when `choice` is the human's pseudonym. */
  function GuessOutcome(log: seq<Turn>, choice: string): Option<bool> {
    match LatestResponsePair(log)
    case None => None
    case Some(p) => Some(p.whichIsHuman == Some(choice))
  }

  /** Position of the first tagged turn of `s`, or |s| when there is none. */
  function FirstTagged(s: seq<Turn>): (r: nat)
    ensures r <= |s|
    ensures r < |s| ==> Tagged(s[r])
    ensures forall k :: 0 <= k < r ==> !Tagged(s[k])
  {
    if s == [] then 0 else if Tagged(s[0]) then 0 else 1 + FirstTagged(s[1..])
  }

  /** Position of the first tagged human turn of `s`, or |s| when there is none. */
  function FirstTaggedHuman(s: seq<Turn>): (r: nat)
    ensures r <= |s|
    ensures r < |s| ==> Tagged(s[r]) && s[r].from == Human
    ensures forall k :: 0 <= k < r ==> !(Tagged(s[k]) && s[k].from == Human)
  {
    if s == [] then 0
    else if Tagged(s[0]) && s[0].from == Human then 0
    else 1 + FirstTaggedHuman(s[1..])
  }

  /** The filter keeps the first tagged turn first and drops what precedes it. */
  lemma {:induction false} TaggedTurnsSplit(s: seq<Turn>)
    ensures FirstTagged(s) == |s| ==> TaggedTurns(s) == []
    ensures FirstTagged(s) < |s| ==>
      TaggedTurns(s) == [s[FirstTagged(s)]] + TaggedTurns(s[FirstTagged(s) + 1..])
  {
    if s != [] && !Tagged(s[0]) {
      TaggedTurnsSplit(s[1..]);
      var f := FirstTagged(s[1..]);
      if f < |s| - 1 {
        assert s[1..][f + 1..] == s[f + 2..];
      }
    }
  }

  /** `find` on the filtered turns finds the first tagged human turn. */
  lemma {:induction false} HumanTagOfTagged(s: seq<Turn>)
    ensures HumanTag(TaggedTurns(s)) ==
      if FirstTaggedHuman(s) == |s| then None else s[FirstTaggedHuman(s)].anon
  {
    if s != [] {
      HumanTagOfTagged(s[1..]);
      if Tagged(s[0]) {
        assert TaggedTurns(s) == [s[0]] + TaggedTurns(s[1..]);
        assert TaggedTurns(s)[1..] == TaggedTurns(s[1..]);
      } else {
        assert TaggedTurns(s) == TaggedTurns(s[1..]);
      }
    }
  }

  /** The first two elements of the filter, as positions of `s`. */
  lemma FirstTwoOfTagged(s: seq<Turn>)
    ensures var i := FirstTagged(s);
      i < |s| ==>
        var j := i + 1 + FirstTagged(s[i + 1..]);
        (j == |s| ==> TaggedTurns(s) == [s[i]]) &&
        (j < |s| ==> |TaggedTurns(s)| >= 2 && TaggedTurns(s)[0] == s[i] && TaggedTurns(s)[1] == s[j])
  {
    TaggedTurnsSplit(s);
    var i := FirstTagged(s);
    if i < |s| {
      var t := s[i + 1..];
      TaggedTurnsSplit(t);
      if FirstTagged(t) < |t| {
        assert t[FirstTagged(t)] == s[i + 1 + FirstTagged(t)];
      }
    }
  }

  /** The filter keeps at least two turns exactly when two tagged turns exist. */
  lemma TwoTaggedIff(s: seq<Turn>)
    ensures |TaggedTurns(s)| >= 2 <==> HasTwoTagged(s)
  {
    FirstTwoOfTagged(s);
    TaggedTurnsSplit(s);
    var i := FirstTagged(s);
    if i < |s| {
      var t := s[i + 1..];
      var j := i + 1 + FirstTagged(t);
      if j == |s| {
        forall a, b | 0 <= a < b < |s| && Tagged(s[a])
          ensures !Tagged(s[b])
        {
          assert t[b - (i + 1)] == s[b];
        }
      }
    }
  }

  /** Two tagged turns after `lo` are two tagged turns of the slice after `lo`. */
  lemma TwoTaggedAfterSlice(log: seq<Turn>, lo: int)
    requires -1 <= lo < |log|
    ensures HasTwoTaggedAfter(log, lo) <==> HasTwoTagged(log[lo + 1..])
  {
    var s := log[lo + 1..];
    if HasTwoTaggedAfter(log, lo) {
      var a, b :| 0 <= a && lo < a < b < |log| && Tagged(log[a]) && Tagged(log[b]);
      assert s[a - lo - 1] == log[a] && s[b - lo - 1] == log[b];
    }
    if HasTwoTagged(s) {
      var a, b :| 0 <= a < b < |s| && Tagged(s[a]) && Tagged(s[b]);
      var i, j := lo + 1 + a, lo + 1 + b;
      assert s[i - lo - 1] == log[i] && s[j - lo - 1] == log[j];
    }
  }

  /** There is no pair exactly when fewer than two tagged turns follow the
      last prompt (with no prompt, the whole log is searched). */
  lemma LatestPairNoneIff(log: seq<Turn>)
    ensures LatestResponsePair(log).None? <==> !HasTwoTaggedAfter(log, LastIndexOf(log, User))
  {
    var lu := LastIndexOf(log, User);
    TwoTaggedIff(AfterLastUser(log));
    TwoTaggedAfterSlice(log, lu);
  }

  /** Before the first tagged turn after `i`, only `i` itself can be tagged
      (when `i` is the first tagged turn). */
  lemma NoTaggedBetween(s: seq<Turn>, i: nat, j: nat)
    requires i < |s| && i == FirstTagged(s) && j == i + 1 + FirstTagged(s[i + 1..])
    ensures forall k :: 0 <= k < j && k != i ==> !Tagged(s[k])
  {
    var t := s[i + 1..];
    forall k | i < k < j
      ensures !Tagged(s[k])
    {
      assert t[k - i - 1] == s[k];
    }
  }

  /** The first two turns the filter keeps sit at the first two tagged positions. */
  lemma FirstTwoOfTaggedAt(s: seq<Turn>)
    requires |TaggedTurns(s)| >= 2
    ensures exists i, j ::
      FirstTwoTaggedAt(s, -1, i, j) && TaggedTurns(s)[0] == s[i] && TaggedTurns(s)[1] == s[j]
  {
    FirstTwoOfTagged(s);
    TaggedTurnsSplit(s);
    var i := FirstTagged(s);
    var t := s[i + 1..];
    var j := i + 1 + FirstTagged(t);
    NoTaggedBetween(s, i, j);
    assert FirstTwoTaggedAt(s, -1, i, j);
  }

  /** Positions in the slice after `lo` are positions in the log, shifted by lo + 1. */
  lemma FirstTwoTaggedShift(log: seq<Turn>, lo: int, i: int, j: int)
    requires -1 <= lo < |log| && FirstTwoTaggedAt(log[lo + 1..], -1, i, j)
    ensures FirstTwoTaggedAt(log, lo, lo + 1 + i, lo + 1 + j)
    ensures log[lo + 1..][i] == log[lo + 1 + i] && log[lo + 1..][j] == log[lo + 1 + j]
  {
    var s := log[lo + 1..];
    forall k | 0 <= k && lo < k < lo + 1 + j && k != lo + 1 + i
      ensures !Tagged(log[k])
    {
      assert s[k - lo - 1] == log[k];
    }
  }

  /** A pair offers the tags of the first and the second tagged turns after
      the last prompt, in log order. */
  lemma LatestPairAnons(log: seq<Turn>)
    ensures var r := LatestResponsePair(log);
      r.Some? ==>
        exists i, j :: FirstTwoTaggedAt(log, LastIndexOf(log, User), i, j) &&
          r.value.anons == (log[i].anon.value, log[j].anon.value)
  {
    var lu := LastIndexOf(log, User);
    var s := AfterLastUser(log);
    if LatestResponsePair(log).Some? {
      FirstTwoOfTaggedAt(s);
      var i, j :| FirstTwoTaggedAt(s, -1, i, j) &&
        TaggedTurns(s)[0] == s[i] && TaggedTurns(s)[1] == s[j];
      FirstTwoTaggedShift(log, lu, i, j);
    }
  }

  /** No tagged turn after `lo` comes from the human. */
  ghost predicate NoTaggedHumanAfter(log: seq<Turn>, lo: int) {
    forall k :: 0 <= k && lo < k < |log| && Tagged(log[k]) ==> log[k].from != Human
  }

  /** `find` over the filtered turns, stated on positions of `s`. */
  lemma HumanTagAt(s: seq<Turn>)
    ensures HumanTag(TaggedTurns(s)).None? <==> NoTaggedHumanAfter(s, -1)
    ensures HumanTag(TaggedTurns(s)).Some? ==>
      exists k :: FirstTaggedHumanAt(s, -1, k) && HumanTag(TaggedTurns(s)) == s[k].anon
  {
    HumanTagOfTagged(s);
    var h := FirstTaggedHuman(s);
    if h < |s| {
      assert FirstTaggedHumanAt(s, -1, h);
    }
  }

  /** "No tagged human turn after `lo`" read on the log or on the slice. */
  lemma NoTaggedHumanShift(log: seq<Turn>, lo: int)
    requires -1 <= lo < |log|
    ensures NoTaggedHumanAfter(log, lo) <==> NoTaggedHumanAfter(log[lo + 1..], -1)
  {
    var s := log[lo + 1..];
    forall k | 0 <= k < |s|
      ensures s[k] == log[lo + 1 + k]
    {
    }
    forall k | 0 <= k && lo < k < |log|
      ensures log[k] == s[k - lo - 1]
    {
    }
  }

  /** The first tagged human turn of the slice after `lo`, as a position of the log. */
  lemma TaggedHumanShift(log: seq<Turn>, lo: int, k: int)
    requires -1 <= lo < |log| && FirstTaggedHumanAt(log[lo + 1..], -1, k)
    ensures FirstTaggedHumanAt(log, lo, lo + 1 + k) && log[lo + 1..][k] == log[lo + 1 + k]
  {
    var s := log[lo + 1..];
    forall m | 0 <= m && lo < m < lo + 1 + k && Tagged(log[m])
      ensures log[m].from != Human
    {
      assert s[m - lo - 1] == log[m];
    }
  }

  /** `whichIsHuman` is absent exactly when no tagged human turn follows
      the last prompt. */
  lemma WhichIsHumanNone(log: seq<Turn>)
    ensures var r := LatestResponsePair(log);
      r.Some? ==> (r.value.whichIsHuman.None? <==> NoTaggedHumanAfter(log, LastIndexOf(log, User)))
  {
    var lu := LastIndexOf(log, User);
    var s := AfterLastUser(log);
    HumanTagAt(s);
    NoTaggedHumanShift(log, lu);
    assert NoTaggedHumanAfter(log, lu) <==> HumanTag(TaggedTurns(s)).None?;
  }

  /** When present, `whichIsHuman` is the tag of the first tagged human turn
      after the last prompt. */
  lemma WhichIsHumanSome(log: seq<Turn>)
    ensures var r := LatestResponsePair(log);
      r.Some? && r.value.whichIsHuman.Some? ==>
        exists k :: FirstTaggedHumanAt(log, LastIndexOf(log, User), k) && r.value.whichIsHuman == log[k].anon
  {
    var lu := LastIndexOf(log, User);
    var s := AfterLastUser(log);
    var h := HumanTag(TaggedTurns(s));
    HumanTagAt(s);
    if h.Some? {
      var k :| FirstTaggedHumanAt(s, -1, k) && h == s[k].anon;
      TaggedHumanShift(log, lu, k);
      assert FirstTaggedHumanAt(log, lu, lu + 1 + k) && h == log[lu + 1 + k].anon;
    }
  }

  /** The guess is right exactly when a pair exists and `choice` is the tag
      of the first tagged human turn after the last prompt; it is a no-op
      exactly when no pair exists. */
  lemma GuessCorrectIff(log: seq<Turn>, choice: string)
    ensures var lu := LastIndexOf(log, User);
      (GuessOutcome(log, choice).None? <==> !HasTwoTaggedAfter(log, lu)) &&
      (GuessOutcome(log, choice) == Some(true) <==>
         HasTwoTaggedAfter(log, lu) &&
         exists k :: FirstTaggedHumanAt(log, lu, k) && log[k].anon == Some(choice))
  {
    LatestPairNoneIff(log);
    WhichIsHumanNone(log);
    WhichIsHumanSome(log);
    var lu := LastIndexOf(log, User);
    forall k1, k2 | FirstTaggedHumanAt(log, lu, k1) && FirstTaggedHumanAt(log, lu, k2)
      ensures k1 == k2
    {
    }
  }

  /** With no prompt in the log, the whole log is searched for responses. */
  lemma NoPromptScansWholeLog(log: seq<Turn>)
    requires forall k :: 0 <= k < |log| ==> log[k].from != User
    ensures LastIndexOf(log, User) == -1
    ensures Responses(log) == TaggedTurns(log)
  {
    assert log[0..] == log;
  }

  // ---------------------------------------------------------------------
  // Fisher-Yates shuffle of the revealed pair
  // ---------------------------------------------------------------------

  /** The values of `Math.floor(Math.random() * (i + 1))`, one per step `i`
      of the descending loop (position 0 is never used). */
  predicate ValidShufflePicks(picks: seq<int>, n: int) {
    |picks| == n && forall i :: 0 < i < n ==> 0 <= picks[i] <= i
  }

  /** `[responses[i], responses[j]] = [responses[j], responses[i]]` */
  function Swap<T>(s: seq<T>, i: int, j: int): (r: seq<T>)
    requires 0 <= i < |s| && 0 <= j < |s|
    ensures |r| == |s| && r[i] == s[j] && r[j] == s[i]
    ensures forall k :: 0 <= k < |s| && k != i && k != j ==> r[k] == s[k]
  {
    s[i := s[j]][j := s[i]]
  }

  /** A swap keeps the same elements. */
  lemma SwapPermutes<T>(s: seq<T>, i: int, j: int)
    requires 0 <= i < |s| && 0 <= j < |s|
    ensures multiset(Swap(s, i, j)) == multiset(s)
  {
    assert Swap(s, i, j) == s[i := s[j]][j := s[i]];
  }

  /** The loop steps i, i - 1, ..., 1 applied to `s`. */
  function ShuffleDown<T>(s: seq<T>, picks: seq<int>, i: int): (r: seq<T>)
    requires 0 <= i < |s| && ValidShufflePicks(picks, |s|)
    ensures |r| == |s|
    decreases i
  {
    if i == 0 then s else ShuffleDown(Swap(s, i, picks[i]), picks, i - 1)
  }

  /** Each step only swaps, so the steps together keep the same elements. */
  lemma {:induction false} ShuffleDownPermutes<T>(s: seq<T>, picks: seq<int>, i: int)
    requires 0 <= i < |s| && ValidShufflePicks(picks, |s|)
    ensures multiset(ShuffleDown(s, picks, i)) == multiset(s)
    decreases i
  {
    if i > 0 {
      SwapPermutes(s, i, picks[i]);
      ShuffleDownPermutes(Swap(s, i, picks[i]), picks, i - 1);
    }
  }

  /** The whole loop, from i = |s| - 1 down to 1. */
  function Shuffled<T>(s: seq<T>, picks: seq<int>): (r: seq<T>)
    requires ValidShufflePicks(picks, |s|)
  {
    if |s| == 0 then s else ShuffleDown(s, picks, |s| - 1)
  }

  /** The shuffle only swaps: its result is a permutation of its input. */
  lemma ShuffledPermutes<T>(s: seq<T>, picks: seq<int>)
    requires ValidShufflePicks(picks, |s|)
    ensures |Shuffled(s, picks)| == |s| && multiset(Shuffled(s, picks)) == multiset(s)
  {
    if |s| > 0 {
      ShuffleDownPermutes(s, picks, |s| - 1);
    }
  }

  /** On a pair, the one random pick decides the order, and each of its two
      values gives a different one of the two orders. */
  lemma ShufflePairOrders<T>(x: T, y: T)
    ensures Shuffled([x, y], [0, 0]) == [y, x]
    ensures Shuffled([x, y], [0, 1]) == [x, y]
  {
    assert Swap([x, y], 1, 0) == [y, x];
    assert Swap([x, y], 1, 1) == [x, y];
  }

  /** The in-place loop of the join: for (i = n - 1; i > 0; i--) swap
      positions i and picks[i]. */
  method Shuffle<T>(a: array<T>, picks: seq<int>)
    requires ValidShufflePicks(picks, a.Length)
    modifies a
    ensures a[..] == Shuffled(old(a[..]), picks)
    ensures multiset(a[..]) == multiset(old(a[..]))
  {
    ghost var goal := Shuffled(a[..], picks);
    ShuffledPermutes(a[..], picks);
    if a.Length == 0 {
      return;
    }
    var i := a.Length - 1;
    while i > 0
      invariant 0 <= i < a.Length
      invariant ShuffleDown(a[..], picks, i) == goal
    {
      Exchange(a, i, picks[i]);
      i := i - 1;
    }
  }

  /** `[a[i], a[j]] = [a[j], a[i]]` on the array. */
  method Exchange<T>(a: array<T>, i: int, j: int)
    requires 0 <= i < a.Length && 0 <= j < a.Length
    modifies a
    ensures a[..] == Swap(old(a[..]), i, j)
  {
    a[i], a[j] := a[j], a[i];
  }

  // ---------------------------------------------------------------------
  // The anonymous pair (useState initialiser and handleReset)
  // ---------------------------------------------------------------------

  /** The two pseudonyms of a game: `anonUsernames[0]` and `anonUsernames[1]`. */
  datatype AnonPair = AnonPair(first: string, second: string)

  predicate AllDrawsValid(draws: seq<seq<int>>) {
    forall k :: 0 <= k < |draws| ==> ValidPicks(draws[k])
  }

  /** The letter picks of successive getRandomUsername calls, long enough
      for the regeneration loop to stop: some later draw differs from the first. */
  predicate DrawsOk(draws: seq<seq<int>>) {
    |draws| >= 2 && AllDrawsValid(draws) && exists k :: 1 <= k < |draws| && draws[k] != draws[0]
  }

  /** `pair` is what the do-while produces: the first name from draw 0, the
      second from the first later draw whose name differs from it. */
  ghost predicate IsGeneratedPair(pair: AnonPair, draws: seq<seq<int>>)
    requires AllDrawsValid(draws)
  {
    |draws| >= 1 &&
    pair.first == UsernameOf(DefaultPrefix, draws[0]) &&
    pair.second != pair.first &&
    exists k :: 1 <= k < |draws| && pair.second == UsernameOf(DefaultPrefix, draws[k]) &&
      forall m :: 1 <= m < k ==> UsernameOf(DefaultPrefix, draws[m]) == pair.first
  }

  /** anon1 = getRandomUsername(); do { anon2 = getRandomUsername() } while (anon2 === anon1) */
  method NewAnonPair(draws: seq<seq<int>>) returns (pair: AnonPair)
    requires DrawsOk(draws)
    ensures IsGeneratedPair(pair, draws)
  {
    var anon1 := RandomUsername(DefaultPrefix, draws[0]);
    var k := 1;
    var anon2 := RandomUsername(DefaultPrefix, draws[k]);
    while anon2 == anon1
      invariant 1 <= k < |draws|
      invariant anon2 == UsernameOf(DefaultPrefix, draws[k])
      invariant forall m :: 1 <= m < k ==> UsernameOf(DefaultPrefix, draws[m]) == anon1
      invariant exists m :: k <= m < |draws| && draws[m] != draws[0]
      decreases |draws| - k
    {
      UsernameInjective(DefaultPrefix, draws[k], draws[0]);
      k := k + 1;
      anon2 := RandomUsername(DefaultPrefix, draws[k]);
    }
    pair := AnonPair(anon1, anon2);
  }

  /** A generated pair holds two distinct names, each "user" followed by
      four letters A-Z. */
  lemma GeneratedPairShape(pair: AnonPair, draws: seq<seq<int>>)
    requires AllDrawsValid(draws) && IsGeneratedPair(pair, draws)
    ensures pair.first != pair.second
    ensures IsUsername(DefaultPrefix, pair.first) && IsUsername(DefaultPrefix, pair.second)
  {
    UsernameShape(DefaultPrefix, draws[0]);
    var k :| 1 <= k < |draws| && pair.second == UsernameOf(DefaultPrefix, draws[k]);
    UsernameShape(DefaultPrefix, draws[k]);
  }

  // ---------------------------------------------------------------------
  // The prompt cycle (handleSend, the AI timer, the join effect)
  // ---------------------------------------------------------------------

  /** `pendingResponses`: the AI reply and the human reply collected so far. */
  datatype Pending = Pending(ai: Option<string>, human: Option<string>)

  const NoPending: Pending := Pending(None, None)

  /** What the chat-completion call gave: a reply, or an error. */
  datatype AiOutcome = Reply(text: string) | Failed

  /** The text put in the AI slot when the call fails. */
  const AiFallback: string := "\U{26A0}\U{FE0F} AI error. Try again."

  function AiText(outcome: AiOutcome): string {
    match outcome
    case Reply(text) => text
    case Failed => AiFallback
  }

  /** `responses` before the shuffle: the AI reply always under
      `anonUsernames[0]`, the human reply always under `anonUsernames[1]`. */
  function ResponseTurns(aiText: string, humanText: string, anon: AnonPair): seq<Turn> {
    [Turn(aiText, Ai, Some(anon.first), None), Turn(humanText, Human, Some(anon.second), None)]
  }

  /** The log the join writes: everything up to and including the last
      prompt, then the shuffled pair. */
  function Revealed(log: seq<Turn>, aiText: string, humanText: string, anon: AnonPair, j: int): seq<Turn>
    requires 0 <= j <= 1
  {
    log[..LastIndexOf(log, User) + 1] + Shuffled(ResponseTurns(aiText, humanText, anon), [0, j])
  }

  /** Appending turns that are not from `o` after a turn from `o` (or to an
      empty log) leaves the last `o` turn where it was. */
  lemma {:induction false} LastIndexOfAppend(log: seq<Turn>, tail: seq<Turn>, o: Origin)
    requires |log| == 0 || log[|log| - 1].from == o
    requires forall k :: 0 <= k < |tail| ==> tail[k].from != o
    ensures LastIndexOf(log + tail, o) == |log| - 1
  {
    if tail == [] {
      assert log + tail == log;
    } else {
      var all := log + tail;
      assert all[..|all| - 1] == log + tail[..|tail| - 1];
      LastIndexOfAppend(log, tail[..|tail| - 1], o);
    }
  }

  /** The shuffled pair is one of the two orders, chosen by the pick. */
  lemma ShuffledResponses(aiText: string, humanText: string, anon: AnonPair, j: int)
    requires 0 <= j <= 1
    ensures var pair := ResponseTurns(aiText, humanText, anon);
      Shuffled(pair, [0, j]) == if j == 0 then [pair[1], pair[0]] else pair
  {
    var pair := ResponseTurns(aiText, humanText, anon);
    ShufflePairOrders(pair[0], pair[1]);
    assert [pair[0], pair[1]] == pair;
  }

  /** The join keeps the log up to the last prompt, replaces the rest by
      exactly two turns, and those are the AI reply and the human reply in
      one of the two orders. */
  lemma RevealedShape(log: seq<Turn>, aiText: string, humanText: string, anon: AnonPair, j: int)
    requires 0 <= j <= 1
    ensures var lu := LastIndexOf(log, User);
      var r := Revealed(log, aiText, humanText, anon, j);
      var pair := ResponseTurns(aiText, humanText, anon);
      |r| == lu + 3 && r[..lu + 1] == log[..lu + 1] &&
      (r[lu + 1..] == pair || r[lu + 1..] == [pair[1], pair[0]]) &&
      multiset(r[lu + 1..]) == multiset(pair)
  {
    var lu := LastIndexOf(log, User);
    var pair := ResponseTurns(aiText, humanText, anon);
    var sh := Shuffled(pair, [0, j]);
    ShuffledResponses(aiText, humanText, anon, j);
    ShuffledPermutes(pair, [0, j]);
    AppendSplit(log[..lu + 1], sh);
  }

  /** A concatenation splits back into its two parts. */
  lemma AppendSplit(pre: seq<Turn>, tail: seq<Turn>)
    ensures (pre + tail)[..|pre|] == pre && (pre + tail)[|pre|..] == tail
  {
  }

  /** Two tagged replies right after the last prompt form the pair, in
      their order, and the human's tag is the one on the human turn. */
  lemma PairAfterPrompt(pre: seq<Turn>, a: Turn, b: Turn)
    requires |pre| == 0 || pre[|pre| - 1].from == User
    requires a.from != User && b.from != User && Tagged(a) && Tagged(b)
    ensures LatestResponsePair(pre + [a, b]) ==
      Some(ResponsePair((a.anon.value, b.anon.value), HumanTag([a, b])))
  {
    LastIndexOfAppend(pre, [a, b], User);
    AppendSplit(pre, [a, b]);
    assert AfterLastUser(pre + [a, b]) == [a, b];
    assert [a, b][1..] == [b];
    assert [b][1..] == [];
    assert TaggedTurns([a, b]) == [a, b];
  }

  /** The human's tag among an AI turn and a human turn, in either order. */
  lemma HumanTagOfReplies(ai: Turn, human: Turn)
    requires ai.from == Ai && human.from == Human
    ensures HumanTag([ai, human]) == human.anon && HumanTag([human, ai]) == human.anon
  {
    assert [ai, human][1..] == [human];
  }

  /** After the join, the guesser is offered both pseudonyms (in the shuffled
      order) and the human's is always `anonUsernames[1]`, whatever the shuffle
      did; guessing it is right, guessing the other is wrong. */
  lemma RevealedPair(log: seq<Turn>, aiText: string, humanText: string, anon: AnonPair, j: int)
    requires 0 <= j <= 1
    requires anon.first != "" && anon.second != "" && anon.first != anon.second
    ensures var r := Revealed(log, aiText, humanText, anon, j);
      var p := LatestResponsePair(r);
      p.Some? && p.value.whichIsHuman == Some(anon.second) &&
      (p.value.anons == (anon.first, anon.second) || p.value.anons == (anon.second, anon.first)) &&
      GuessOutcome(r, anon.second) == Some(true) &&
      GuessOutcome(r, anon.first) == Some(false)
  {
    var lu := LastIndexOf(log, User);
    var pre := log[..lu + 1];
    var a := Turn(aiText, Ai, Some(anon.first), None);
    var h := Turn(humanText, Human, Some(anon.second), None);
    ShuffledResponses(aiText, humanText, anon, j);
    HumanTagOfReplies(a, h);
    if j == 0 {
      PairAfterPrompt(pre, h, a);
    } else {
      PairAfterPrompt(pre, a, h);
    }
  }

  /** The join's new log: the turns up to the last prompt, then the two
      replies under their pseudonyms, shuffled in place with pick `j`. */
  method Join(log: seq<Turn>, aiText: string, humanText: string, anon: AnonPair, j: int)
    returns (r: seq<Turn>)
    requires 0 <= j <= 1
    ensures r == Revealed(log, aiText, humanText, anon, j)
  {
    var responses := new Turn[] [Turn(aiText, Ai, Some(anon.first), None),
                                 Turn(humanText, Human, Some(anon.second), None)];
    assert responses[..] == ResponseTurns(aiText, humanText, anon);
    Shuffle(responses, [0, j]);
    var lu := LastIndexOf(log, User);
    r := log[..lu + 1] + responses[..];
  }

  // ---------------------------------------------------------------------
  // The screen's state
  // ---------------------------------------------------------------------

  /** The state MainChat keeps: `messages` (mirrored to storage on every
      write), `waiting`, `pendingResponses`, `anonUsernames`, the last guess
      result, and the pair as last written to storage. */
  class MainScreen {
    var log: seq<Turn>
    var waiting: bool
    var pending: Pending
    var anon: AnonPair
    var guessResult: Option<bool>
    var storedAnon: Option<AnonPair>

    /** Mounting: the log comes from storage; a stored anonymous pair is
        reused, otherwise a fresh one is generated and written to storage. */
    constructor (persisted: seq<Turn>, stored: Option<AnonPair>, draws: seq<seq<int>>)
      requires stored.None? ==> DrawsOk(draws)
      ensures log == persisted && !waiting && pending == NoPending && guessResult == None
      ensures stored.Some? ==> anon == stored.value
      ensures stored.None? ==> IsGeneratedPair(anon, draws)
      ensures storedAnon == Some(anon)
    {
      var pair: AnonPair;
      if stored.Some? {
        pair := stored.value;
      } else {
        pair := NewAnonPair(draws);
      }
      log := persisted;
      waiting := false;
      pending := NoPending;
      anon := pair;
      guessResult := None;
      storedAnon := Some(pair);
    }

    /** handleSend: a prompt is taken only when it is not blank and no
        earlier prompt is still waiting; it is appended, and both reply slots
        are emptied. (The AI request it schedules arrives as AiReply.) */
    method Send(input: string) returns (accepted: bool)
      modifies this`log, this`waiting, this`pending
      ensures accepted <==> !IsBlank(input) && !old(waiting)
      ensures accepted ==>
        log == old(log) + [Turn(input, User, None, None)] && waiting && pending == NoPending
      ensures !accepted ==>
        log == old(log) && waiting == old(waiting) && pending == old(pending)
    {
      TrimEmptyIff(input);
      if Trim(input) == "" || waiting {
        return false;
      }
      log := log + [Turn(input, User, None, None)];
      waiting := true;
      pending := NoPending;
      accepted := true;
    }

    /** The timer callback: the AI slot gets the reply, or the fallback text
        when the call failed. It is set whatever state the screen is in. */
    method AiReply(outcome: AiOutcome)
      modifies this`pending
      ensures pending == Pending(Some(AiText(outcome)), old(pending).human)
    {
      pending := pending.(ai := Some(AiText(outcome)));
    }

    /** One run of the join effect. While waiting: once the AI slot is set,
        the human slot is taken from the first human turn after the last
        prompt; once both are set, the log after the last prompt is replaced
        by the two replies, shuffled with pick `j`, and the cycle ends. */
    method Effect(j: int)
      requires 0 <= j <= 1
      modifies this`log, this`waiting, this`pending
      ensures !old(waiting) || old(pending).ai.None? ==>
        log == old(log) && waiting == old(waiting) && pending == old(pending)
      ensures old(waiting) && old(pending).ai.Some? && old(pending).human.None? ==>
        var hi := FindHumanAfter(old(log), LastIndexOf(old(log), User));
        log == old(log) && waiting &&
        pending == (if hi == -1 then old(pending) else old(pending).(human := Some(old(log)[hi].text)))
      ensures old(waiting) && old(pending).ai.Some? && old(pending).human.Some? ==>
        log == Revealed(old(log), old(pending).ai.value, old(pending).human.value, anon, j) &&
        !waiting && pending == NoPending
    {
      if !waiting || pending.ai.None? {
        return;
      }
      if pending.human.None? {
        var hi := FindHumanAfter(log, LastIndexOf(log, User));
        if hi != -1 {
          pending := pending.(human := Some(log[hi].text));
        }
        return;
      }
      var aiText, humanText, names := pending.ai.value, pending.human.value, anon;
      var joined := Join(log, aiText, humanText, names, j);
      log := joined;
      waiting := false;
      pending := NoPending;
      assert anon == names;
    }

    /** handleGuess: with no pair nothing changes; otherwise the result is
        whether `choice` is the human's pseudonym. */
    method HandleGuess(choice: string)
      modifies this`guessResult
      ensures GuessOutcome(log, choice).None? ==> guessResult == old(guessResult)
      ensures GuessOutcome(log, choice).Some? ==> guessResult == GuessOutcome(log, choice)
    {
      var pair := LatestResponsePair(log);
      if pair.None? {
        return;
      }
      guessResult := Some(pair.value.whichIsHuman == Some(choice));
    }

    /** handleReset: the log is emptied (in storage too), the cycle is
        abandoned, and a fresh anonymous pair is generated and written to
        storage. */
    method Reset(draws: seq<seq<int>>)
      requires DrawsOk(draws)
      modifies this`log, this`waiting, this`pending, this`anon, this`storedAnon
      ensures log == [] && !waiting && pending == NoPending
      ensures IsGeneratedPair(anon, draws) && storedAnon == Some(anon)
    {
      log := [];
      waiting := false;
      pending := NoPending;
      anon := NewAnonPair(draws);
      storedAnon := Some(anon);
    }

    /** The storage listener: the log is replaced by the stored one. */
    method Reload(persisted: seq<Turn>)
      modifies this`log
      ensures log == persisted
    {
      log := persisted;
    }
  }

  /** A later mount reads the pair this screen last wrote to storage, so it
      shows the same two pseudonyms, whatever draws it is given. */
  method Remount(screen: MainScreen, persisted: seq<Turn>, draws: seq<seq<int>>) returns (again: MainScreen)
    requires screen.storedAnon == Some(screen.anon)
    ensures again.anon == screen.anon && again.storedAnon == screen.storedAnon
    ensures again.log == persisted && !again.waiting && again.pending == NoPending
  {
    again := new MainScreen(persisted, screen.storedAnon, draws);
  }

  /** `messages.findIndex((m, i) => m.from === 'human' && i > lo)`: the first
      human turn after position `lo`, or -1. */
  function FindHumanAfter(log: seq<Turn>, lo: int): (r: int)
    requires -1 <= lo
    ensures r == -1 || (lo < r < |log| && log[r].from == Human)
    ensures forall k :: lo < k < |log| && (r == -1 || k < r) ==> log[k].from != Human
    decreases |log| - lo
  {
    if lo + 1 >= |log| then -1
    else if log[lo + 1].from == Human then lo + 1
    else FindHumanAfter(log, lo + 1)
  }
}
