/** The shared chat log that both screens read and replace: an ordered
    sequence of turns, plus the two string helpers both screens use
    (`lastIndexOf` over the senders and JavaScript's `String.prototype.trim`). */
module ChatLog {
  import opened Wrappers

  /** Who wrote a turn: the player, the AI, or the human operator. */
  datatype Origin = User | Ai | Human

  /** One entry of the log. `anon` is the pseudonym shown for a revealed
      response; `username` is the operator's name on a human reply. */
  datatype Turn = Turn(text: string, from: Origin, anon: Option<string>, username: Option<string>)

  /** `messages.map(m => m.from).lastIndexOf(o)`: the position of the last
      turn sent by `o`, or -1 when there is none. */
  function LastIndexOf(log: seq<Turn>, o: Origin): (r: int)
    ensures -1 <= r < |log|
    ensures r >= 0 ==> log[r].from == o
    ensures forall k :: r < k < |log| ==> log[k].from != o
  {
    if |log| == 0 then -1
    else if log[|log| - 1].from == o then |log| - 1
    else LastIndexOf(log[..|log| - 1], o)
  }

  /** The three facts LastIndexOf promises pin its result down. */
  lemma LastIndexOfUnique(log: seq<Turn>, o: Origin, r: int)
    requires -1 <= r < |log|
    requires r >= 0 ==> log[r].from == o
    requires forall k :: r < k < |log| ==> log[k].from != o
    ensures LastIndexOf(log, o) == r
  {
  }

  /** The last `o` turn of `a + b` is the last one of `b` when `b` has one,
      and otherwise the last one of `a`. */
  lemma LastIndexOfConcat(a: seq<Turn>, b: seq<Turn>, o: Origin)
    ensures LastIndexOf(a + b, o) ==
      if LastIndexOf(b, o) >= 0 then |a| + LastIndexOf(b, o) else LastIndexOf(a, o)
  {
    var ab := a + b;
    var lb := LastIndexOf(b, o);
    var r := if lb >= 0 then |a| + lb else LastIndexOf(a, o);
    forall k | r < k < |ab|
      ensures ab[k].from != o
    {
      if k >= |a| {
        assert ab[k] == b[k - |a|];
      } else {
        assert ab[k] == a[k];
      }
    }
    if r >= 0 {
      assert ab[r] == if lb >= 0 then b[lb] else a[r];
    }
    LastIndexOfUnique(ab, o, r);
  }

  /** The characters `trim` removes: ECMAScript WhiteSpace and LineTerminator. */
  predicate IsJsSpace(c: char) {
    c in {'\U{0009}', '\U{000A}', '\U{000B}', '\U{000C}', '\U{000D}', '\U{0020}', '\U{00A0}',
          '\U{1680}', '\U{2000}', '\U{2001}', '\U{2002}', '\U{2003}', '\U{2004}', '\U{2005}',
          '\U{2006}', '\U{2007}', '\U{2008}', '\U{2009}', '\U{200A}', '\U{2028}', '\U{2029}',
          '\U{202F}', '\U{205F}', '\U{3000}', '\U{FEFF}'}
  }

  /** A string made of white space only (the empty string included). */
  predicate IsBlank(s: string) {
    forall k :: 0 <= k < |s| ==> IsJsSpace(s[k])
  }

  /** Drops the leading white space: the result is the suffix of `s` that
      starts at its first non-space character. */
  function TrimStart(s: string): (r: string)
    ensures |r| <= |s| && r == s[|s| - |r|..]
    ensures IsBlank(s[..|s| - |r|])
    ensures r != [] ==> !IsJsSpace(r[0])
  {
    if |s| > 0 && IsJsSpace(s[0]) then
      var r := TrimStart(s[1..]);
      assert s[..|s| - |r|] == [s[0]] + s[1..][..|s| - 1 - |r|];
      r
    else s
  }

  /** Drops the trailing white space: the result is the prefix of `s` that
      ends at its last non-space character. */
  function TrimEnd(s: string): (r: string)
    ensures |r| <= |s| && r == s[..|r|]
    ensures IsBlank(s[|r|..])
    ensures r != [] ==> !IsJsSpace(r[|r| - 1])
  {
    if |s| > 0 && IsJsSpace(s[|s| - 1]) then
      var r := TrimEnd(s[..|s| - 1]);
      assert s[|r|..] == s[..|s| - 1][|r|..] + [s[|s| - 1]];
      r
    else s
  }

  /** `s.trim()` */
  function Trim(s: string): string {
    TrimEnd(TrimStart(s))
  }

  /** `!input.trim()` holds exactly when the input is white space only. */
  lemma TrimEmptyIff(s: string)
    ensures Trim(s) == "" <==> IsBlank(s)
  {
  }
}
