/** Random pseudonyms: a prefix followed by four upper-case letters
    (src/utils/getRandomUsername.js). The four calls to Math.random are
    passed in as `picks`, one letter index in [0, 26) per character. */
module Usernames {

  /** The characters a suffix is drawn from. */
  const Alphabet: string := "ABCDEFGHIJKLMNOPQRSTUVWXYZ"

  /** The prefix used when the caller gives none. */
  const DefaultPrefix: string := "user"

  /** Number of random characters after the prefix. */
  const SuffixLength: nat := 4

  /** Four letter indices, each a possible value of floor(random() * 26). */
  predicate ValidPicks(picks: seq<int>) {
    |picks| == SuffixLength && forall k :: 0 <= k < |picks| ==> 0 <= picks[k] < |Alphabet|
  }

  predicate IsUpperLetter(c: char) {
    'A' <= c <= 'Z'
  }

  /** The shape every generated name has: the prefix, then four letters A-Z. */
  predicate IsUsername(prefix: string, name: string) {
    |name| == |prefix| + SuffixLength &&
    name[..|prefix|] == prefix &&
    forall k :: |prefix| <= k < |name| ==> IsUpperLetter(name[k])
  }

  /** The letters chosen by `picks`, in order. */
  function Letters(picks: seq<int>): (r: string)
    requires forall k :: 0 <= k < |picks| ==> 0 <= picks[k] < |Alphabet|
    ensures |r| == |picks|
    ensures forall k :: 0 <= k < |r| ==> r[k] == Alphabet[picks[k]]
  {
    if picks == [] then [] else Letters(picks[..|picks| - 1]) + [Alphabet[picks[|picks| - 1]]]
  }

  /** The name getRandomUsername returns for the given prefix and picks. */
  function UsernameOf(prefix: string, picks: seq<int>): string
    requires ValidPicks(picks)
  {
    prefix + Letters(picks)
  }

  /** The alphabet is "A".."Z" in order: position k holds the k-th letter. */
  lemma AlphabetAt(k: int)
    requires 0 <= k < |Alphabet|
    ensures Alphabet[k] as int == 'A' as int + k
  {
  }

  /** getRandomUsername: build the suffix one letter per loop step and
      return prefix + suffix. */
  method RandomUsername(prefix: string, picks: seq<int>) returns (name: string)
    requires ValidPicks(picks)
    ensures name == UsernameOf(prefix, picks)
  {
    var suffix := "";
    var i := 0;
    while i < SuffixLength
      invariant 0 <= i <= SuffixLength
      invariant suffix == Letters(picks[..i])
    {
      assert picks[..i + 1][..i] == picks[..i];
      suffix := suffix + [Alphabet[picks[i]]];
      i := i + 1;
    }
    assert picks[..i] == picks;
    name := prefix + suffix;
  }

  /** Every generated name starts with the prefix, is exactly four characters
      longer, and its suffix uses only the letters A-Z. */
  lemma UsernameShape(prefix: string, picks: seq<int>)
    requires ValidPicks(picks)
    ensures IsUsername(prefix, UsernameOf(prefix, picks))
  {
    var name := UsernameOf(prefix, picks);
    assert name[..|prefix|] == prefix;
    forall k | |prefix| <= k < |name|
      ensures IsUpperLetter(name[k])
    {
      assert name[k] == Alphabet[picks[k - |prefix|]];
      AlphabetAt(picks[k - |prefix|]);
    }
  }

  /** Different picks give different names: a name determines its picks. */
  lemma UsernameInjective(prefix: string, p: seq<int>, q: seq<int>)
    requires ValidPicks(p) && ValidPicks(q)
    requires UsernameOf(prefix, p) == UsernameOf(prefix, q)
    ensures p == q
  {
    forall k | 0 <= k < SuffixLength
      ensures p[k] == q[k]
    {
      assert UsernameOf(prefix, p)[|prefix| + k] == Alphabet[p[k]];
      assert UsernameOf(prefix, q)[|prefix| + k] == Alphabet[q[k]];
      AlphabetAt(p[k]);
      AlphabetAt(q[k]);
    }
  }
}
