/** The human operator's screen (src/components/HumanPage.jsx): the operator
    may answer the player's latest prompt once, under a pseudonym kept in
    storage across visits. */
module HumanPage {
  import opened Wrappers
  import opened ChatLog
  import opened Usernames

  // ---------------------------------------------------------------------
  // The reply gate (canRespond)
  // ---------------------------------------------------------------------

  /** canRespond: there is a prompt, and either no human reply at all or the
      last prompt comes after the last human reply. (`lastIndexOf` of the last
      prompt's object is its position, since every parsed turn is a distinct
      object.) */
  function CanRespond(log: seq<Turn>): (r: bool)
    ensures (forall k :: 0 <= k < |log| ==> log[k].from != User) ==> !r
    ensures ((exists i :: 0 <= i < |log| && log[i].from == User) &&
             (forall k :: 0 <= k < |log| ==> log[k].from != Human)) ==> r
  {
    var u := LastIndexOf(log, User);
    var h := LastIndexOf(log, Human);
    u >= 0 && (h < 0 || u > h)
  }

  /** The prompt at `i` has not been answered: no human reply follows it. */
  ghost predicate UnansweredPrompt(log: seq<Turn>, i: int) {
    0 <= i < |log| && log[i].from == User &&
    forall k :: i < k < |log| ==> log[k].from != Human
  }

  /** The operator may reply exactly when some prompt has no human reply
      after it. */
  lemma CanRespondIff(log: seq<Turn>)
    ensures CanRespond(log) <==> exists i :: UnansweredPrompt(log, i)
  {
    var u := LastIndexOf(log, User);
    var h := LastIndexOf(log, Human);
    if CanRespond(log) {
      assert UnansweredPrompt(log, u);
    }
    if i :| UnansweredPrompt(log, i) {
      assert i <= u;
      assert h < i || h == -1;
    }
  }

  /** After a human reply, the gate stays shut whatever non-prompt turns
      follow, until a new prompt arrives. */
  lemma SendClosesGate(log: seq<Turn>, reply: Turn, later: seq<Turn>)
    requires reply.from == Human
    requires forall k :: 0 <= k < |later| ==> later[k].from != User
    ensures !CanRespond(log + [reply] + later)
  {
    LastIndexOfConcat(log + [reply], later, User);
    LastIndexOfConcat(log + [reply], later, Human);
    LastIndexOfConcat(log, [reply], User);
    LastIndexOfConcat(log, [reply], Human);
  }

  /** A new prompt reopens the gate, whatever came before. */
  lemma PromptOpensGate(log: seq<Turn>, prompt: Turn)
    requires prompt.from == User
    ensures CanRespond(log + [prompt])
  {
    LastIndexOfConcat(log, [prompt], User);
    LastIndexOfConcat(log, [prompt], Human);
  }

  // ---------------------------------------------------------------------
  // Cached pseudonyms (the humanUsername and aiUsername initialisers)
  // ---------------------------------------------------------------------

  /** `if (!u)` fails: a stored name is there and is not the empty string. */
  predicate Present(stored: Option<string>) {
    stored.Some? && stored.value != ""
  }

  /** The name an initialiser settles on: the stored one when present,
      otherwise a fresh name from `picks`. */
  function Loaded(stored: Option<string>, picks: seq<int>): string
    requires ValidPicks(picks)
  {
    if Present(stored) then stored.value else UsernameOf(DefaultPrefix, picks)
  }

  /** The initialiser: read the stored name; when it is missing or empty,
      generate one and store it. Returns the name and the stored value after. */
  method LoadUsername(stored: Option<string>, picks: seq<int>) returns (name: string, saved: Option<string>)
    requires ValidPicks(picks)
    ensures name == Loaded(stored, picks) && saved == Some(name)
    ensures Present(stored) ==> name == stored.value && saved == stored
    ensures Present(saved)
  {
    name := if stored.Some? then stored.value else "";
    saved := stored;
    if name == "" {
      name := RandomUsername(DefaultPrefix, picks);
      saved := Some(name);
    }
  }

  /** Whatever was stored, the initialiser leaves a name in storage that the
      next visit returns unchanged, whatever that visit's random picks. */
  lemma LoadedIdempotent(stored: Option<string>, p: seq<int>, q: seq<int>)
    requires ValidPicks(p) && ValidPicks(q)
    ensures Present(Some(Loaded(stored, p)))
    ensures Loaded(Some(Loaded(stored, p)), q) == Loaded(stored, p)
  {
    if !Present(stored) {
      assert |UsernameOf(DefaultPrefix, p)| == |DefaultPrefix| + SuffixLength;
    }
  }

  /** A generated name is "user" followed by four letters A-Z. */
  lemma LoadedShape(stored: Option<string>, picks: seq<int>)
    requires ValidPicks(picks) && !Present(stored)
    ensures IsUsername(DefaultPrefix, Loaded(stored, picks))
  {
    UsernameShape(DefaultPrefix, picks);
  }

  // ---------------------------------------------------------------------
  // The screen's state
  // ---------------------------------------------------------------------

  /** The state HumanPage keeps: `messages` (mirrored to storage on every
      write), the two pseudonyms fixed at mount, and the two stored names. */
  class HumanScreen {
    var log: seq<Turn>
    var humanUsername: string
    var aiUsername: string
    var storedHuman: Option<string>
    var storedAi: Option<string>

    /** Mounting: the log comes from storage, and each pseudonym is loaded
        from storage or generated and stored. */
    constructor (persisted: seq<Turn>, humanStored: Option<string>, aiStored: Option<string>,
                 humanPicks: seq<int>, aiPicks: seq<int>)
      requires ValidPicks(humanPicks) && ValidPicks(aiPicks)
      ensures log == persisted
      ensures humanUsername == Loaded(humanStored, humanPicks) && storedHuman == Some(humanUsername)
      ensures aiUsername == Loaded(aiStored, aiPicks) && storedAi == Some(aiUsername)
    {
      var h, hs := LoadUsername(humanStored, humanPicks);
      var a, as_ := LoadUsername(aiStored, aiPicks);
      log := persisted;
      humanUsername, storedHuman := h, hs;
      aiUsername, storedAi := a, as_;
    }

    /** handleSend: a reply is taken only when it is not blank and the gate is
        open; it is appended under the operator's pseudonym, which shuts the
        gate. */
    method Send(input: string) returns (accepted: bool)
      modifies this`log
      ensures accepted <==> !IsBlank(input) && CanRespond(old(log))
      ensures accepted ==> log == old(log) + [Turn(input, Human, None, Some(humanUsername))]
      ensures !accepted ==> log == old(log)
      ensures accepted ==> !CanRespond(log)
    {
      TrimEmptyIff(input);
      if Trim(input) == "" || !CanRespond(log) {
        return false;
      }
      var reply := Turn(input, Human, None, Some(humanUsername));
      SendClosesGate(log, reply, []);
      assert log + [reply] + [] == log + [reply];
      log := log + [reply];
      accepted := true;
    }

    /** handleReset: the log is emptied (in storage too); the pseudonyms stay. */
    method Reset()
      modifies this`log
      ensures log == []
    {
      log := [];
    }

    /** The storage listener: the log is replaced by the stored one. */
    method Reload(persisted: seq<Turn>)
      modifies this`log
      ensures log == persisted
    {
      log := persisted;
    }
  }
}
