/** The challenge list page: the search filter, the expanded-details toggle and the
    progress update entered through a prompt. Every handler computes a new state from
    the old one, so each is a function. */
module ChallengesPage {
  import opened Wrappers
  import opened Text
  import opened Seqs

  /** The fields of a listed challenge that the page reads or writes. */
  datatype ChallengeCard = ChallengeCard(id: int, challengeId: string, creatorId: int, goal: string,
                                         progress: Option<int>)

  /** The predicate of `filteredChallenges`: the goal contains the term, ignoring case, or
      the creator id written in decimal contains the lowercased term. */
  predicate MatchesSearch(c: ChallengeCard, searchTerm: string) {
    Contains(Lower(c.goal), Lower(searchTerm)) || Contains(IntToString(c.creatorId), Lower(searchTerm))
  }

  /** `challenges.filter(...)`. */
  function FilteredChallenges(challenges: seq<ChallengeCard>, searchTerm: string): (r: seq<ChallengeCard>)
    ensures IsSubsequence(r, challenges)
    ensures forall i :: 0 <= i < |r| ==> MatchesSearch(r[i], searchTerm)
  {
    FilterIsSubsequence(challenges, c => MatchesSearch(c, searchTerm));
    Filter(challenges, c => MatchesSearch(c, searchTerm))
  }

  /** A challenge is listed exactly when it is on the page and matches the term, and the
      listed ones keep their order. */
  lemma FilteredChallengesSpec(challenges: seq<ChallengeCard>, searchTerm: string, c: ChallengeCard)
    ensures c in FilteredChallenges(challenges, searchTerm) <==> c in challenges && MatchesSearch(c, searchTerm)
    ensures IsSubsequence(FilteredChallenges(challenges, searchTerm), challenges)
  {
    FilterMembership(challenges, c => MatchesSearch(c, searchTerm), c);
    FilterIsSubsequence(challenges, c => MatchesSearch(c, searchTerm));
  }

  /** An empty search box lists every challenge. */
  lemma EmptySearchKeepsAll(challenges: seq<ChallengeCard>)
    ensures FilteredChallenges(challenges, "") == challenges
  {
    forall i | 0 <= i < |challenges| ensures MatchesSearch(challenges[i], "") {
      ContainsEmpty(Lower(challenges[i].goal));
    }
    FilterAll(challenges, c => MatchesSearch(c, ""));
  }

  /** `handleToggleDetails(id)`: `expandedId` becomes `null` when `id` was expanded, and `id`
      otherwise. */
  function ToggleDetails(expandedId: Option<int>, id: int): (r: Option<int>)
    ensures r == Some(id) <==> expandedId != Some(id)
    ensures r.None? <==> expandedId == Some(id)
  {
    if expandedId == Some(id) then None else Some(id)
  }

  /** Toggling the same card twice, starting from any other state, leaves it collapsed;
      starting from that card expanded, it is expanded again. */
  lemma ToggleDetailsTwice(expandedId: Option<int>, id: int)
    ensures expandedId != Some(id) ==> ToggleDetails(ToggleDetails(expandedId, id), id).None?
    ensures expandedId == Some(id) ==> ToggleDetails(ToggleDetails(expandedId, id), id) == Some(id)
  {
  }

  /** `challenges.find(c => c.id === id)?.progress ?? 0`: the prompt's default value. */
  function CurrentProgress(challenges: seq<ChallengeCard>, id: int): (r: int)
    ensures (forall i :: 0 <= i < |challenges| ==> challenges[i].id != id) ==> r == 0
    ensures (exists i :: 0 <= i < |challenges| && challenges[i].id == id) ==>
              exists i :: 0 <= i < |challenges| && challenges[i].id == id
                          && (forall j :: 0 <= j < i ==> challenges[j].id != id)
                          && r == challenges[i].progress.GetOr(0)
  {
    if challenges == [] then 0
    else if challenges[0].id == id then challenges[0].progress.GetOr(0)
    else
      var r := CurrentProgress(challenges[1..], id);
      assert (exists i :: 1 <= i < |challenges| && challenges[i].id == id) ==>
               exists i :: 0 <= i < |challenges| && challenges[i].id == id
                           && (forall j :: 0 <= j < i ==> challenges[j].id != id)
                           && r == challenges[i].progress.GetOr(0)
        by {
          if exists i :: 1 <= i < |challenges| && challenges[i].id == id {
            var i :| 1 <= i < |challenges| && challenges[i].id == id;
            assert challenges[1..][i - 1].id == id;
            var k :| 0 <= k < |challenges[1..]| && challenges[1..][k].id == id
                     && (forall j :: 0 <= j < k ==> challenges[1..][j].id != id)
                     && r == challenges[1..][k].progress.GetOr(0);
            forall j | 0 <= j < k + 1 ensures challenges[j].id != id {
              if j > 0 { assert challenges[j] == challenges[1..][j - 1]; }
            }
          }
        }
      r
  }

  /** `Math.round(x)`: the nearest integer, halves rounded up. */
  function Round(x: real): (r: int)
    ensures r as real - 0.5 <= x < r as real + 0.5
  {
    (x + 0.5).Floor
  }

  /** A value accepted by the prompt, between 0 and 100, rounds to a percentage. */
  lemma RoundInRange(x: real)
    requires 0.0 <= x <= 100.0
    ensures 0 <= Round(x) <= 100
    ensures Round(x) as real - 0.5 <= x < Round(x) as real + 0.5
  {
  }

  /** `prev.map(c => c.id === id ? { ...c, progress } : c)`. */
  function SetProgress(challenges: seq<ChallengeCard>, id: int, progress: int): (r: seq<ChallengeCard>)
    ensures |r| == |challenges|
    ensures forall i :: 0 <= i < |r| && challenges[i].id == id ==> r[i] == challenges[i].(progress := Some(progress))
    ensures forall i :: 0 <= i < |r| && challenges[i].id != id ==> r[i] == challenges[i]
  {
    if challenges == [] then []
    else
      var c := challenges[0];
      [if c.id == id then c.(progress := Some(progress)) else c] + SetProgress(challenges[1..], id, progress)
  }

  const InvalidProgress := "Please enter a valid number between 0 and 100."

  /** `handleUpdateProgress(id)`: `input` is what `window.prompt` returned (`None` when
      cancelled) and `toNumber` is `Number(...)`, `None` for `NaN`. Returns the new list and
      the alert shown, if any. */
  function UpdateProgress(challenges: seq<ChallengeCard>, id: int, input: Option<string>,
                          toNumber: string -> Option<real>): (r: (seq<ChallengeCard>, Option<string>))
    ensures input.None? ==> r == (challenges, None)
    ensures input.Some? && (toNumber(input.value).None? || toNumber(input.value).value < 0.0
                            || toNumber(input.value).value > 100.0) ==>
              r == (challenges, Some(InvalidProgress))
    ensures r.1.None? && r.0 != challenges ==> input.Some? && toNumber(input.value).Some?
    ensures input.Some? && toNumber(input.value).Some? && 0.0 <= toNumber(input.value).value <= 100.0 ==>
              r.1.None?
              && r.0 == SetProgress(challenges, id, Round(toNumber(input.value).value))
              && 0 <= Round(toNumber(input.value).value) <= 100
  {
    if input.None? then (challenges, None)
    else
      var value := toNumber(input.value);
      if value.None? || value.value < 0.0 || value.value > 100.0 then (challenges, Some(InvalidProgress))
      else
        RoundInRange(value.value);
        (SetProgress(challenges, id, Round(value.value)), None)
  }

  /** After an accepted update every challenge carries a progress between 0 and 100 if it
      did before: the bound is an invariant of the page. */
  lemma UpdateProgressKeepsBounds(challenges: seq<ChallengeCard>, id: int, input: Option<string>,
                                  toNumber: string -> Option<real>)
    requires forall i :: 0 <= i < |challenges| && challenges[i].progress.Some? ==>
               0 <= challenges[i].progress.value <= 100
    ensures var r := UpdateProgress(challenges, id, input, toNumber).0;
            forall i :: 0 <= i < |r| && r[i].progress.Some? ==> 0 <= r[i].progress.value <= 100
  {
  }
}
