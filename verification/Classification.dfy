/** Routing of job display names to profiles: ordered first match with a default. */
module Classification {
  import opened Configuration
  import opened Strings

  /** `filepath.Match(pattern, name)`; a malformed pattern matches nothing. */
  type Match = (string, string) -> bool

  datatype Classifier = Classifier(matches: Match, profiles: seq<NamedProfile>, defaultProfile: string) {

    function Classify(job: string): string {
      ClassifyFrom(job, 0)
    }

    function ClassifyFrom(job: string, i: nat): string
      requires i <= |profiles|
      decreases |profiles| - i
    {
      if i == |profiles| then defaultProfile
      else if MatchesAny(matches, profiles[i].profile, job) then profiles[i].name
      else ClassifyFrom(job, i + 1)
    }
  }

  predicate MatchesAny(matches: Match, profile: Profile, job: string) {
    exists pattern | pattern in profile.matchPatterns :: matches(pattern, job)
  }

  /** The classifier of a loaded configuration. */
  ghost function For(s: Settings, matches: Match): Classifier {
    Classifier(matches, Ordered(s), s.defaultProfile)
  }

  predicate Candidate(s: Settings, matches: Match, job: string, name: string) {
    name in s.profiles && MatchesAny(matches, s.profiles[name], job)
  }

  /**
   The profile of a job is the least name, in string order, of a profile with a matching pattern;
   the default profile when there is none.
   */
  ghost predicate Routed(s: Settings, matches: Match, job: string, name: string) {
    if exists n :: Candidate(s, matches, job, n) then
      Candidate(s, matches, job, name) && forall n | Candidate(s, matches, job, n) :: AtMost(name, n)
    else
      name == s.defaultProfile
  }

  lemma ClassifyRoutes(s: Settings, matches: Match, job: string)
    ensures forall name :: name == For(s, matches).Classify(job) <==> Routed(s, matches, job, name)
  {
    var c := For(s, matches);
    var result := c.Classify(job);
    FirstMatch(s, matches, job, 0);
    forall name | Routed(s, matches, job, name) ensures name == result {
      if Candidate(s, matches, job, name) {
        AtMostAntisymmetric(name, result);
      }
    }
  }

  /** The same with every pattern of every profile written out. */
  lemma ClassifyExactly(s: Settings, matches: Match, job: string, name: string)
    ensures name == For(s, matches).Classify(job) <==>
            if forall n, k | n in s.profiles && 0 <= k < |s.profiles[n].matchPatterns| ::
                 !matches(s.profiles[n].matchPatterns[k], job)
            then name == s.defaultProfile
            else
              && name in s.profiles
              && (exists k :: 0 <= k < |s.profiles[name].matchPatterns|
                              && matches(s.profiles[name].matchPatterns[k], job))
              && forall n, k | n in s.profiles && 0 <= k < |s.profiles[n].matchPatterns|
                               && matches(s.profiles[n].matchPatterns[k], job) :: AtMost(name, n)
  {
    hide Ordered, AtMost, MatchesAny, Candidate, Classifier.Classify;
    ClassifyRoutes(s, matches, job);
    CandidatesByPattern(s, matches, job);
    assert name == For(s, matches).Classify(job) <==> Routed(s, matches, job, name);
  }

  lemma CandidatesByPattern(s: Settings, matches: Match, job: string)
    ensures forall n :: Candidate(s, matches, job, n) <==>
              n in s.profiles
              && exists k :: 0 <= k < |s.profiles[n].matchPatterns| && matches(s.profiles[n].matchPatterns[k], job)
  {
    forall n | n in s.profiles
      ensures Candidate(s, matches, job, n) <==>
              exists k :: 0 <= k < |s.profiles[n].matchPatterns| && matches(s.profiles[n].matchPatterns[k], job)
    {
      AnyByIndex(matches, s.profiles[n], job);
    }
  }

  lemma AnyByIndex(matches: Match, p: Profile, job: string)
    ensures MatchesAny(matches, p, job) <==>
            exists k :: 0 <= k < |p.matchPatterns| && matches(p.matchPatterns[k], job)
  {
    if MatchesAny(matches, p, job) {
      var pattern :| pattern in p.matchPatterns && matches(pattern, job);
      var k :| 0 <= k < |p.matchPatterns| && p.matchPatterns[k] == pattern;
      assert matches(p.matchPatterns[k], job);
    }
  }

  lemma {:induction false} FirstMatch(s: Settings, matches: Match, job: string, i: nat)
    requires i <= |Ordered(s)|
    requires forall j | 0 <= j < i :: !Candidate(s, matches, job, KeyOrder(s.profiles.Keys)[j])
    ensures Routed(s, matches, job, For(s, matches).ClassifyFrom(job, i))
    decreases |Ordered(s)| - i
  {
    hide Ordered, KeyOrder, MatchesAny, AtMost;
    var names := KeyOrder(s.profiles.Keys);
    if i < |names| {
      assert Ordered(s)[i] == NamedProfile(names[i], s.profiles[names[i]]);
    }
    if i < |names| && !Candidate(s, matches, job, names[i]) {
      FirstMatch(s, matches, job, i + 1);
    } else {
      forall n | Candidate(s, matches, job, n) ensures exists j :: i <= j < |names| && names[j] == n {
        assert n in names;
        var j :| 0 <= j < |names| && names[j] == n;
      }
      if i < |names| {
        AtMostReflexive(names[i]);
      }
    }
  }

  /** From a validated configuration the profile that `Classify` names always exists. */
  lemma ClassifyFindsProfile(s: Settings, matches: Match, job: string)
    requires ValidSettings(s)
    ensures For(s, matches).Classify(job) in s.profiles
  {
    ValidMeans(s);
    ClassifyRoutes(s, matches, job);
    assert Routed(s, matches, job, For(s, matches).Classify(job));
  }
}
