/**
 The decoded configuration: its validation, and the profiles in the order in which they are matched.
 */
module Configuration {
  import opened Wrappers
  import opened Strings

  datatype Profile = Profile(
    cpus: string,
    memory: string,
    matchPatterns: seq<string>,
    maxCPUs: string,
    maxMemory: string
  )

  datatype Adaptive = Adaptive(
    enabled: bool,
    scaleUpThreshold: real,
    scaleDownThreshold: real,
    scaleFactor: real,
    historyWindow: int,
    maxCPUs: string,
    maxMemory: string
  )

  datatype Settings = Settings(
    repositoryURL: string,
    scaleSetName: string,
    runnerLabel: string,
    image: string,
    maxRunners: int,
    profiles: map<string, Profile>,
    defaultProfile: string,
    listenAddr: string,
    adaptive: Adaptive
  )

  datatype NamedProfile = NamedProfile(name: string, profile: Profile)

  // ----- Validation -----

  /** The ways a configuration can be refused. */
  datatype Fault =
    | NoRepositoryURL
    | NoScaleSetName
    | NoRunnerLabel
    | NoImage
    | NoCapacity
    | NoProfiles
    | NoDefaultProfile
    | UnknownDefaultProfile
    | NoPatterns(name: string)
    | NoCPUs(name: string)
    | NoMemory(name: string)
    | NoListenAddr
    | NoToken
    | BadScaleUp
    | BadScaleDown
    | BadScaleFactor
    | BadHistoryWindow

  predicate HasFault(s: Settings, token: string, f: Fault) {
    match f
    case NoRepositoryURL => s.repositoryURL == ""
    case NoScaleSetName => s.scaleSetName == ""
    case NoRunnerLabel => s.runnerLabel == ""
    case NoImage => s.image == ""
    case NoCapacity => s.maxRunners <= 0
    case NoProfiles => |s.profiles| == 0
    case NoDefaultProfile => s.defaultProfile == ""
    case UnknownDefaultProfile => s.defaultProfile !in s.profiles
    case NoPatterns(n) => n in s.profiles && |s.profiles[n].matchPatterns| == 0
    case NoCPUs(n) => n in s.profiles && s.profiles[n].cpus == ""
    case NoMemory(n) => n in s.profiles && s.profiles[n].memory == ""
    case NoListenAddr => s.listenAddr == ""
    case NoToken => token == ""
    case BadScaleUp => s.adaptive.enabled && !(0.0 < s.adaptive.scaleUpThreshold <= 1.0)
    case BadScaleDown => s.adaptive.enabled && !(0.0 <= s.adaptive.scaleDownThreshold < s.adaptive.scaleUpThreshold)
    case BadScaleFactor => s.adaptive.enabled && s.adaptive.scaleFactor <= 1.0
    case BadHistoryWindow => s.adaptive.enabled && s.adaptive.historyWindow <= 0
  }

  /** The position of a check; the profiles are checked in any order, each for three faults in turn. */
  function CheckedAt(f: Fault): nat {
    match f
    case NoRepositoryURL => 0
    case NoScaleSetName => 1
    case NoRunnerLabel => 2
    case NoImage => 3
    case NoCapacity => 4
    case NoProfiles => 5
    case NoDefaultProfile => 6
    case UnknownDefaultProfile => 7
    case NoPatterns(_) | NoCPUs(_) | NoMemory(_) => 8
    case NoListenAddr => 9
    case NoToken => 10
    case BadScaleUp => 11
    case BadScaleDown => 12
    case BadScaleFactor => 13
    case BadHistoryWindow => 14
  }

  predicate CheckedBefore(f: Fault, g: Fault) {
    CheckedAt(f) < CheckedAt(g)
    || (g.NoCPUs? && f == NoPatterns(g.name))
    || (g.NoMemory? && (f == NoPatterns(g.name) || f == NoCPUs(g.name)))
  }

  /** No fault, whatever non-empty token the environment provides. */
  ghost predicate ValidSettings(s: Settings) {
    forall f: Fault | f != NoToken :: !HasFault(s, "token", f)
  }

  /** What the rest of the program relies on. */
  lemma ValidMeans(s: Settings)
    requires ValidSettings(s)
    ensures 0 < s.maxRunners && s.defaultProfile in s.profiles
    ensures s.adaptive.enabled ==>
              0.0 <= s.adaptive.scaleDownThreshold < s.adaptive.scaleUpThreshold
              && 1.0 < s.adaptive.scaleFactor && 0 < s.adaptive.historyWindow
  {
    assert !HasFault(s, "token", NoCapacity);
    assert !HasFault(s, "token", UnknownDefaultProfile);
    assert !HasFault(s, "token", BadScaleUp);
    assert !HasFault(s, "token", BadScaleDown);
    assert !HasFault(s, "token", BadScaleFactor);
    assert !HasFault(s, "token", BadHistoryWindow);
  }

  predicate CompleteProfile(p: Profile) {
    p.matchPatterns != [] && p.cpus != "" && p.memory != ""
  }

  /** The valid settings, written out. */
  lemma ValidExactly(s: Settings)
    ensures ValidSettings(s) <==>
            && s.repositoryURL != "" && s.scaleSetName != "" && s.runnerLabel != "" && s.image != ""
            && 1 <= s.maxRunners && s.profiles != map[] && s.defaultProfile != "" && s.defaultProfile in s.profiles
            && (forall n | n in s.profiles :: CompleteProfile(s.profiles[n]))
            && s.listenAddr != ""
            && (s.adaptive.enabled ==>
                  && 0.0 < s.adaptive.scaleUpThreshold <= 1.0
                  && 0.0 <= s.adaptive.scaleDownThreshold < s.adaptive.scaleUpThreshold
                  && 1.0 < s.adaptive.scaleFactor && 1 <= s.adaptive.historyWindow)
  {
    if ValidSettings(s) {
      forall f: Fault | f != NoToken ensures !HasFault(s, "token", f) {}
      assert !HasFault(s, "token", NoRepositoryURL) && !HasFault(s, "token", NoScaleSetName);
      assert !HasFault(s, "token", NoRunnerLabel) && !HasFault(s, "token", NoImage);
      assert !HasFault(s, "token", NoProfiles) && !HasFault(s, "token", NoDefaultProfile);
      assert !HasFault(s, "token", NoListenAddr);
      ValidMeans(s);
      assert !HasFault(s, "token", BadScaleUp);
      forall n | n in s.profiles ensures CompleteProfile(s.profiles[n]) {
        assert !HasFault(s, "token", NoPatterns(n));
        assert !HasFault(s, "token", NoCPUs(n));
        assert !HasFault(s, "token", NoMemory(n));
      }
    }
  }

  /** A fault that is there while all faults checked before are not. */
  ghost predicate FirstFault(s: Settings, token: string, f: Fault) {
    HasFault(s, token, f) && forall g | CheckedBefore(g, f) :: !HasFault(s, token, g)
  }

  /** The first missing required setting. */
  predicate RequiredFault(s: Settings, f: Fault) {
    if s.repositoryURL == "" then f == NoRepositoryURL
    else if s.scaleSetName == "" then f == NoScaleSetName
    else if s.runnerLabel == "" then f == NoRunnerLabel
    else if s.image == "" then f == NoImage
    else if s.maxRunners <= 0 then f == NoCapacity
    else if s.profiles == map[] then f == NoProfiles
    else if s.defaultProfile == "" then f == NoDefaultProfile
    else s.defaultProfile !in s.profiles && f == UnknownDefaultProfile
  }

  predicate RequiredSet(s: Settings) {
    && s.repositoryURL != "" && s.scaleSetName != "" && s.runnerLabel != "" && s.image != "" && 0 < s.maxRunners
    && s.profiles != map[] && s.defaultProfile in s.profiles && s.defaultProfile != ""
  }

  /** The first fault after the profiles. */
  predicate RestFault(s: Settings, token: string, f: Fault) {
    if s.listenAddr == "" then f == NoListenAddr
    else if token == "" then f == NoToken
    else s.adaptive.enabled && AdaptiveFault(s.adaptive, f)
  }

  /** Which fault is reported: a required setting, else a profile's, else one of the rest, each in the checks' order. */
  lemma FirstFaultExactly(s: Settings, token: string, f: Fault)
    requires FirstFault(s, token, f)
    ensures if !RequiredSet(s) then RequiredFault(s, f)
            else if exists n :: n in s.profiles && !CompleteProfile(s.profiles[n]) then
              exists n :: n in s.profiles && ProfileFault(s.profiles[n], n, f)
            else RestFault(s, token, f)
  {
    hide FirstFault, HasFault, RequiredFault, RequiredSet, RestFault, ProfileFault, CompleteProfile;
    if CheckedAt(f) < 8 {
      RequiredFirst(s, token, f);
    } else {
      RequiredPassed(s, token, f);
      if CheckedAt(f) == 8 {
        ProfileFirst(s, token, f);
      } else {
        ProfilesPassed(s, token, f);
        RestFirst(s, token, f);
      }
    }
  }

  lemma RequiredFirst(s: Settings, token: string, f: Fault)
    requires FirstFault(s, token, f) && CheckedAt(f) < 8
    ensures RequiredFault(s, f) && !RequiredSet(s)
  {
    hide FirstFault;
    Earlier(s, token, f, NoRepositoryURL);
    Earlier(s, token, f, NoScaleSetName);
    Earlier(s, token, f, NoRunnerLabel);
    Earlier(s, token, f, NoImage);
    Earlier(s, token, f, NoCapacity);
    Earlier(s, token, f, NoProfiles);
    Earlier(s, token, f, NoDefaultProfile);
  }

  lemma RequiredPassed(s: Settings, token: string, f: Fault)
    requires FirstFault(s, token, f) && 8 <= CheckedAt(f)
    ensures RequiredSet(s)
  {
    hide FirstFault;
    Earlier(s, token, f, NoRepositoryURL);
    Earlier(s, token, f, NoScaleSetName);
    Earlier(s, token, f, NoRunnerLabel);
    Earlier(s, token, f, NoImage);
    Earlier(s, token, f, NoCapacity);
    Earlier(s, token, f, NoProfiles);
    Earlier(s, token, f, NoDefaultProfile);
    Earlier(s, token, f, UnknownDefaultProfile);
  }

  lemma ProfileFirst(s: Settings, token: string, f: Fault)
    requires FirstFault(s, token, f) && CheckedAt(f) == 8
    ensures f.name in s.profiles && ProfileFault(s.profiles[f.name], f.name, f) && !CompleteProfile(s.profiles[f.name])
  {
    Earlier(s, token, f, NoPatterns(f.name));
    Earlier(s, token, f, NoCPUs(f.name));
  }

  lemma RestFirst(s: Settings, token: string, f: Fault)
    requires FirstFault(s, token, f) && 8 < CheckedAt(f)
    ensures RestFault(s, token, f)
  {
    hide FirstFault;
    Earlier(s, token, f, NoListenAddr);
    Earlier(s, token, f, NoToken);
    Earlier(s, token, f, BadScaleUp);
    Earlier(s, token, f, BadScaleDown);
    Earlier(s, token, f, BadScaleFactor);
  }

  lemma Earlier(s: Settings, token: string, f: Fault, g: Fault)
    requires FirstFault(s, token, f)
    ensures HasFault(s, token, f) && (CheckedBefore(g, f) ==> !HasFault(s, token, g))
  {}

  lemma ProfilesPassed(s: Settings, token: string, f: Fault)
    requires FirstFault(s, token, f)
    ensures 8 < CheckedAt(f) ==> forall n | n in s.profiles :: CompleteProfile(s.profiles[n])
  {
    forall n | 8 < CheckedAt(f) && n in s.profiles ensures CompleteProfile(s.profiles[n]) {
      assert CheckedBefore(NoPatterns(n), f) && CheckedBefore(NoCPUs(n), f) && CheckedBefore(NoMemory(n), f);
    }
  }

  /** The first check that a profile fails. */
  predicate ProfileFault(p: Profile, name: string, f: Fault) {
    if p.matchPatterns == [] then f == NoPatterns(name)
    else if p.cpus == "" then f == NoCPUs(name)
    else p.memory == "" && f == NoMemory(name)
  }

  predicate AdaptiveFault(a: Adaptive, f: Fault) {
    if a.scaleUpThreshold <= 0.0 || 1.0 < a.scaleUpThreshold then f == BadScaleUp
    else if a.scaleDownThreshold < 0.0 || a.scaleUpThreshold <= a.scaleDownThreshold then f == BadScaleDown
    else if a.scaleFactor <= 1.0 then f == BadScaleFactor
    else a.historyWindow <= 0 && f == BadHistoryWindow
  }

  /** The names of `keys` in ascending order. */
  ghost function KeyOrder(keys: set<string>): (names: seq<string>)
    ensures Ascending(names) && Enumerates(names, keys)
  {
    if keys == {} then []
    else
      var k :| k in keys;
      var rest := KeyOrder(keys - {k});
      InsertKeeps(k, rest);
      Insert(k, rest)
  }

  /** The profiles in the order in which the classifier tries them. */
  ghost function Ordered(s: Settings): (r: seq<NamedProfile>)
    ensures |r| == |KeyOrder(s.profiles.Keys)|
    ensures forall i | 0 <= i < |r| ::
              KeyOrder(s.profiles.Keys)[i] in s.profiles
              && r[i] == NamedProfile(KeyOrder(s.profiles.Keys)[i], s.profiles[KeyOrder(s.profiles.Keys)[i]])
  {
    var names := KeyOrder(s.profiles.Keys);
    assert forall i | 0 <= i < |names| :: names[i] in names;
    seq(|names|, i requires 0 <= i < |names| => NamedProfile(names[i], s.profiles[names[i]]))
  }

  class Config {
    const settings: Settings
    var orderedProfiles: seq<NamedProfile>

    constructor (settings: Settings)
      ensures this.settings == settings && orderedProfiles == []
    {
      this.settings := settings;
      orderedProfiles := [];
    }

    /** The first fault in the order of the checks, or none. */
    method Validate(token: string) returns (fault: Option<Fault>)
      ensures fault.None? <==> ValidSettings(settings) && token != ""
      ensures fault.Some? ==> FirstFault(settings, token, fault.value)
    {
      fault := CheckRequired();
      if fault.None? {
        fault := CheckProfiles();
        if fault.None? {
          fault := CheckRest(token);
        }
      }
      forall f | f != NoToken ensures HasFault(settings, token, f) == HasFault(settings, "token", f) {}
      if fault.Some? && fault.value != NoToken {
        assert HasFault(settings, "token", fault.value);
      }
      if fault.None? {
        forall f ensures !HasFault(settings, token, f) {
          assert CheckedAt(f) < 8 || CheckedAt(f) == 8 || 8 < CheckedAt(f);
        }
        assert !HasFault(settings, token, NoToken);
      }
    }

    method CheckRequired() returns (fault: Option<Fault>)
      ensures fault.Some? ==> CheckedAt(fault.value) < 8 && HasFault(settings, "token", fault.value)
      ensures fault.Some? ==> forall f | CheckedBefore(f, fault.value) :: !HasFault(settings, "token", f)
      ensures fault.None? ==> forall f | CheckedAt(f) < 8 :: !HasFault(settings, "token", f)
    {
      if settings.repositoryURL == "" { return Some(NoRepositoryURL); }
      if settings.scaleSetName == "" { return Some(NoScaleSetName); }
      if settings.runnerLabel == "" { return Some(NoRunnerLabel); }
      if settings.image == "" { return Some(NoImage); }
      if settings.maxRunners <= 0 { return Some(NoCapacity); }
      if |settings.profiles| == 0 { return Some(NoProfiles); }
      if settings.defaultProfile == "" { return Some(NoDefaultProfile); }
      if settings.defaultProfile !in settings.profiles { return Some(UnknownDefaultProfile); }
      return None;
    }

    method CheckProfiles() returns (fault: Option<Fault>)
      ensures fault.Some? ==> CheckedAt(fault.value) == 8 && HasFault(settings, "token", fault.value)
      ensures fault.Some? ==>
                forall f | CheckedAt(f) == 8 && CheckedBefore(f, fault.value) :: !HasFault(settings, "token", f)
      ensures fault.None? ==> forall f | CheckedAt(f) == 8 :: !HasFault(settings, "token", f)
    {
      var left := settings.profiles.Keys;
      while left != {}
        invariant left <= settings.profiles.Keys
        invariant forall f | CheckedAt(f) == 8 && f.name !in left :: !HasFault(settings, "token", f)
      {
        var name :| name in left;
        var p := settings.profiles[name];
        if |p.matchPatterns| == 0 { return Some(NoPatterns(name)); }
        if p.cpus == "" { return Some(NoCPUs(name)); }
        if p.memory == "" { return Some(NoMemory(name)); }
        left := left - {name};
      }
      return None;
    }

    method CheckRest(token: string) returns (fault: Option<Fault>)
      ensures fault.Some? ==> 8 < CheckedAt(fault.value) && HasFault(settings, token, fault.value)
      ensures fault.Some? ==>
                forall f | 8 < CheckedAt(f) < CheckedAt(fault.value) :: !HasFault(settings, token, f)
      ensures fault.None? ==> forall f | 8 < CheckedAt(f) :: !HasFault(settings, token, f)
    {
      if settings.listenAddr == "" { return Some(NoListenAddr); }
      if token == "" { return Some(NoToken); }
      var a := settings.adaptive;
      if a.enabled {
        if a.scaleUpThreshold <= 0.0 || a.scaleUpThreshold > 1.0 { return Some(BadScaleUp); }
        if a.scaleDownThreshold < 0.0 || a.scaleDownThreshold >= a.scaleUpThreshold { return Some(BadScaleDown); }
        if a.scaleFactor <= 1.0 { return Some(BadScaleFactor); }
        if a.historyWindow <= 0 { return Some(BadHistoryWindow); }
      }
      return None;
    }

    /** Whatever the iteration order of the profile map, the profiles end up in ascending order of name. */
    method BuildOrderedProfiles()
      modifies this`orderedProfiles
      ensures orderedProfiles == Ordered(settings)
    {
      var names: seq<string> := [];
      var left := settings.profiles.Keys;
      while left != {}
        invariant left <= settings.profiles.Keys
        invariant Enumerates(names, settings.profiles.Keys - left)
      {
        var name :| name in left;
        EnumeratesMore(names, settings.profiles.Keys - left, name);
        assert settings.profiles.Keys - (left - {name}) == settings.profiles.Keys - left + {name};
        names := names + [name];
        left := left - {name};
      }
      assert settings.profiles.Keys - left == settings.profiles.Keys;
      names := SortStrings(names);
      AscendingUnique(names, KeyOrder(settings.profiles.Keys), settings.profiles.Keys);
      PairWithProfiles(names);
    }

    method PairWithProfiles(names: seq<string>)
      requires names == KeyOrder(settings.profiles.Keys)
      modifies this`orderedProfiles
      ensures orderedProfiles == Ordered(settings)
    {
      orderedProfiles := [];
      for i := 0 to |names|
        invariant orderedProfiles == Ordered(settings)[..i]
      {
        assert names[i] in names;
        orderedProfiles := orderedProfiles + [NamedProfile(names[i], settings.profiles[names[i]])];
      }
    }
  }
}
