/** Audit records as values, and what Record.Validate accepts. */
module Records {
  type OperationCategory = nat
  type IdentityType = nat

  const OC_OTHER: OperationCategory := 1
  const RESULT_FAILURE: nat := 2

  datatype IdentityEntry = IdentityEntry(identity: string, description: string)

  datatype ResourceEntry = ResourceEntry(name: string, cluster: string, dataCenter: string, region: string)

  /** What netip.Addr tells about itself. */
  datatype Address = Address(valid: bool, unspecified: bool, loopback: bool, multicast: bool)

  datatype Record = Record(
    serviceTreeID: string,
    callerIpAddress: Address,
    callerIdentities: map<IdentityType, seq<IdentityEntry>>,
    operationCategories: seq<OperationCategory>,
    targetResources: map<string, seq<ResourceEntry>>,
    callerAccessLevels: seq<string>,
    operationAccessLevel: string,
    operationName: string,
    operationResultDescription: string,
    callerAgent: string,
    operationCategoryDescription: string,
    operationResult: nat)

  /** The checks of Validate, in the order in which it makes them. */
  datatype Check =
    | ServiceTreeIDRequired
    | OperationNameRequired
    | CategoryRequired
    | CategoryDescriptionRequired
    | ResultDescriptionRequired
    | OperationAccessLevelRequired
    | CallerAgentRequired
    | IdentityRequired
    | BadIdentities             // an empty list for some type, or a bad entry
    | AddressRequired
    | AddressUnspecified
    | AddressLoopback
    | AddressMulticast
    | AccessLevelRequired
    | AccessLevelBlank
    | ResourceRequired
    | BadResources              // a blank resource type, or an entry without a name

  /** strings.TrimSpace(s) == "", for ASCII white space. */
  predicate Blank(s: string) {
    forall c <- s :: c in {' ', '\t', '\n', '\U{b}', '\U{c}', '\r'}
  }

  /** The ASCII white space characters, by their codes: tab to carriage return, and the space. */
  lemma BlankMeans(s: string)
    ensures Blank(s) <==> forall i :: 0 <= i < |s| ==> 9 <= s[i] as int <= 13 || s[i] as int == 32
  {
    if Blank(s) {
      forall i | 0 <= i < |s| ensures 9 <= s[i] as int <= 13 || s[i] as int == 32 { assert s[i] in s; }
    }
  }

  predicate GoodIdentities(entries: seq<IdentityEntry>) {
    entries != [] && forall x <- entries :: x.identity != "" && x.description != ""
  }

  predicate GoodResources(name: string, entries: seq<ResourceEntry>) {
    !Blank(name) && forall x <- entries :: x.name != ""
  }

  /** Whether the record violates a check. */
  predicate Violates(a: Record, c: Check) {
    match c
    case ServiceTreeIDRequired => a.serviceTreeID == ""
    case OperationNameRequired => a.operationName == ""
    case CategoryRequired => a.operationCategories == []
    case CategoryDescriptionRequired => OC_OTHER in a.operationCategories && a.operationCategoryDescription == ""
    case ResultDescriptionRequired => a.operationResult == RESULT_FAILURE && a.operationResultDescription == ""
    case OperationAccessLevelRequired => a.operationAccessLevel == ""
    case CallerAgentRequired => a.callerAgent == ""
    case IdentityRequired => a.callerIdentities == map[]
    case BadIdentities => exists k <- a.callerIdentities :: !GoodIdentities(a.callerIdentities[k])
    case AddressRequired => !a.callerIpAddress.valid
    case AddressUnspecified => a.callerIpAddress.unspecified
    case AddressLoopback => a.callerIpAddress.loopback
    case AddressMulticast => a.callerIpAddress.multicast
    case AccessLevelRequired => a.callerAccessLevels == []
    case AccessLevelBlank => exists k <- a.callerAccessLevels :: Blank(k)
    case ResourceRequired => a.targetResources == map[]
    case BadResources => exists k <- a.targetResources :: !GoodResources(k, a.targetResources[k])
  }

  ghost predicate IsValid(a: Record) {
    forall c: Check :: !Violates(a, c)
  }

  /** The rank of a check in the order of Validate. */
  function Rank(c: Check): nat {
    match c
    case ServiceTreeIDRequired => 0
    case OperationNameRequired => 1
    case CategoryRequired => 2
    case CategoryDescriptionRequired => 3
    case ResultDescriptionRequired => 4
    case OperationAccessLevelRequired => 5
    case CallerAgentRequired => 6
    case IdentityRequired => 7
    case BadIdentities => 8
    case AddressRequired => 9
    case AddressUnspecified => 10
    case AddressLoopback => 11
    case AddressMulticast => 12
    case AccessLevelRequired => 13
    case AccessLevelBlank => 14
    case ResourceRequired => 15
    case BadResources => 16
  }

  datatype Verdict = Valid | Invalid(check: Check)

  /** The first violated check decides. */
  ghost predicate FirstViolation(a: Record, v: Verdict) {
    match v
    case Valid => IsValid(a)
    case Invalid(c) => Violates(a, c) && PassesBelow(a, Rank(c))
  }

  /** The first n checks are met. */
  ghost predicate PassesBelow(a: Record, n: nat) {
    forall d: Check :: Rank(d) < n ==> !Violates(a, d)
  }

  lemma PassesNext(a: Record, c: Check)
    requires PassesBelow(a, Rank(c)) && !Violates(a, c)
    ensures PassesBelow(a, Rank(c) + 1)
  {
    forall d: Check | Rank(d) < Rank(c) + 1 ensures !Violates(a, d) {
      if Rank(d) == Rank(c) && d != c { RankIsInjective(c, d); }
    }
  }

  /** CallerIdentityEntry.Validate, over a list, and the demand that the list is not empty. */
  method ValidateIdentities(entries: seq<IdentityEntry>) returns (ok: bool)
    ensures ok <==> GoodIdentities(entries)
  {
    if |entries| == 0 { return false; }
    for i := 0 to |entries|
      invariant forall j :: 0 <= j < i ==> entries[j].identity != "" && entries[j].description != ""
    {
      if entries[i].identity == "" { return false; }
      if entries[i].description == "" { return false; }
    }
    return true;
  }

  /** One round of the loop over the target resources. */
  method ValidateResources(name: string, entries: seq<ResourceEntry>) returns (ok: bool)
    ensures ok <==> GoodResources(name, entries)
  {
    if Blank(name) { return false; }
    for i := 0 to |entries|
      invariant forall j :: 0 <= j < i ==> entries[j].name != ""
    {
      if entries[i].name == "" { return false; }
    }
    return true;
  }

  /** The loop over the caller identities. A Go map is ranged over in an arbitrary order: any key may come next. */
  method RangeIdentities(m: map<IdentityType, seq<IdentityEntry>>) returns (ok: bool)
    ensures ok <==> forall k <- m :: GoodIdentities(m[k])
  {
    var rest := m.Keys;
    while rest != {}
      invariant rest <= m.Keys
      invariant forall k <- m.Keys - rest :: GoodIdentities(m[k])
    {
      var k :| k in rest;
      ok := ValidateIdentities(m[k]);
      if !ok { return; }
      rest := rest - {k};
    }
    return true;
  }

  /** The loop over the target resources, in an arbitrary order. */
  method RangeResources(m: map<string, seq<ResourceEntry>>) returns (ok: bool)
    ensures ok <==> forall k <- m :: GoodResources(k, m[k])
  {
    var rest := m.Keys;
    while rest != {}
      invariant rest <= m.Keys
      invariant forall k <- m.Keys - rest :: GoodResources(k, m[k])
    {
      var k :| k in rest;
      ok := ValidateResources(k, m[k]);
      if !ok { return; }
      rest := rest - {k};
    }
    return true;
  }

  /** Validate, up to the operation categories. */
  method ValidateOperation(a: Record) returns (v: Verdict)
    requires PassesBelow(a, Rank(ServiceTreeIDRequired))
    ensures if v.Valid? then PassesBelow(a, Rank(CategoryDescriptionRequired) + 1) else FirstViolation(a, v)
  {
    if a.serviceTreeID == "" { return Invalid(ServiceTreeIDRequired); }
    PassesNext(a, ServiceTreeIDRequired);
    if a.operationName == "" { return Invalid(OperationNameRequired); }
    PassesNext(a, OperationNameRequired);
    if |a.operationCategories| == 0 { return Invalid(CategoryRequired); }
    PassesNext(a, CategoryRequired);
    for i := 0 to |a.operationCategories|
      invariant PassesBelow(a, Rank(CategoryDescriptionRequired))
      invariant a.operationCategoryDescription == "" ==> OC_OTHER !in a.operationCategories[..i]
    {
      if a.operationCategories[i] == OC_OTHER && a.operationCategoryDescription == "" {
        return Invalid(CategoryDescriptionRequired);
      }
    }
    PassesNext(a, CategoryDescriptionRequired);
    return Valid;
  }

  /** Validate, from the operation result to the caller identities. */
  method ValidateCaller(a: Record) returns (v: Verdict)
    requires PassesBelow(a, Rank(ResultDescriptionRequired))
    ensures if v.Valid? then PassesBelow(a, Rank(BadIdentities) + 1) else FirstViolation(a, v)
  {
    if a.operationResult == RESULT_FAILURE && a.operationResultDescription == "" {
      return Invalid(ResultDescriptionRequired);
    }
    PassesNext(a, ResultDescriptionRequired);
    if a.operationAccessLevel == "" { return Invalid(OperationAccessLevelRequired); }
    PassesNext(a, OperationAccessLevelRequired);
    if a.callerAgent == "" { return Invalid(CallerAgentRequired); }
    PassesNext(a, CallerAgentRequired);
    if |a.callerIdentities| == 0 { return Invalid(IdentityRequired); }
    PassesNext(a, IdentityRequired);
    var ok := RangeIdentities(a.callerIdentities);
    if !ok { return Invalid(BadIdentities); }
    PassesNext(a, BadIdentities);
    return Valid;
  }

  /** Validate, the caller's address. */
  method ValidateAddress(a: Record) returns (v: Verdict)
    requires PassesBelow(a, Rank(AddressRequired))
    ensures if v.Valid? then PassesBelow(a, Rank(AddressMulticast) + 1) else FirstViolation(a, v)
  {
    if !a.callerIpAddress.valid { return Invalid(AddressRequired); }
    PassesNext(a, AddressRequired);
    if a.callerIpAddress.unspecified { return Invalid(AddressUnspecified); }
    PassesNext(a, AddressUnspecified);
    if a.callerIpAddress.loopback { return Invalid(AddressLoopback); }
    PassesNext(a, AddressLoopback);
    if a.callerIpAddress.multicast { return Invalid(AddressMulticast); }
    PassesNext(a, AddressMulticast);
    return Valid;
  }

  /** Validate, from the access levels on. */
  method ValidateAccess(a: Record) returns (v: Verdict)
    requires PassesBelow(a, Rank(AccessLevelRequired))
    ensures if v.Valid? then PassesBelow(a, Rank(BadResources) + 1) else FirstViolation(a, v)
  {
    if |a.callerAccessLevels| == 0 { return Invalid(AccessLevelRequired); }
    PassesNext(a, AccessLevelRequired);
    for i := 0 to |a.callerAccessLevels|
      invariant PassesBelow(a, Rank(AccessLevelBlank))
      invariant forall k <- a.callerAccessLevels[..i] :: !Blank(k)
    {
      if Blank(a.callerAccessLevels[i]) { return Invalid(AccessLevelBlank); }
    }
    PassesNext(a, AccessLevelBlank);
    if |a.targetResources| == 0 { return Invalid(ResourceRequired); }
    PassesNext(a, ResourceRequired);
    var ok := RangeResources(a.targetResources);
    if !ok { return Invalid(BadResources); }
    PassesNext(a, BadResources);
    return Valid;
  }

  /** Validate reports the first violated check, whatever the order in which the two maps are ranged over. */
  method Validate(a: Record) returns (v: Verdict)
    ensures FirstViolation(a, v)
  {
    v := ValidateOperation(a);
    if v.Invalid? { return; }
    v := ValidateCaller(a);
    if v.Invalid? { return; }
    v := ValidateAddress(a);
    if v.Invalid? { return; }
    v := ValidateAccess(a);
  }

  /** What Validate reports is determined by the record alone, so it cannot depend on the order of iteration. */
  lemma VerdictIsUnique(a: Record, v: Verdict, w: Verdict)
    requires FirstViolation(a, v) && FirstViolation(a, w)
    ensures v == w
    ensures v.Valid? <==> IsValid(a)
  {
    if v.Invalid? && w.Invalid? && v != w {
      RankIsInjective(v.check, w.check);
    }
  }

  lemma RankIsInjective(c: Check, d: Check)
    requires c != d
    ensures Rank(c) != Rank(d)
  {
  }
}
