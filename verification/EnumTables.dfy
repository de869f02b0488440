/** The four tables that the decoders use: their packed names and offsets as they stand in the Go files,
    the longer names cut into literals that follow each other. */
module EnumTables {
  import opened Enums

  // --- Packing --------------------------------------------------------------------------------------------

  function Join(es: seq<string>): string {
    if es == [] then "" else Join(es[..|es| - 1]) + es[|es| - 1]
  }

  /** The offsets from the given one on are those of these names. */
  ghost predicate Offsets(index: seq<nat>, from: nat, es: seq<string>) {
    from + |es| < |index| && forall i :: 0 <= i < |es| ==> index[from + i + 1] == index[from + i] + |es[i]|
  }

  /** The index of a table is made of the lengths of these names, and its packed name is the names joined. */
  ghost predicate Packs(t: Table, es: seq<string>) {
    |t.index| == |es| + 1 && t.index[0] == 0 && Offsets(t.index, 0, es) && t.names == Join(es)
  }

  lemma JoinStep(es: seq<string>, k: nat)
    requires k < |es|
    ensures Join(es[..k + 1]) == Join(es[..k]) + es[k]
  {
    assert es[..k + 1][..k] == es[..k];
  }

  /** The first k names take up exactly the bytes before the k-th offset. */
  lemma {:induction false} JoinPrefix(t: Table, es: seq<string>, k: nat)
    requires Packs(t, es) && k <= |es|
    ensures |Join(es[..k])| == t.index[k]
  {
    if k > 0 {
      JoinPrefix(t, es, k - 1);
      JoinStep(es, k - 1);
      assert t.index[0 + (k - 1) + 1] == t.index[0 + (k - 1)] + |es[k - 1]|;
    }
  }

  lemma {:induction false} JoinGrows(es: seq<string>, j: nat, k: nat)
    requires j <= k <= |es|
    ensures Join(es[..j]) <= Join(es[..k])
    decreases k - j
  {
    if j < k {
      JoinGrows(es, j, k - 1);
      JoinStep(es, k - 1);
    }
  }

  /** The bytes between two offsets are the name between them. */
  ghost predicate EntryIs(t: Table, es: seq<string>, i: nat) {
    && i < |es| && i + 1 < |t.index|
    && t.index[i] <= t.index[i + 1] <= |t.names|
    && t.names[t.index[i]..t.index[i + 1]] == es[i]
  }

  lemma PackedEntry(t: Table, es: seq<string>, i: nat)
    requires Packs(t, es) && i < |es|
    ensures EntryIs(t, es, i)
  {
    assert es[..|es|] == es;
    JoinPrefix(t, es, i);
    JoinPrefix(t, es, i + 1);
    JoinStep(es, i);
    JoinGrows(es, i + 1, |es|);
  }

  /** A packed table is valid, and its entries are the names it was packed from. */
  lemma PackedEntries(t: Table, es: seq<string>)
    requires Packs(t, es)
    ensures t.Valid() && t.Size() == |es|
    ensures forall i :: 0 <= i < |es| ==> t.Entry(i) == es[i]
  {
    forall i | 0 <= i < |es| ensures EntryIs(t, es, i) {
      PackedEntry(t, es, i);
    }
    JoinPrefix(t, es, |es|);
    assert es[..|es|] == es;
    forall i | 0 <= i < |t.index| ensures t.index[i] <= |t.names| {
      if i < |es| { assert EntryIs(t, es, i); }
    }
    forall i | 0 <= i < |t.index| - 1 ensures t.index[i] <= t.index[i + 1] {
      assert EntryIs(t, es, i);
    }
    forall i | 0 <= i < |es| ensures t.Entry(i) == es[i] {
      assert EntryIs(t, es, i);
    }
  }

  lemma {:induction false} JoinConcat(es: seq<string>, fs: seq<string>)
    ensures Join(es + fs) == Join(es) + Join(fs)
  {
    if fs == [] {
      assert es + fs == es;
    } else {
      var k := |fs| - 1;
      assert (es + fs)[..|es| + k] == es + fs[..k];
      JoinConcat(es, fs[..k]);
    }
  }

  lemma JoinThree(a: string, b: string, c: string)
    ensures Join([a, b]) == a + b && Join([a, b, c]) == a + b + c
  {
    assert [a] + [b] == [a, b];
    JoinConcat([a], [b]);
    assert [a, b] + [c] == [a, b, c];
    JoinConcat([a, b], [c]);
  }

  // --- Telling names apart --------------------------------------------------------------------------------

  /** The length and the first two letters, in lower case, of a name. */
  datatype Key = Key(length: nat, first: char, second: char)

  function KeyOf(s: string): Key
    requires |s| >= 2
  {
    Key(|s|, LowerChar(s[0]), LowerChar(s[1]))
  }

  lemma KeysTellApart(s: string, t: string)
    requires |s| >= 2 && |t| >= 2 && KeyOf(s) != KeyOf(t)
    ensures !SameLetters(s, t)
  {
    LowerCharMeans(s[0], t[0]);
    LowerCharMeans(s[1], t[1]);
  }

  /** A proper name: short, printable at its start, without a parenthesis or quotation marks at its ends. */
  predicate Proper(s: string) {
    2 <= |s| < 32 && s[0] as int >= 32 && '(' !in s && !Quote(s[0]) && !Quote(s[|s| - 1])
  }

  /** These are proper names, and their keys number them from the given number on. */
  ghost predicate Numbered(es: seq<string>, number: Key -> nat, from: nat) {
    forall i :: 0 <= i < |es| ==> Proper(es[i]) && number(KeyOf(es[i])) == from + i
  }

  /** Names that follow each other in a table: their offsets, their numbers and their part of the packed name. */
  ghost predicate Part(index: seq<nat>, number: Key -> nat, from: nat, es: seq<string>, packed: string) {
    Offsets(index, from, es) && Numbered(es, number, from) && packed == Join(es)
  }

  lemma PartsJoin(index: seq<nat>, number: Key -> nat, es: seq<string>, p: string, fs: seq<string>, q: string)
    requires Part(index, number, 0, es, p) && Part(index, number, |es|, fs, q)
    ensures Part(index, number, 0, es + fs, p + q)
  {
    NumberedConcat(es, fs, number);
    OffsetsConcat(index, es, fs);
    JoinConcat(es, fs);
  }

  lemma NumberedConcat(es: seq<string>, fs: seq<string>, number: Key -> nat)
    requires Numbered(es, number, 0) && Numbered(fs, number, |es|)
    ensures Numbered(es + fs, number, 0)
  {
    forall i | 0 <= i < |es + fs| ensures Proper((es + fs)[i]) && number(KeyOf((es + fs)[i])) == i {
      if i >= |es| { assert (es + fs)[i] == fs[i - |es|]; }
    }
  }

  lemma OffsetsConcat(index: seq<nat>, es: seq<string>, fs: seq<string>)
    requires Offsets(index, 0, es) && Offsets(index, |es|, fs)
    ensures Offsets(index, 0, es + fs)
  {
    forall i | 0 <= i < |es + fs| ensures index[0 + i + 1] == index[0 + i] + |(es + fs)[i]| {
      if i >= |es| {
        var j := i - |es|;
        assert index[|es| + j + 1] == index[|es| + j] + |fs[j]|;
      } else {
        assert index[0 + i + 1] == index[0 + i] + |es[i]|;
      }
    }
  }

  /** What the theorems about tables ask for. */
  ghost predicate Good(t: Table) {
    t.Valid() && t.Distinct() && ShortNames(t) && Printable(t) && NoParenthesis(t) && Unquoted(t)
  }

  /** A packed table of proper names, told apart by their keys, is good. */
  lemma GoodTable(t: Table, es: seq<string>, number: Key -> nat)
    requires |t.index| == |es| + 1 && t.index[0] == 0 && Part(t.index, number, 0, es, t.names)
    requires t.typeName != [] && !Quote(t.typeName[0])
    ensures Good(t) && t.Size() == |es| && forall i :: 0 <= i < |es| ==> t.Entry(i) == es[i]
  {
    PackedEntries(t, es);
    forall i | 0 <= i < |es| ensures Proper(t.Entry(i)) && number(KeyOf(t.Entry(i))) == i {
      assert t.Entry(i) == es[i];
    }
    NumberedDistinct(t, number);
  }

  lemma NumberedDistinct(t: Table, number: Key -> nat)
    requires t.Valid()
    requires forall i :: 0 <= i < t.Size() ==> Proper(t.Entry(i)) && number(KeyOf(t.Entry(i))) == i
    ensures t.Distinct()
  {
    forall i, j | 0 <= i < j < t.Size() ensures !SameLetters(t.Entry(i), t.Entry(j)) {
      KeysTellApart(t.Entry(i), t.Entry(j));
    }
  }

  // --- OperationType ---------------------------------------------------------------------------------------

  const OPERATION_TYPE_NAME :=
    "UnknownOperationTypeRead" + "UpdateCreate" + "Delete"

  const OPERATION_TYPE_INDEX: seq<nat> := [
    0, 20, 24, 30, 36, 42]

  const OPERATION_TYPE := Table("OperationType", OPERATION_TYPE_NAME, OPERATION_TYPE_INDEX)

  function OperationTypeNumber(k: Key): nat {
    if k.length == 4 then 1
    else if k.length == 6 then if k.first == 'u' then 2 else if k.first == 'c' then 3 else 4
    else if k.length == 20 then 0
    else 0
  }

  lemma OperationTypeNames1()
    ensures Numbered(["UnknownOperationType", "Read"], OperationTypeNumber, 0)
    ensures Offsets(OPERATION_TYPE_INDEX, 0, ["UnknownOperationType", "Read"])
  {
  }

  lemma OperationTypePacked1()
    ensures "UnknownOperationTypeRead"
            == Join(["UnknownOperationType", "Read"])
  {
    JoinThree("UnknownOperationType", "Read", "");
  }

  lemma OperationTypeNames2()
    ensures Numbered(["Update", "Create"], OperationTypeNumber, 2)
    ensures Offsets(OPERATION_TYPE_INDEX, 2, ["Update", "Create"])
  {
  }

  lemma OperationTypePacked2()
    ensures "UpdateCreate"
            == Join(["Update", "Create"])
  {
    JoinThree("Update", "Create", "");
  }

  lemma OperationTypeNames3()
    ensures Numbered(["Delete"], OperationTypeNumber, 4)
    ensures Offsets(OPERATION_TYPE_INDEX, 4, ["Delete"])
  {
  }

  lemma OperationTypeIsGood()
    ensures Good(OPERATION_TYPE) && OPERATION_TYPE.Size() == 5
  {
    OperationTypeNames1();
    OperationTypePacked1();
    var es, p := ["UnknownOperationType", "Read"], "UnknownOperationTypeRead";
    OperationTypeNames2();
    OperationTypePacked2();
    PartsJoin(OPERATION_TYPE_INDEX, OperationTypeNumber, es, p,
              ["Update", "Create"], "UpdateCreate");
    es, p := es + ["Update", "Create"], p + "UpdateCreate";
    OperationTypeNames3();
    PartsJoin(OPERATION_TYPE_INDEX, OperationTypeNumber, es, p,
              ["Delete"], "Delete");
    es, p := es + ["Delete"], p + "Delete";
    GoodTable(OPERATION_TYPE, es, OperationTypeNumber);
  }

  // --- OperationResult -------------------------------------------------------------------------------------

  const OPERATION_RESULT_NAME :=
    "UnknownOperationResultSuccessFailure"

  const OPERATION_RESULT_INDEX: seq<nat> := [
    0, 22, 29, 36]

  const OPERATION_RESULT := Table("OperationResult", OPERATION_RESULT_NAME, OPERATION_RESULT_INDEX)

  function OperationResultNumber(k: Key): nat {
    if k.length == 7 then if k.first == 's' then 1 else 2
    else if k.length == 22 then 0
    else 0
  }

  lemma OperationResultNames1()
    ensures Numbered(["UnknownOperationResult", "Success", "Failure"], OperationResultNumber, 0)
    ensures Offsets(OPERATION_RESULT_INDEX, 0, ["UnknownOperationResult", "Success", "Failure"])
  {
  }

  lemma OperationResultPacked1()
    ensures "UnknownOperationResultSuccessFailure"
            == Join(["UnknownOperationResult", "Success", "Failure"])
  {
    JoinThree("UnknownOperationResult", "Success", "Failure");
  }

  lemma OperationResultIsGood()
    ensures Good(OPERATION_RESULT) && OPERATION_RESULT.Size() == 3
  {
    OperationResultNames1();
    OperationResultPacked1();
    var es, p := ["UnknownOperationResult", "Success", "Failure"], "UnknownOperationResultSuccessFailure";
    GoodTable(OPERATION_RESULT, es, OperationResultNumber);
  }

  // --- CallerIdentityType ----------------------------------------------------------------------------------

  const CALLER_IDENTITY_TYPE_NAME :=
    "UnknownCallerIdentityTypeCIOther" + "UPNPUID" + "ObjectIDCertificateClaim" + "UsernameAccessKeyName" +
    "SubscriptionIDApplicationID" + "TenantIDTokenID" + "SasURLSystem"

  const CALLER_IDENTITY_TYPE_INDEX: seq<nat> := [
    0, 25, 32, 35, 39, 47, 58, 63, 71, 84, 98, 111, 119, 126, 132, 138]

  const CALLER_IDENTITY_TYPE := Table("CallerIdentityType", CALLER_IDENTITY_TYPE_NAME, CALLER_IDENTITY_TYPE_INDEX)

  function CallerIdentityTypeNumber(k: Key): nat {
    if k.length == 3 then 2
    else if k.length == 4 then 3
    else if k.length == 5 then 6
    else if k.length == 6 then if k.first == 's' && k.second == 'a' then 13 else 14
    else if k.length == 7 then if k.first == 'c' then 1 else 12
    else if k.length == 8 then if k.first == 'o' then 4 else if k.first == 'u' then 7 else 11
    else if k.length == 11 then 5
    else if k.length == 13 then if k.first == 'a' && k.second == 'c' then 8 else 10
    else if k.length == 14 then 9
    else if k.length == 25 then 0
    else 0
  }

  lemma CallerIdentityTypeNames1()
    ensures Numbered(["UnknownCallerIdentityType", "CIOther"], CallerIdentityTypeNumber, 0)
    ensures Offsets(CALLER_IDENTITY_TYPE_INDEX, 0, ["UnknownCallerIdentityType", "CIOther"])
  {
  }

  lemma CallerIdentityTypePacked1()
    ensures "UnknownCallerIdentityTypeCIOther"
            == Join(["UnknownCallerIdentityType", "CIOther"])
  {
    JoinThree("UnknownCallerIdentityType", "CIOther", "");
  }

  lemma CallerIdentityTypeNames2()
    ensures Numbered(["UPN", "PUID"], CallerIdentityTypeNumber, 2)
    ensures Offsets(CALLER_IDENTITY_TYPE_INDEX, 2, ["UPN", "PUID"])
  {
  }

  lemma CallerIdentityTypePacked2()
    ensures "UPNPUID"
            == Join(["UPN", "PUID"])
  {
    JoinThree("UPN", "PUID", "");
  }

  lemma CallerIdentityTypeNames3()
    ensures Numbered(["ObjectID", "Certificate", "Claim"], CallerIdentityTypeNumber, 4)
    ensures Offsets(CALLER_IDENTITY_TYPE_INDEX, 4, ["ObjectID", "Certificate", "Claim"])
  {
  }

  lemma CallerIdentityTypePacked3()
    ensures "ObjectIDCertificateClaim"
            == Join(["ObjectID", "Certificate", "Claim"])
  {
    JoinThree("ObjectID", "Certificate", "Claim");
  }

  lemma CallerIdentityTypeNames4()
    ensures Numbered(["Username", "AccessKeyName"], CallerIdentityTypeNumber, 7)
    ensures Offsets(CALLER_IDENTITY_TYPE_INDEX, 7, ["Username", "AccessKeyName"])
  {
  }

  lemma CallerIdentityTypePacked4()
    ensures "UsernameAccessKeyName"
            == Join(["Username", "AccessKeyName"])
  {
    JoinThree("Username", "AccessKeyName", "");
  }

  lemma CallerIdentityTypeNames5()
    ensures Numbered(["SubscriptionID", "ApplicationID"], CallerIdentityTypeNumber, 9)
    ensures Offsets(CALLER_IDENTITY_TYPE_INDEX, 9, ["SubscriptionID", "ApplicationID"])
  {
  }

  lemma CallerIdentityTypePacked5()
    ensures "SubscriptionIDApplicationID"
            == Join(["SubscriptionID", "ApplicationID"])
  {
    JoinThree("SubscriptionID", "ApplicationID", "");
  }

  lemma CallerIdentityTypeNames6()
    ensures Numbered(["TenantID", "TokenID"], CallerIdentityTypeNumber, 11)
    ensures Offsets(CALLER_IDENTITY_TYPE_INDEX, 11, ["TenantID", "TokenID"])
  {
  }

  lemma CallerIdentityTypePacked6()
    ensures "TenantIDTokenID"
            == Join(["TenantID", "TokenID"])
  {
    JoinThree("TenantID", "TokenID", "");
  }

  lemma CallerIdentityTypeNames7()
    ensures Numbered(["SasURL", "System"], CallerIdentityTypeNumber, 13)
    ensures Offsets(CALLER_IDENTITY_TYPE_INDEX, 13, ["SasURL", "System"])
  {
  }

  lemma CallerIdentityTypePacked7()
    ensures "SasURLSystem"
            == Join(["SasURL", "System"])
  {
    JoinThree("SasURL", "System", "");
  }

  lemma CallerIdentityTypeIsGood()
    ensures Good(CALLER_IDENTITY_TYPE) && CALLER_IDENTITY_TYPE.Size() == 15
  {
    CallerIdentityTypeNames1();
    CallerIdentityTypePacked1();
    var es, p := ["UnknownCallerIdentityType", "CIOther"], "UnknownCallerIdentityTypeCIOther";
    CallerIdentityTypeNames2();
    CallerIdentityTypePacked2();
    PartsJoin(CALLER_IDENTITY_TYPE_INDEX, CallerIdentityTypeNumber, es, p,
              ["UPN", "PUID"], "UPNPUID");
    es, p := es + ["UPN", "PUID"], p + "UPNPUID";
    CallerIdentityTypeNames3();
    CallerIdentityTypePacked3();
    PartsJoin(CALLER_IDENTITY_TYPE_INDEX, CallerIdentityTypeNumber, es, p,
              ["ObjectID", "Certificate", "Claim"], "ObjectIDCertificateClaim");
    es, p := es + ["ObjectID", "Certificate", "Claim"], p + "ObjectIDCertificateClaim";
    CallerIdentityTypeNames4();
    CallerIdentityTypePacked4();
    PartsJoin(CALLER_IDENTITY_TYPE_INDEX, CallerIdentityTypeNumber, es, p,
              ["Username", "AccessKeyName"], "UsernameAccessKeyName");
    es, p := es + ["Username", "AccessKeyName"], p + "UsernameAccessKeyName";
    CallerIdentityTypeNames5();
    CallerIdentityTypePacked5();
    PartsJoin(CALLER_IDENTITY_TYPE_INDEX, CallerIdentityTypeNumber, es, p,
              ["SubscriptionID", "ApplicationID"], "SubscriptionIDApplicationID");
    es, p := es + ["SubscriptionID", "ApplicationID"], p + "SubscriptionIDApplicationID";
    CallerIdentityTypeNames6();
    CallerIdentityTypePacked6();
    PartsJoin(CALLER_IDENTITY_TYPE_INDEX, CallerIdentityTypeNumber, es, p,
              ["TenantID", "TokenID"], "TenantIDTokenID");
    es, p := es + ["TenantID", "TokenID"], p + "TenantIDTokenID";
    CallerIdentityTypeNames7();
    CallerIdentityTypePacked7();
    PartsJoin(CALLER_IDENTITY_TYPE_INDEX, CallerIdentityTypeNumber, es, p,
              ["SasURL", "System"], "SasURLSystem");
    es, p := es + ["SasURL", "System"], p + "SasURLSystem";
    GoodTable(CALLER_IDENTITY_TYPE, es, CallerIdentityTypeNumber);
  }

  // --- OperationCategory -----------------------------------------------------------------------------------

  const OPERATION_CATEGORY_NAME :=
    "UnknownOperationCategoryOCOther" + "UserManagementGroupManagement" + "AuthenticationAuthorization" +
    "RoleManagementApplicationManagement" + "KeyManagementDirectoryManagement" +
    "ResourceManagementPolicyManagement" + "DeviceManagementEntitlementManagement" +
    "PasswordManagementIdentityProtection" + "ObjectManagementProvisioningManagement" + "CustomerFacingEUII"

  const OPERATION_CATEGORY_INDEX: seq<nat> := [
    0, 24, 31, 45, 60, 74, 87, 101, 122, 135, 154, 172, 188, 204, 225, 243, 261, 277, 299, 313, 317]

  const OPERATION_CATEGORY := Table("OperationCategory", OPERATION_CATEGORY_NAME, OPERATION_CATEGORY_INDEX)

  function OperationCategoryNumber(k: Key): nat {
    if k.length == 4 then 19
    else if k.length == 7 then 1
    else if k.length == 13 then if k.first == 'a' then 5 else 8
    else if k.length == 14 then
      if k.first == 'u' then 2
      else if k.first == 'a' then 4
      else if k.first == 'r' then 6
      else 18
    else if k.length == 15 then 3
    else if k.length == 16 then if k.first == 'p' then 11 else if k.first == 'd' then 12 else 16
    else if k.length == 18 then if k.first == 'r' then 10 else if k.first == 'p' then 14 else 15
    else if k.length == 19 then 9
    else if k.length == 21 then if k.first == 'a' then 7 else 13
    else if k.length == 22 then 17
    else if k.length == 24 then 0
    else 0
  }

  lemma OperationCategoryNames1()
    ensures Numbered(["UnknownOperationCategory", "OCOther"], OperationCategoryNumber, 0)
    ensures Offsets(OPERATION_CATEGORY_INDEX, 0, ["UnknownOperationCategory", "OCOther"])
  {
  }

  lemma OperationCategoryPacked1()
    ensures "UnknownOperationCategoryOCOther"
            == Join(["UnknownOperationCategory", "OCOther"])
  {
    JoinThree("UnknownOperationCategory", "OCOther", "");
  }

  lemma OperationCategoryNames2()
    ensures Numbered(["UserManagement", "GroupManagement"], OperationCategoryNumber, 2)
    ensures Offsets(OPERATION_CATEGORY_INDEX, 2, ["UserManagement", "GroupManagement"])
  {
  }

  lemma OperationCategoryPacked2()
    ensures "UserManagementGroupManagement"
            == Join(["UserManagement", "GroupManagement"])
  {
    JoinThree("UserManagement", "GroupManagement", "");
  }

  lemma OperationCategoryNames3()
    ensures Numbered(["Authentication", "Authorization"], OperationCategoryNumber, 4)
    ensures Offsets(OPERATION_CATEGORY_INDEX, 4, ["Authentication", "Authorization"])
  {
  }

  lemma OperationCategoryPacked3()
    ensures "AuthenticationAuthorization"
            == Join(["Authentication", "Authorization"])
  {
    JoinThree("Authentication", "Authorization", "");
  }

  lemma OperationCategoryNames4()
    ensures Numbered(["RoleManagement", "ApplicationManagement"], OperationCategoryNumber, 6)
    ensures Offsets(OPERATION_CATEGORY_INDEX, 6, ["RoleManagement", "ApplicationManagement"])
  {
  }

  lemma OperationCategoryPacked4()
    ensures "RoleManagementApplicationManagement"
            == Join(["RoleManagement", "ApplicationManagement"])
  {
    JoinThree("RoleManagement", "ApplicationManagement", "");
  }

  lemma OperationCategoryNames5()
    ensures Numbered(["KeyManagement", "DirectoryManagement"], OperationCategoryNumber, 8)
    ensures Offsets(OPERATION_CATEGORY_INDEX, 8, ["KeyManagement", "DirectoryManagement"])
  {
  }

  lemma OperationCategoryPacked5()
    ensures "KeyManagementDirectoryManagement"
            == Join(["KeyManagement", "DirectoryManagement"])
  {
    JoinThree("KeyManagement", "DirectoryManagement", "");
  }

  lemma OperationCategoryNames6()
    ensures Numbered(["ResourceManagement", "PolicyManagement"], OperationCategoryNumber, 10)
    ensures Offsets(OPERATION_CATEGORY_INDEX, 10, ["ResourceManagement", "PolicyManagement"])
  {
  }

  lemma OperationCategoryPacked6()
    ensures "ResourceManagementPolicyManagement"
            == Join(["ResourceManagement", "PolicyManagement"])
  {
    JoinThree("ResourceManagement", "PolicyManagement", "");
  }

  lemma OperationCategoryNames7()
    ensures Numbered(["DeviceManagement", "EntitlementManagement"], OperationCategoryNumber, 12)
    ensures Offsets(OPERATION_CATEGORY_INDEX, 12, ["DeviceManagement", "EntitlementManagement"])
  {
  }

  lemma OperationCategoryPacked7()
    ensures "DeviceManagementEntitlementManagement"
            == Join(["DeviceManagement", "EntitlementManagement"])
  {
    JoinThree("DeviceManagement", "EntitlementManagement", "");
  }

  lemma OperationCategoryNames8()
    ensures Numbered(["PasswordManagement", "IdentityProtection"], OperationCategoryNumber, 14)
    ensures Offsets(OPERATION_CATEGORY_INDEX, 14, ["PasswordManagement", "IdentityProtection"])
  {
  }

  lemma OperationCategoryPacked8()
    ensures "PasswordManagementIdentityProtection"
            == Join(["PasswordManagement", "IdentityProtection"])
  {
    JoinThree("PasswordManagement", "IdentityProtection", "");
  }

  lemma OperationCategoryNames9()
    ensures Numbered(["ObjectManagement", "ProvisioningManagement"], OperationCategoryNumber, 16)
    ensures Offsets(OPERATION_CATEGORY_INDEX, 16, ["ObjectManagement", "ProvisioningManagement"])
  {
  }

  lemma OperationCategoryPacked9()
    ensures "ObjectManagementProvisioningManagement"
            == Join(["ObjectManagement", "ProvisioningManagement"])
  {
    JoinThree("ObjectManagement", "ProvisioningManagement", "");
  }

  lemma OperationCategoryNames10()
    ensures Numbered(["CustomerFacing", "EUII"], OperationCategoryNumber, 18)
    ensures Offsets(OPERATION_CATEGORY_INDEX, 18, ["CustomerFacing", "EUII"])
  {
  }

  lemma OperationCategoryPacked10()
    ensures "CustomerFacingEUII"
            == Join(["CustomerFacing", "EUII"])
  {
    JoinThree("CustomerFacing", "EUII", "");
  }

  /** The first half of the table. */
  lemma OperationCategoryBegins() returns (es: seq<string>, p: string)
    ensures Part(OPERATION_CATEGORY_INDEX, OperationCategoryNumber, 0, es, p) && |es| == 10 && es[5] == "Authorization"
    ensures p == "UnknownOperationCategoryOCOther" + "UserManagementGroupManagement" +
                 "AuthenticationAuthorization" + "RoleManagementApplicationManagement" +
                 "KeyManagementDirectoryManagement"
  {
    OperationCategoryNames1();
    OperationCategoryPacked1();
    es, p := ["UnknownOperationCategory", "OCOther"], "UnknownOperationCategoryOCOther";
    OperationCategoryNames2();
    OperationCategoryPacked2();
    PartsJoin(OPERATION_CATEGORY_INDEX, OperationCategoryNumber, es, p,
              ["UserManagement", "GroupManagement"], "UserManagementGroupManagement");
    es, p := es + ["UserManagement", "GroupManagement"], p + "UserManagementGroupManagement";
    OperationCategoryNames3();
    OperationCategoryPacked3();
    PartsJoin(OPERATION_CATEGORY_INDEX, OperationCategoryNumber, es, p,
              ["Authentication", "Authorization"], "AuthenticationAuthorization");
    es, p := es + ["Authentication", "Authorization"], p + "AuthenticationAuthorization";
    OperationCategoryNames4();
    OperationCategoryPacked4();
    PartsJoin(OPERATION_CATEGORY_INDEX, OperationCategoryNumber, es, p,
              ["RoleManagement", "ApplicationManagement"], "RoleManagementApplicationManagement");
    es, p := es + ["RoleManagement", "ApplicationManagement"], p + "RoleManagementApplicationManagement";
    OperationCategoryNames5();
    OperationCategoryPacked5();
    PartsJoin(OPERATION_CATEGORY_INDEX, OperationCategoryNumber, es, p,
              ["KeyManagement", "DirectoryManagement"], "KeyManagementDirectoryManagement");
    es, p := es + ["KeyManagement", "DirectoryManagement"], p + "KeyManagementDirectoryManagement";
  }

  lemma OperationCategoryIsGood()
    ensures Good(OPERATION_CATEGORY) && OPERATION_CATEGORY.Size() == 20
    ensures OPERATION_CATEGORY.Entry(5) == "Authorization"
  {
    var es, p := OperationCategoryBegins();
    OperationCategoryNames6();
    OperationCategoryPacked6();
    PartsJoin(OPERATION_CATEGORY_INDEX, OperationCategoryNumber, es, p,
              ["ResourceManagement", "PolicyManagement"], "ResourceManagementPolicyManagement");
    es, p := es + ["ResourceManagement", "PolicyManagement"], p + "ResourceManagementPolicyManagement";
    OperationCategoryNames7();
    OperationCategoryPacked7();
    PartsJoin(OPERATION_CATEGORY_INDEX, OperationCategoryNumber, es, p,
              ["DeviceManagement", "EntitlementManagement"], "DeviceManagementEntitlementManagement");
    es, p := es + ["DeviceManagement", "EntitlementManagement"], p + "DeviceManagementEntitlementManagement";
    OperationCategoryNames8();
    OperationCategoryPacked8();
    PartsJoin(OPERATION_CATEGORY_INDEX, OperationCategoryNumber, es, p,
              ["PasswordManagement", "IdentityProtection"], "PasswordManagementIdentityProtection");
    es, p := es + ["PasswordManagement", "IdentityProtection"], p + "PasswordManagementIdentityProtection";
    OperationCategoryNames9();
    OperationCategoryPacked9();
    PartsJoin(OPERATION_CATEGORY_INDEX, OperationCategoryNumber, es, p,
              ["ObjectManagement", "ProvisioningManagement"], "ObjectManagementProvisioningManagement");
    es, p := es + ["ObjectManagement", "ProvisioningManagement"], p + "ObjectManagementProvisioningManagement";
    OperationCategoryNames10();
    OperationCategoryPacked10();
    PartsJoin(OPERATION_CATEGORY_INDEX, OperationCategoryNumber, es, p,
              ["CustomerFacing", "EUII"], "CustomerFacingEUII");
    es, p := es + ["CustomerFacing", "EUII"], p + "CustomerFacingEUII";
    GoodTable(OPERATION_CATEGORY, es, OperationCategoryNumber);
  }

  // --- All of them ----------------------------------------------------------------------------------------

  lemma {:induction false} DecimalIsShort(n: nat)
    ensures |Decimal(n)| <= n + 1
  {
    if n >= 10 { DecimalIsShort(n / 10); }
  }

  /** For every value that the sixteen bits of an enum type can hold, marshalling and unmarshalling gives the value
      back if it is one of the type's, and 0 otherwise, in MessagePack and in JSON. */
  lemma EveryValueRoundTrips(t: Table, v: nat)
    requires t == OPERATION_TYPE || t == OPERATION_RESULT || t == CALLER_IDENTITY_TYPE || t == OPERATION_CATEGORY
    requires v < 0x1_0000
    ensures t.Valid() && |t.NameOf(v)| < 0x1_0000_0000
    ensures FromMsgpack(t, Encode(t.NameOf(v))) == Value(if v < t.Size() then v else 0)
    ensures FromJSON(t, "\"" + t.NameOf(v) + "\"") == if v < t.Size() then v else 0
  {
    TablesAreGood(t);
    DecimalIsShort(v);
    MsgpackRoundTrip(t, v);
    JSONRoundTrip(t, v);
  }

  lemma DecodesTo(t: Table, i: nat, name: string, s: string)
    requires Good(t) && i < t.Size() && t.Entry(i) == name && SameLetters(s, name)
    requires s != [] && !Quote(s[0]) && !Quote(s[|s| - 1])
    ensures t.ValueOf(s) == i && FromJSON(t, "\"" + s + "\"") == i
  {
    ValueOfMeans(t, s, i);
    TrimUnquotes("\"", s, "\"");
  }

  lemma Capitals()
    ensures SameLetters("AUTHORIZATION", "Authorization")
  {
    LowerMeans("AUTHORIZATION", "Authorization");
  }

  /** A name in capitals. */
  lemma CapitalsDecode()
    ensures OPERATION_CATEGORY.Valid() && OPERATION_CATEGORY.ValueOf("AUTHORIZATION") == 5
    ensures FromJSON(OPERATION_CATEGORY, "\"" + "AUTHORIZATION" + "\"") == 5
  {
    OperationCategoryIsGood();
    Capitals();
    DecodesTo(OPERATION_CATEGORY, 5, "Authorization", "AUTHORIZATION");
  }

  lemma TablesAreGood(t: Table)
    requires t == OPERATION_TYPE || t == OPERATION_RESULT || t == CALLER_IDENTITY_TYPE || t == OPERATION_CATEGORY
    ensures Good(t) && |t.typeName| <= 18
    ensures t.Size() == if t == OPERATION_TYPE then 5
                        else if t == OPERATION_RESULT then 3
                        else if t == CALLER_IDENTITY_TYPE then 15
                        else 20
  {
    OperationTypeIsGood();
    OperationResultIsGood();
    CallerIdentityTypeIsGood();
    OperationCategoryIsGood();
  }
}
