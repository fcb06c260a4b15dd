/** The controller's restic secrets: credentials gathered in package variables, the retain policy on its way
    from the user's secret to a ReplicationSource, and the path of the repository. */
module Secrets {
  import opened Prelude
  import opened Api
  import opened Decimal

  /** The user's secret: the value of its provider label, empty if there is none, and its data. Data that
      is absent reads as an empty map. */
  datatype UserSecret = UserSecret(provider: string, data: map<string, string>)

  predicate Known(provider: string) {
    provider in {"aws", "azure", "gcp"}
  }

  /******* Credentials *******/

  datatype Credential =
    | AwsAccessKey | AwsSecretKey | AwsRegion | AzureAccountName | AzureAccountKey | GoogleCredentials
    | CustomCA | Password

  function KeyOf(c: Credential): string {
    match c
    case AwsAccessKey => "AWS_ACCESS_KEY_ID"
    case AwsSecretKey => "AWS_SECRET_ACCESS_KEY"
    case AwsRegion => "AWS_DEFAULT_REGION"
    case AzureAccountName => "AZURE_ACCOUNT_NAME"
    case AzureAccountKey => "AZURE_ACCOUNT_KEY"
    case GoogleCredentials => "GOOGLE_APPLICATION_CREDENTIALS"
    case CustomCA => "RESTIC_CUSTOM_CA"
    case Password => "RESTIC_PASSWORD"
  }

  /** Whether the branch for a provider reads, and writes out, a credential. */
  predicate Uses(provider: string, c: Credential) {
    match c
    case AwsAccessKey => provider == "aws"
    case AwsSecretKey => provider == "aws"
    case AwsRegion => provider == "aws"
    case AzureAccountName => provider == "azure"
    case AzureAccountKey => provider == "azure"
    case GoogleCredentials => provider == "gcp"
    case CustomCA => Known(provider)
    case Password => Known(provider)
  }

  /** The values the package variables hold. */
  datatype Held = Held(awsAccessKey: string, awsSecretKey: string, awsRegion: string, azureAccountName: string,
                       azureAccountKey: string, googleCredentials: string, customCA: string, password: string) {
    function Get(c: Credential): string {
      match c
      case AwsAccessKey => awsAccessKey
      case AwsSecretKey => awsSecretKey
      case AwsRegion => awsRegion
      case AzureAccountName => azureAccountName
      case AzureAccountKey => azureAccountKey
      case GoogleCredentials => googleCredentials
      case CustomCA => customCA
      case Password => password
    }
  }

  predicate Carries(given: UserSecret, c: Credential) {
    Uses(given.provider, c) && KeyOf(c) in given.data
  }

  /** What a variable holds after a secret has been built. */
  function Updated(before: string, given: UserSecret, c: Credential): string {
    if Carries(given, c) then given.data[KeyOf(c)] else before
  }

  /******* Secret data *******/

  datatype Policy = Policy(daily: string, weekly: string, hourly: string, monthly: string, yearly: string, within: string)
  const NO_POLICY := Policy("", "", "", "", "", "")

  /** The part of the data that every provider's branch writes. */
  function CommonData(repository: string, prune: string, policy: Policy, cron: string): map<string, string> {
    map["RESTIC_REPOSITORY" := repository, "restic-prune-interval" := prune, "SnapshotScheduleCron" := cron,
        "SnapshotRetainPolicyDaily" := policy.daily, "SnapshotRetainPolicyWeekly" := policy.weekly,
        "SnapshotRetainPolicyHourly" := policy.hourly, "SnapshotRetainPolicyMonthly" := policy.monthly,
        "SnapshotRetainPolicyYearly" := policy.yearly, "SnapshotRetainPolicyWithin" := policy.within]
  }

  function CredentialData(provider: string, h: Held): map<string, string> {
    if provider == "aws" then
      map["AWS_ACCESS_KEY_ID" := h.awsAccessKey, "AWS_SECRET_ACCESS_KEY" := h.awsSecretKey,
          "AWS_DEFAULT_REGION" := h.awsRegion, "RESTIC_CUSTOM_CA" := h.customCA, "RESTIC_PASSWORD" := h.password]
    else if provider == "azure" then
      map["AZURE_ACCOUNT_NAME" := h.azureAccountName, "AZURE_ACCOUNT_KEY" := h.azureAccountKey,
          "RESTIC_CUSTOM_CA" := h.customCA, "RESTIC_PASSWORD" := h.password]
    else if provider == "gcp" then
      map["GOOGLE_APPLICATION_CREDENTIALS" := h.googleCredentials,
          "RESTIC_CUSTOM_CA" := h.customCA, "RESTIC_PASSWORD" := h.password]
    else map[]
  }

  /** The value that a loop over a map's keys has left in a variable that one key assigns, with `keys` still
      to come. */
  function Seen(data: map<string, string>, keys: set<string>, key: string, before: string): string {
    if key in data && key !in keys then data[key] else before
  }

  /** The value of a key, or an old value. */
  function Pick(data: map<string, string>, key: string, before: string): string {
    if key in data then data[key] else before
  }

  function TrimRight(s: string): string {
    if s != "" && s[|s| - 1] == '/' then TrimRight(s[..|s| - 1]) else s
  }

  function RepositoryPath(base: string, ns: string, backup: string, pvc: string): string {
    base + "/" + ns + "/" + backup + "/" + pvc
  }

  /** What a pass takes from the user's secret besides credentials. */
  function ReadPolicy(data: map<string, string>): Policy {
    Policy(Field(data, "SnapshotRetainPolicyDaily"), Field(data, "SnapshotRetainPolicyWeekly"),
           Field(data, "SnapshotRetainPolicyHourly"), Field(data, "SnapshotRetainPolicyMonthly"),
           Field(data, "SnapshotRetainPolicyYearly"), Field(data, "SnapshotRetainPolicyWithin"))
  }

  /** No key that the provider needs is present with an empty value; an absent one passes, and so does any
      data of an unknown provider. */
  predicate WellFormed(given: UserSecret) {
    given.data != map[] && forall key :: key in CheckedKeys(given.provider) && key in given.data ==> given.data[key] != ""
  }

  function CheckedKeys(provider: string): set<string> {
    if provider == "aws" then {"AWS_ACCESS_KEY_ID", "AWS_SECRET_ACCESS_KEY", "RESTIC_PASSWORD", "RESTIC_REPOSITORY"}
    else if provider == "azure" then {"AZURE_ACCOUNT_NAME", "AZURE_ACCOUNT_KEY", "RESTIC_PASSWORD", "RESTIC_REPOSITORY"}
    else if provider == "gcp" then {"GOOGLE_APPLICATION_CREDENTIALS", "RESTIC_PASSWORD", "RESTIC_REPOSITORY"}
    else {}
  }

  method ValidateResticSecret(given: UserSecret) returns (ok: bool)
    ensures ok <==> WellFormed(given)
  {
    if given.data == map[] { return false; }
    var checked := CheckedKeys(given.provider);
    var keys := given.data.Keys;
    while keys != {}
      invariant keys <= given.data.Keys
      invariant forall key :: key in checked && key in given.data && key !in keys ==> given.data[key] != ""
      decreases |keys|
    {
      var key :| key in keys;
      if key in checked && |given.data[key]| == 0 { return false; }
      keys := keys - {key};
    }
    return true;
  }

  /** The package variables. */
  class Globals {
    var awsAccessKey: string
    var awsSecretKey: string
    var awsRegion: string
    var azureAccountName: string
    var azureAccountKey: string
    var googleCredentials: string
    var customCA: string
    var password: string
    var repository: string

    // Auxiliary history: the secrets that have been built from.
    ghost var calls: seq<UserSecret>

    /** The variables hold what the calls so far have left in them. */
    ghost predicate Valid()
      reads this
    {
      forall c :: Values().Get(c) == HeldAfter(calls, c)
    }

    constructor ()
      ensures Valid() && calls == [] && repository == ""
    {
      calls := [];
      awsAccessKey, awsSecretKey, awsRegion := "", "", "";
      azureAccountName, azureAccountKey, googleCredentials := "", "", "";
      customCA, password, repository := "", "", "";
    }

    function Values(): Held
      reads this
    {
      Held(awsAccessKey, awsSecretKey, awsRegion, azureAccountName, azureAccountKey, googleCredentials, customCA, password)
    }

    /** Fields are assigned in the order in which the map happens to yield its keys. */
    method GatherAws(data: map<string, string>)
      modifies `awsAccessKey, `awsSecretKey, `awsRegion, `customCA, `password
      ensures awsAccessKey == Pick(data, "AWS_ACCESS_KEY_ID", old(awsAccessKey))
      ensures awsSecretKey == Pick(data, "AWS_SECRET_ACCESS_KEY", old(awsSecretKey))
      ensures awsRegion == Pick(data, "AWS_DEFAULT_REGION", old(awsRegion))
      ensures customCA == Pick(data, "RESTIC_CUSTOM_CA", old(customCA))
      ensures password == Pick(data, "RESTIC_PASSWORD", old(password))
    {
      var keys := data.Keys;
      while keys != {}
        invariant keys <= data.Keys
        invariant awsAccessKey == Seen(data, keys, "AWS_ACCESS_KEY_ID", old(awsAccessKey))
        invariant awsSecretKey == Seen(data, keys, "AWS_SECRET_ACCESS_KEY", old(awsSecretKey))
        invariant awsRegion == Seen(data, keys, "AWS_DEFAULT_REGION", old(awsRegion))
        invariant customCA == Seen(data, keys, "RESTIC_CUSTOM_CA", old(customCA))
        invariant password == Seen(data, keys, "RESTIC_PASSWORD", old(password))
        decreases |keys|
      {
        var key :| key in keys;
        keys := keys - {key};
        if key == "AWS_ACCESS_KEY_ID" {
          awsAccessKey := data[key];
        } else if key == "AWS_SECRET_ACCESS_KEY" {
          awsSecretKey := data[key];
        } else if key == "AWS_DEFAULT_REGION" {
          awsRegion := data[key];
        } else if key == "RESTIC_PASSWORD" {
          password := data[key];
        } else if key == "RESTIC_CUSTOM_CA" {
          customCA := data[key];
        }
      }
    }

    method GatherAzure(data: map<string, string>)
      modifies `azureAccountName, `azureAccountKey, `customCA, `password
      ensures azureAccountName == Pick(data, "AZURE_ACCOUNT_NAME", old(azureAccountName))
      ensures azureAccountKey == Pick(data, "AZURE_ACCOUNT_KEY", old(azureAccountKey))
      ensures customCA == Pick(data, "RESTIC_CUSTOM_CA", old(customCA))
      ensures password == Pick(data, "RESTIC_PASSWORD", old(password))
    {
      var keys := data.Keys;
      while keys != {}
        invariant keys <= data.Keys
        invariant azureAccountName == Seen(data, keys, "AZURE_ACCOUNT_NAME", old(azureAccountName))
        invariant azureAccountKey == Seen(data, keys, "AZURE_ACCOUNT_KEY", old(azureAccountKey))
        invariant customCA == Seen(data, keys, "RESTIC_CUSTOM_CA", old(customCA))
        invariant password == Seen(data, keys, "RESTIC_PASSWORD", old(password))
        decreases |keys|
      {
        var key :| key in keys;
        keys := keys - {key};
        if key == "AZURE_ACCOUNT_NAME" {
          azureAccountName := data[key];
        } else if key == "AZURE_ACCOUNT_KEY" {
          azureAccountKey := data[key];
        } else if key == "RESTIC_PASSWORD" {
          password := data[key];
        } else if key == "RESTIC_CUSTOM_CA" {
          customCA := data[key];
        }
      }
    }

    method GatherGcp(data: map<string, string>)
      modifies `googleCredentials, `customCA, `password
      ensures googleCredentials == Pick(data, "GOOGLE_APPLICATION_CREDENTIALS", old(googleCredentials))
      ensures customCA == Pick(data, "RESTIC_CUSTOM_CA", old(customCA))
      ensures password == Pick(data, "RESTIC_PASSWORD", old(password))
    {
      var keys := data.Keys;
      while keys != {}
        invariant keys <= data.Keys
        invariant googleCredentials == Seen(data, keys, "GOOGLE_APPLICATION_CREDENTIALS", old(googleCredentials))
        invariant customCA == Seen(data, keys, "RESTIC_CUSTOM_CA", old(customCA))
        invariant password == Seen(data, keys, "RESTIC_PASSWORD", old(password))
        decreases |keys|
      {
        var key :| key in keys;
        keys := keys - {key};
        if key == "GOOGLE_APPLICATION_CREDENTIALS" {
          googleCredentials := data[key];
        } else if key == "RESTIC_PASSWORD" {
          password := data[key];
        } else if key == "RESTIC_CUSTOM_CA" {
          customCA := data[key];
        }
      }
    }

    /** Builds the data of the controller's secret, or leaves it alone for a provider it does not know. */
    method BuildResticSecret(given: UserSecret, repo: string, prune: string, policy: Policy, cron: string)
        returns (built: Derived)
      requires Valid()
      modifies `awsAccessKey, `awsSecretKey, `awsRegion, `azureAccountName, `azureAccountKey, `googleCredentials,
               `customCA, `password, `calls
      ensures Valid() && calls == old(calls) + [given]
      ensures if Known(given.provider)
              then built == Derived.Derived(CredentialData(given.provider, Values()) + CommonData(repo, prune, policy, cron))
              else built == UnknownProvider
    {
      hide CommonData;
      calls := calls + [given];
      forall c ensures HeldAfter(calls, c) == Updated(old(Values()).Get(c), given, c) {
        assert calls[..|calls| - 1] == old(calls);
      }
      var common := CommonData(repo, prune, policy, cron);
      if given.provider == "aws" {
        GatherAws(given.data);
        return Derived.Derived(
            map["AWS_ACCESS_KEY_ID" := awsAccessKey, "AWS_SECRET_ACCESS_KEY" := awsSecretKey,
                "AWS_DEFAULT_REGION" := awsRegion, "RESTIC_CUSTOM_CA" := customCA, "RESTIC_PASSWORD" := password] + common);
      } else if given.provider == "azure" {
        GatherAzure(given.data);
        return Derived.Derived(
            map["AZURE_ACCOUNT_NAME" := azureAccountName, "AZURE_ACCOUNT_KEY" := azureAccountKey,
                "RESTIC_CUSTOM_CA" := customCA, "RESTIC_PASSWORD" := password] + common);
      } else if given.provider == "gcp" {
        GatherGcp(given.data);
        return Derived.Derived(
            map["GOOGLE_APPLICATION_CREDENTIALS" := googleCredentials,
                "RESTIC_CUSTOM_CA" := customCA, "RESTIC_PASSWORD" := password] + common);
      }
      return UnknownProvider;
    }

    /** Reads the user's secret key by key, in any order. */
    method ExtractPolicy(data: map<string, string>) returns (prune: string, policy: Policy, cron: string)
      modifies `repository
      ensures repository == if "RESTIC_REPOSITORY" in data then TrimRight(data["RESTIC_REPOSITORY"]) else old(repository)
      ensures prune == Field(data, "restic-prune-interval") && policy == ReadPolicy(data)
      ensures cron == Field(data, "SnapshotScheduleCron")
    {
      prune, cron, policy := "", "", NO_POLICY;
      var keys := data.Keys;
      while keys != {}
        invariant keys <= data.Keys
        invariant repository == if "RESTIC_REPOSITORY" in data && "RESTIC_REPOSITORY" !in keys
                                then TrimRight(data["RESTIC_REPOSITORY"]) else old(repository)
        invariant prune == Seen(data, keys, "restic-prune-interval", "")
        invariant cron == Seen(data, keys, "SnapshotScheduleCron", "")
        invariant policy == Policy(Seen(data, keys, "SnapshotRetainPolicyDaily", ""),
                                   Seen(data, keys, "SnapshotRetainPolicyWeekly", ""),
                                   Seen(data, keys, "SnapshotRetainPolicyHourly", ""),
                                   Seen(data, keys, "SnapshotRetainPolicyMonthly", ""),
                                   Seen(data, keys, "SnapshotRetainPolicyYearly", ""),
                                   Seen(data, keys, "SnapshotRetainPolicyWithin", ""))
        decreases |keys|
      {
        var key :| key in keys;
        keys := keys - {key};
        var val := data[key];
        if key == "RESTIC_REPOSITORY" { repository := TrimRight(val); }
        if key == "restic-prune-interval" { prune := val; }
        if key == "SnapshotScheduleCron" { cron := val; }
        if key == "SnapshotRetainPolicyMonthly" { policy := policy.(monthly := val); }
        if key == "SnapshotRetainPolicyDaily" { policy := policy.(daily := val); }
        if key == "SnapshotRetainPolicyHourly" { policy := policy.(hourly := val); }
        if key == "SnapshotRetainPolicyWeekly" { policy := policy.(weekly := val); }
        if key == "SnapshotRetainPolicyYearly" { policy := policy.(yearly := val); }
        if key == "SnapshotRetainPolicyWithin" { policy := policy.(within := val); }
      }
    }

    /** The secret for a backup. A repository that the user's secret does not carry is the one that an
        earlier backup's secret carried. */
    method CreateVSBResticSecret(given: UserSecret, ns: string, backup: string, pvc: string) returns (built: Derived)
      requires Valid()
      modifies this
      ensures Valid()
      ensures repository == if WellFormed(given) then BaseAfter(old(repository), given) else old(repository)
      ensures Values() == if WellFormed(given) then After(old(Values()), given) else old(Values())
      ensures calls == if WellFormed(given) then old(calls) + [given] else old(calls)
      ensures built == DeriveBackup(given, old(Values()), old(repository), ns, backup, pvc)
    {
      hide WellFormed, CredentialData, CommonData, HeldAfter, After;
      var ok := ValidateResticSecret(given);
      if !ok { return Malformed; }
      var prune, policy, cron := ExtractPolicy(given.data);
      built := BuildResticSecret(given, RepositoryPath(repository, ns, backup, pvc), prune, policy, cron);
      AfterCall(old(Values()), old(calls), given, Values());
    }

    /** The secret for a restore: the path is the one that the backup recorded. */
    method CreateVSRResticSecret(given: UserSecret, path: string) returns (built: Derived)
      requires Valid()
      modifies this
      ensures Valid()
      ensures repository == old(repository)
      ensures Values() == if WellFormed(given) then After(old(Values()), given) else old(Values())
      ensures calls == if WellFormed(given) then old(calls) + [given] else old(calls)
      ensures built == DeriveRestore(given, old(Values()), path)
    {
      hide WellFormed, CredentialData, CommonData, HeldAfter, After;
      var ok := ValidateResticSecret(given);
      if !ok { return Malformed; }
      built := BuildResticSecret(given, path, "", NO_POLICY, "");
      AfterCall(old(Values()), old(calls), given, Values());
    }
  }

  /** The data of a backup's secret. */
  function DerivedData(given: UserSecret, h: Held, path: string): map<string, string> {
    CredentialData(given.provider, h)
    + CommonData(path, Field(given.data, "restic-prune-interval"), ReadPolicy(given.data), Field(given.data, "SnapshotScheduleCron"))
  }

  /** The variables after a secret has been built from `given`. */
  function After(h: Held, given: UserSecret): Held {
    Held(Updated(h.awsAccessKey, given, AwsAccessKey), Updated(h.awsSecretKey, given, AwsSecretKey),
         Updated(h.awsRegion, given, AwsRegion), Updated(h.azureAccountName, given, AzureAccountName),
         Updated(h.azureAccountKey, given, AzureAccountKey), Updated(h.googleCredentials, given, GoogleCredentials),
         Updated(h.customCA, given, CustomCA), Updated(h.password, given, Password))
  }

  /** The repository variable after a backup's secret has been read. */
  function BaseAfter(base: string, given: UserSecret): string {
    if "RESTIC_REPOSITORY" in given.data then TrimRight(given.data["RESTIC_REPOSITORY"]) else base
  }

  /** What a backup's pass makes of the user's secret, when the package variables hold `h` and `base`. */
  function DeriveBackup(given: UserSecret, h: Held, base: string, ns: string, backup: string, pvc: string): Derived {
    if !WellFormed(given) then Malformed
    else if !Known(given.provider) then UnknownProvider
    else Derived.Derived(DerivedData(given, After(h, given), RepositoryPath(BaseAfter(base, given), ns, backup, pvc)))
  }

  /** What a restore's pass makes of the user's secret. */
  function DeriveRestore(given: UserSecret, h: Held, path: string): Derived {
    if !WellFormed(given) then Malformed
    else if !Known(given.provider) then UnknownProvider
    else Derived.Derived(CredentialData(given.provider, After(h, given)) + CommonData(path, "", NO_POLICY, ""))
  }

  /******* Credential history *******/

  /** A variable after a sequence of secrets has been built, for backups and restores alike. */
  function HeldAfter(calls: seq<UserSecret>, c: Credential): string {
    if calls == [] then "" else Updated(HeldAfter(calls[..|calls| - 1], c), calls[|calls| - 1], c)
  }

  lemma AfterCall(before: Held, calls: seq<UserSecret>, given: UserSecret, h: Held)
    requires forall c :: before.Get(c) == HeldAfter(calls, c)
    requires forall c :: h.Get(c) == HeldAfter(calls + [given], c)
    ensures h == After(before, given)
  {
    hide Updated;
    var after := After(before, given);
    forall c ensures h.Get(c) == Updated(before.Get(c), given, c) {
      assert (calls + [given])[..|calls|] == calls;
      var value := HeldAfter(calls + [given], c);
    }
    assert h.Get(AwsAccessKey) == after.awsAccessKey && h.Get(AwsSecretKey) == after.awsSecretKey;
    assert h.Get(AwsRegion) == after.awsRegion && h.Get(AzureAccountName) == after.azureAccountName;
    assert h.Get(AzureAccountKey) == after.azureAccountKey && h.Get(GoogleCredentials) == after.googleCredentials;
    assert h.Get(CustomCA) == after.customCA && h.Get(Password) == after.password;
  }

  /** The value that the latest call to carry the credential brought, if any did. */
  ghost predicate LatestCarried(calls: seq<UserSecret>, c: Credential, value: string) {
    || (value == "" && forall k :: 0 <= k < |calls| ==> !Carries(calls[k], c))
    || (exists k :: 0 <= k < |calls| && CarriedLast(calls, c, k) && value == calls[k].data[KeyOf(c)])
  }

  ghost predicate CarriedLast(calls: seq<UserSecret>, c: Credential, k: nat) {
    && k < |calls| && Carries(calls[k], c)
    && forall j :: k < j < |calls| ==> !Carries(calls[j], c)
  }

  lemma {:induction false} HeldIsLatest(calls: seq<UserSecret>, c: Credential)
    ensures LatestCarried(calls, c, HeldAfter(calls, c))
    decreases |calls|
  {
    if calls != [] {
      var n := |calls| - 1;
      HeldIsLatest(calls[..n], c);
      if Carries(calls[n], c) {
        assert CarriedLast(calls, c, n);
      } else if !(forall k :: 0 <= k < n ==> !Carries(calls[k], c)) {
        var k: nat :| k < n && Carries(calls[k], c);
        assert Carries(calls[..n][k], c);
        var j :| 0 <= j < n && CarriedLast(calls[..n], c, j) && HeldAfter(calls, c) == calls[..n][j].data[KeyOf(c)];
        forall i | j < i < |calls|
          ensures !Carries(calls[i], c)
        {
          assert i < n ==> !Carries(calls[..n][i], c);
        }
        assert CarriedLast(calls, c, j);
      }
    }
  }

  /** A secret carries exactly the credentials that its provider uses, with the values held. */
  lemma CredentialsOf(provider: string, h: Held, repo: string, prune: string, policy: Policy, cron: string, c: Credential)
    requires Known(provider)
    ensures var data := CredentialData(provider, h) + CommonData(repo, prune, policy, cron);
            && (KeyOf(c) in data <==> Uses(provider, c))
            && (Uses(provider, c) ==> data[KeyOf(c)] == h.Get(c))
  {
  }

  /** Credential history: after any sequence of calls, whatever order each took a map's keys in, a credential
      in the secret that the last call built is the last call's own value, else the value from the latest
      earlier call that used and carried it, else empty. */
  lemma CredentialHistory(calls: seq<UserSecret>, h: Held, repo: string, prune: string, policy: Policy, cron: string, c: Credential)
    requires calls != [] && Known(calls[|calls| - 1].provider) && Uses(calls[|calls| - 1].provider, c)
    requires forall c :: h.Get(c) == HeldAfter(calls, c)
    ensures var now := calls[|calls| - 1];
            var data := CredentialData(now.provider, h) + CommonData(repo, prune, policy, cron);
            && KeyOf(c) in data
            && (if KeyOf(c) in now.data then data[KeyOf(c)] == now.data[KeyOf(c)]
                else LatestCarried(calls[..|calls| - 1], c, data[KeyOf(c)]))
  {
    CredentialsOf(calls[|calls| - 1].provider, h, repo, prune, policy, cron, c);
    HeldIsLatest(calls[..|calls| - 1], c);
  }

  /******* Retain policy *******/

  /** The retain policy, prune interval and schedule of a ReplicationSource. */
  datatype Retain = Retain(daily: Option<int>, hourly: Option<int>, weekly: Option<int>, monthly: Option<int>,
                           yearly: Option<int>, within: Option<string>)
  datatype SourceOptions = SourceOptions(cron: string, prune: Option<int>, retain: Retain)

  /** The count a text asks for: None for no text and for zero. */
  function Count(text: string): Option<int>
    requires Parses(text)
  {
    if text == "" || ParseInt(text) == Some(0) then None else ParseInt(text)
  }

  predicate Parses(text: string) {
    text == "" || ParseInt(text).Some?
  }

  method ParseCount(text: string) returns (count: int, ok: bool)
    ensures ok <==> Parses(text)
    ensures ok ==> Count(text) == (if count == 0 then None else Some(count)) && ToInt32(count) == count
  {
    count := 0;
    if |text| > 0 {
      var parsed := ParseInt(text);
      if parsed.None? { return 0, false; }
      count := parsed.value;
    }
    return count, true;
  }

  predicate PolicyParses(p: Policy) {
    Parses(p.daily) && Parses(p.hourly) && Parses(p.weekly) && Parses(p.monthly) && Parses(p.yearly)
  }

  method ConfigureRepSourceSnapshotRetainPolicy(p: Policy) returns (retain: Option<Retain>)
    ensures retain == if !PolicyParses(p) then None
                      else Some(Retain(Count(p.daily), Count(p.hourly), Count(p.weekly), Count(p.monthly), Count(p.yearly),
                                       if p.within == "" then None else Some(p.within)))
  {
    var r := Retain(None, None, None, None, None, None);
    var daily, ok := ParseCount(p.daily);
    if !ok { return None; }
    var hourly;
    hourly, ok := ParseCount(p.hourly);
    if !ok { return None; }
    var weekly;
    weekly, ok := ParseCount(p.weekly);
    if !ok { return None; }
    var monthly;
    monthly, ok := ParseCount(p.monthly);
    if !ok { return None; }
    var yearly;
    yearly, ok := ParseCount(p.yearly);
    if !ok { return None; }
    if daily != 0 { r := r.(daily := Some(ToInt32(daily))); }
    if hourly != 0 { r := r.(hourly := Some(ToInt32(hourly))); }
    if weekly != 0 { r := r.(weekly := Some(ToInt32(weekly))); }
    if monthly != 0 { r := r.(monthly := Some(ToInt32(monthly))); }
    if yearly != 0 { r := r.(yearly := Some(ToInt32(yearly))); }
    if |p.within| > 0 { r := r.(within := Some(p.within)); }
    return Some(r);
  }

  /** What secret data asks of a ReplicationSource; None if a number does not parse. */
  function OptionsIn(data: map<string, string>): Option<SourceOptions> {
    var p := ReadPolicy(data);
    var prune := Field(data, "restic-prune-interval");
    if !Parses(prune) || !PolicyParses(p) then None
    else Some(SourceOptions(
      Field(data, "SnapshotScheduleCron"), Count(prune),
      Retain(Count(p.daily), Count(p.hourly), Count(p.weekly), Count(p.monthly), Count(p.yearly),
             if p.within == "" then None else Some(p.within))))
  }

  /** Reads schedule, prune interval and retain policy from the controller's secret. */
  method ReadSourceOptions(data: map<string, string>) returns (options: Option<SourceOptions>)
    ensures options == OptionsIn(data)
    ensures options.Some? ==>
              ReadsAs(data, "SnapshotScheduleCron", options.value.cron) && RetainAt(data, options.value.prune, options.value.retain)
  {
    hide ParseInt, ToInt32;
    OptionsMean(data);
    var pruneText := if "restic-prune-interval" in data then data["restic-prune-interval"] else "";
    var cron := "";
    if "SnapshotScheduleCron" in data && |data["SnapshotScheduleCron"]| > 0 { cron := data["SnapshotScheduleCron"]; }
    var prune, ok := ParseCount(pruneText);
    if !ok { return None; }
    var retain := ConfigureRepSourceSnapshotRetainPolicy(ReadPolicy(data));
    if retain.None? { return None; }
    var source := SourceOptions(cron, None, retain.value);
    if prune != 0 { source := source.(prune := Some(ToInt32(prune))); }
    return Some(source);
  }

  /** The retain-policy pipeline: through extraction, rebuilding, reading back and parsing, the derived secret
      asks of a ReplicationSource exactly what the user's secret asks, errors included; each option is carried under
      its own key. */
  lemma RetainPolicyPipeline(given: UserSecret, h: Held, path: string)
    requires Known(given.provider)
    ensures OptionsIn(DerivedData(given, h, path)) == OptionsIn(given.data)
    ensures PolicyFrom(DerivedData(given, h, path), given.data)
  {
    hide DerivedData, PolicyFrom, Parses, Count;
    DerivedFields(given, h, path);
  }

  lemma DerivedFields(given: UserSecret, h: Held, path: string)
    ensures var data := DerivedData(given, h, path);
            && ReadPolicy(data) == ReadPolicy(given.data)
            && Field(data, "restic-prune-interval") == Field(given.data, "restic-prune-interval")
            && Field(data, "SnapshotScheduleCron") == Field(given.data, "SnapshotScheduleCron")
            && PolicyFrom(data, given.data)
  {
    hide CredentialData, CommonData;
    CommonMeans(CredentialData(given.provider, h), path, Field(given.data, "restic-prune-interval"), ReadPolicy(given.data),
                Field(given.data, "SnapshotScheduleCron"));
  }

  lemma PathField(credentials: map<string, string>, path: string, prune: string, policy: Policy, cron: string)
    ensures Field(credentials + CommonData(path, prune, policy, cron), "RESTIC_REPOSITORY") == path
  {
  }

  /** And a count written as a number in the user's secret arrives as that number, or as nothing if it is
      zero; one too large for 32 bits stops the backup with an error. */
  lemma CountArrives(n: int)
    ensures Parses(FormatInt(n)) <==> MIN_INT32 <= n <= MAX_INT32
    ensures MIN_INT32 <= n <= MAX_INT32 ==> Count(FormatInt(n)) == if n == 0 then None else Some(n)
  {
    FormatParses(n);
    if n >= 0 {
      FormatNatParses(n);
    }
  }

  /******* Repository path *******/

  predicate NoSlash(s: string) {
    forall i :: 0 <= i < |s| ==> s[i] != '/'
  }

  function Slashes(n: nat): string {
    seq(n, _ => '/')
  }

  /** Trailing slashes make no difference, and none are left. */
  lemma {:induction false} TrimIgnoresSlashes(base: string, n: nat)
    ensures TrimRight(base + Slashes(n)) == TrimRight(base)
    ensures TrimRight(base) != "" ==> TrimRight(base)[|TrimRight(base)| - 1] != '/'
    decreases |base| + n
  {
    if n > 0 {
      assert (base + Slashes(n))[..|base| + n - 1] == base + Slashes(n - 1);
      TrimIgnoresSlashes(base, n - 1);
    } else {
      assert base + Slashes(0) == base;
      if base != "" && base[|base| - 1] == '/' {
        TrimIgnoresSlashes(base[..|base| - 1], 0);
      }
    }
  }

  lemma SplitAtLastSlash(a: string, x: string, b: string, y: string)
    requires a + "/" + x == b + "/" + y && NoSlash(x) && NoSlash(y)
    ensures a == b && x == y
  {
    var s := a + "/" + x;
    assert s[|a|] == '/' && s[|b|] == '/';
    forall i | |b| < i < |s| ensures s[i] != '/' {
      assert s[i] == y[i - |b| - 1];
    }
    forall i | |a| < i < |s| ensures s[i] != '/' {
      assert s[i] == x[i - |a| - 1];
    }
    assert a == s[..|a|] && b == s[..|b|];
    assert x == s[|a| + 1..] && y == s[|b| + 1..];
  }

  /** Two backups share a repository path exactly when the trimmed bases and the three names agree. */
  lemma RepositoryPathInjective(base1: string, ns1: string, backup1: string, pvc1: string,
                                base2: string, ns2: string, backup2: string, pvc2: string)
    requires NoSlash(ns1) && NoSlash(backup1) && NoSlash(pvc1) && NoSlash(ns2) && NoSlash(backup2) && NoSlash(pvc2)
    ensures RepositoryPath(TrimRight(base1), ns1, backup1, pvc1) == RepositoryPath(TrimRight(base2), ns2, backup2, pvc2)
            <==> TrimRight(base1) == TrimRight(base2) && ns1 == ns2 && backup1 == backup2 && pvc1 == pvc2
  {
    var a, b := TrimRight(base1), TrimRight(base2);
    if RepositoryPath(a, ns1, backup1, pvc1) == RepositoryPath(b, ns2, backup2, pvc2) {
      SplitAtLastSlash(a + "/" + ns1 + "/" + backup1, pvc1, b + "/" + ns2 + "/" + backup2, pvc2);
      SplitAtLastSlash(a + "/" + ns1, backup1, b + "/" + ns2, backup2);
      SplitAtLastSlash(a, ns1, b, ns2);
    }
  }

  /** A backup records the path that its secret carries; a restore given that path carries it unchanged,
      whichever provider, credentials and policy either one has. */
  lemma RestoreRebuildsPath(backup: UserSecret, h: Held, path: string, provider: string, g: Held)
    requires Known(backup.provider) && Known(provider)
    ensures Field(DerivedData(backup, h, path), "RESTIC_REPOSITORY") == path
    ensures var recorded := Field(DerivedData(backup, h, path), "RESTIC_REPOSITORY");
            Field(CredentialData(provider, g) + CommonData(recorded, "", NO_POLICY, ""), "RESTIC_REPOSITORY") == path
  {
    hide CredentialData, CommonData;
    PathField(CredentialData(backup.provider, h), path, Field(backup.data, "restic-prune-interval"), ReadPolicy(backup.data),
              Field(backup.data, "SnapshotScheduleCron"));
    PathField(CredentialData(provider, g), path, "", NO_POLICY, "");
  }

  /******* In terms of the keys themselves *******/

  /** The text under a key, which reads as empty if the key is missing. */
  predicate ReadsAs(data: map<string, string>, key: string, text: string) {
    if key in data then data[key] == text else text == ""
  }

  /** The count that the text under a key asks for: none if it is missing, empty or zero. */
  predicate CountAt(data: map<string, string>, key: string, count: Option<int>) {
    if key !in data || data[key] == "" then count.None?
    else ParseInt(data[key]).Some? && count == if ParseInt(data[key]) == Some(0) then None else ParseInt(data[key])
  }

  /** The text under a key is a number, or there is none. */
  predicate NumberAt(data: map<string, string>, key: string) {
    key in data && data[key] != "" ==> ParseInt(data[key]).Some?
  }

  predicate RetainAt(data: map<string, string>, prune: Option<int>, r: Retain) {
    && CountAt(data, "restic-prune-interval", prune)
    && CountAt(data, "SnapshotRetainPolicyDaily", r.daily) && CountAt(data, "SnapshotRetainPolicyHourly", r.hourly)
    && CountAt(data, "SnapshotRetainPolicyWeekly", r.weekly) && CountAt(data, "SnapshotRetainPolicyMonthly", r.monthly)
    && CountAt(data, "SnapshotRetainPolicyYearly", r.yearly)
    && (r.within.None? ==> ReadsAs(data, "SnapshotRetainPolicyWithin", ""))
    && (r.within.Some? ==> r.within.value != "" && ReadsAs(data, "SnapshotRetainPolicyWithin", r.within.value))
  }

  /** Secret data asks for a source exactly when its six numbers are numbers, and then each option is what
      stands under its own key. */
  lemma OptionsMean(data: map<string, string>)
    ensures OptionsIn(data).Some? <==>
              && NumberAt(data, "restic-prune-interval")
              && NumberAt(data, "SnapshotRetainPolicyDaily") && NumberAt(data, "SnapshotRetainPolicyHourly")
              && NumberAt(data, "SnapshotRetainPolicyWeekly") && NumberAt(data, "SnapshotRetainPolicyMonthly")
              && NumberAt(data, "SnapshotRetainPolicyYearly")
    ensures OptionsIn(data).Some? ==>
              var o := OptionsIn(data).value;
              ReadsAs(data, "SnapshotScheduleCron", o.cron) && RetainAt(data, o.prune, o.retain)
  {
    hide ParseInt;
  }

  /** A number written under a key arrives as that number, or as nothing if it is zero. */
  lemma CountWritten(data: map<string, string>, key: string, count: Option<int>, n: int)
    requires key in data && data[key] == FormatInt(n) && CountAt(data, key, count)
    ensures MIN_INT32 <= n <= MAX_INT32 && count == if n == 0 then None else Some(n)
  {
    FormatParses(n);
    if n >= 0 {
      FormatNatParses(n);
    }
  }

  /** Malformed means: no data, or an empty value under one of the keys that the provider needs. */
  lemma WellFormedMeans(given: UserSecret)
    ensures WellFormed(given) <==>
              && given.data != map[]
              && (given.provider in {"aws", "azure", "gcp"} ==>
                    Filled(given.data, "RESTIC_PASSWORD") && Filled(given.data, "RESTIC_REPOSITORY"))
              && (given.provider == "aws" ==>
                    Filled(given.data, "AWS_ACCESS_KEY_ID") && Filled(given.data, "AWS_SECRET_ACCESS_KEY"))
              && (given.provider == "azure" ==>
                    Filled(given.data, "AZURE_ACCOUNT_NAME") && Filled(given.data, "AZURE_ACCOUNT_KEY"))
              && (given.provider == "gcp" ==> Filled(given.data, "GOOGLE_APPLICATION_CREDENTIALS"))
  {
  }

  predicate Filled(data: map<string, string>, key: string) {
    key in data ==> data[key] != ""
  }

  /** The derived data has the key, with the user's value if there is one, else the old one. */
  predicate TakenFrom(data: map<string, string>, key: string, given: map<string, string>, before: string) {
    key in data && data[key] == if key in given then given[key] else before
  }

  /** The credentials of a provider: the user's own, else what the variables held, and those of no other. */
  predicate CredentialsFrom(provider: string, data: map<string, string>, given: map<string, string>, h: Held) {
    && TakenFrom(data, "RESTIC_PASSWORD", given, h.password) && TakenFrom(data, "RESTIC_CUSTOM_CA", given, h.customCA)
    && (if provider == "aws" then
          && TakenFrom(data, "AWS_ACCESS_KEY_ID", given, h.awsAccessKey)
          && TakenFrom(data, "AWS_SECRET_ACCESS_KEY", given, h.awsSecretKey)
          && TakenFrom(data, "AWS_DEFAULT_REGION", given, h.awsRegion)
        else {"AWS_ACCESS_KEY_ID", "AWS_SECRET_ACCESS_KEY", "AWS_DEFAULT_REGION"} !! data.Keys)
    && (if provider == "azure" then
          && TakenFrom(data, "AZURE_ACCOUNT_NAME", given, h.azureAccountName)
          && TakenFrom(data, "AZURE_ACCOUNT_KEY", given, h.azureAccountKey)
        else {"AZURE_ACCOUNT_NAME", "AZURE_ACCOUNT_KEY"} !! data.Keys)
    && (if provider == "gcp" then TakenFrom(data, "GOOGLE_APPLICATION_CREDENTIALS", given, h.googleCredentials)
        else "GOOGLE_APPLICATION_CREDENTIALS" !in data)
  }

  lemma CredentialsMean(given: UserSecret, h: Held, common: map<string, string>)
    requires given.provider in {"aws", "azure", "gcp"}
    requires common.Keys !! {"RESTIC_PASSWORD", "RESTIC_CUSTOM_CA", "AWS_ACCESS_KEY_ID", "AWS_SECRET_ACCESS_KEY",
                             "AWS_DEFAULT_REGION", "AZURE_ACCOUNT_NAME", "AZURE_ACCOUNT_KEY", "GOOGLE_APPLICATION_CREDENTIALS"}
    ensures CredentialsFrom(given.provider, CredentialData(given.provider, After(h, given)) + common, given.data, h)
  {
    hide CredentialData, After, CredentialsFrom;
    if given.provider == "aws" {
      AwsMeans(given, h, common);
    } else if given.provider == "azure" {
      AzureMeans(given, h, common);
    } else {
      GcpMeans(given, h, common);
    }
  }

  lemma AwsMeans(given: UserSecret, h: Held, common: map<string, string>)
    requires given.provider == "aws"
    requires common.Keys !! {"RESTIC_PASSWORD", "RESTIC_CUSTOM_CA", "AWS_ACCESS_KEY_ID", "AWS_SECRET_ACCESS_KEY",
                             "AWS_DEFAULT_REGION", "AZURE_ACCOUNT_NAME", "AZURE_ACCOUNT_KEY", "GOOGLE_APPLICATION_CREDENTIALS"}
    ensures CredentialsFrom(given.provider, CredentialData(given.provider, After(h, given)) + common, given.data, h)
  {
  }

  lemma AzureMeans(given: UserSecret, h: Held, common: map<string, string>)
    requires given.provider == "azure"
    requires common.Keys !! {"RESTIC_PASSWORD", "RESTIC_CUSTOM_CA", "AWS_ACCESS_KEY_ID", "AWS_SECRET_ACCESS_KEY",
                             "AWS_DEFAULT_REGION", "AZURE_ACCOUNT_NAME", "AZURE_ACCOUNT_KEY", "GOOGLE_APPLICATION_CREDENTIALS"}
    ensures CredentialsFrom(given.provider, CredentialData(given.provider, After(h, given)) + common, given.data, h)
  {
  }

  lemma GcpMeans(given: UserSecret, h: Held, common: map<string, string>)
    requires given.provider == "gcp"
    requires common.Keys !! {"RESTIC_PASSWORD", "RESTIC_CUSTOM_CA", "AWS_ACCESS_KEY_ID", "AWS_SECRET_ACCESS_KEY",
                             "AWS_DEFAULT_REGION", "AZURE_ACCOUNT_NAME", "AZURE_ACCOUNT_KEY", "GOOGLE_APPLICATION_CREDENTIALS"}
    ensures CredentialsFrom(given.provider, CredentialData(given.provider, After(h, given)) + common, given.data, h)
  {
  }

  lemma CommonKeys(path: string, prune: string, policy: Policy, cron: string)
    ensures CommonData(path, prune, policy, cron).Keys ==
            {"RESTIC_REPOSITORY", "restic-prune-interval", "SnapshotScheduleCron", "SnapshotRetainPolicyDaily",
             "SnapshotRetainPolicyWeekly", "SnapshotRetainPolicyHourly", "SnapshotRetainPolicyMonthly",
             "SnapshotRetainPolicyYearly", "SnapshotRetainPolicyWithin"}
  {
  }

  lemma KeysApart(path: string, prune: string, policy: Policy, cron: string)
    ensures CommonData(path, prune, policy, cron).Keys !!
            {"RESTIC_PASSWORD", "RESTIC_CUSTOM_CA", "AWS_ACCESS_KEY_ID", "AWS_SECRET_ACCESS_KEY",
             "AWS_DEFAULT_REGION", "AZURE_ACCOUNT_NAME", "AZURE_ACCOUNT_KEY", "GOOGLE_APPLICATION_CREDENTIALS"}
  {
    CommonKeys(path, prune, policy, cron);
  }

  /** A key of the user's secret that is handed on unchanged, and a missing one as empty. */
  predicate HandedOn(data: map<string, string>, key: string, given: map<string, string>) {
    key in data && ReadsAs(given, key, data[key])
  }

  /** The options that a backup's secret carries are the user's, key by key. */
  predicate PolicyFrom(data: map<string, string>, given: map<string, string>) {
    && HandedOn(data, "restic-prune-interval", given) && HandedOn(data, "SnapshotScheduleCron", given)
    && HandedOn(data, "SnapshotRetainPolicyDaily", given) && HandedOn(data, "SnapshotRetainPolicyWeekly", given)
    && HandedOn(data, "SnapshotRetainPolicyHourly", given) && HandedOn(data, "SnapshotRetainPolicyMonthly", given)
    && HandedOn(data, "SnapshotRetainPolicyYearly", given) && HandedOn(data, "SnapshotRetainPolicyWithin", given)
  }

  /** The path of a backup's data: the user's repository without its trailing slashes, or that of an earlier
      backup, then namespace, backup and claim. */
  predicate PathFrom(path: string, given: map<string, string>, base: string, ns: string, backup: string, pvc: string) {
    path == (if "RESTIC_REPOSITORY" in given then TrimRight(given["RESTIC_REPOSITORY"]) else base)
            + "/" + ns + "/" + backup + "/" + pvc
  }

  lemma CommonMeans(credentials: map<string, string>, path: string, prune: string, policy: Policy, cron: string)
    ensures var data := credentials + CommonData(path, prune, policy, cron);
            && "RESTIC_REPOSITORY" in data && data["RESTIC_REPOSITORY"] == path
            && "restic-prune-interval" in data && data["restic-prune-interval"] == prune
            && "SnapshotScheduleCron" in data && data["SnapshotScheduleCron"] == cron
            && "SnapshotRetainPolicyDaily" in data && data["SnapshotRetainPolicyDaily"] == policy.daily
            && "SnapshotRetainPolicyWeekly" in data && data["SnapshotRetainPolicyWeekly"] == policy.weekly
            && "SnapshotRetainPolicyHourly" in data && data["SnapshotRetainPolicyHourly"] == policy.hourly
            && "SnapshotRetainPolicyMonthly" in data && data["SnapshotRetainPolicyMonthly"] == policy.monthly
            && "SnapshotRetainPolicyYearly" in data && data["SnapshotRetainPolicyYearly"] == policy.yearly
            && "SnapshotRetainPolicyWithin" in data && data["SnapshotRetainPolicyWithin"] == policy.within
  {
  }

  /** What a backup's secret is made of, key by key. */
  lemma BackupSecretMeans(given: UserSecret, h: Held, base: string, ns: string, backup: string, pvc: string)
    ensures var d := DeriveBackup(given, h, base, ns, backup, pvc);
            && (d.Malformed? <==> !WellFormed(given))
            && (d.Derived? <==> WellFormed(given) && given.provider in {"aws", "azure", "gcp"})
            && (d.Derived? ==>
                  && "RESTIC_REPOSITORY" in d.data
                  && PathFrom(d.data["RESTIC_REPOSITORY"], given.data, base, ns, backup, pvc)
                  && PolicyFrom(d.data, given.data) && CredentialsFrom(given.provider, d.data, given.data, h))
  {
    hide WellFormed, CredentialData, CommonData, CredentialsFrom, After, TrimRight;
    if WellFormed(given) && Known(given.provider) {
      var path := RepositoryPath(BaseAfter(base, given), ns, backup, pvc);
      var prune, policy, cron := Field(given.data, "restic-prune-interval"), ReadPolicy(given.data), Field(given.data, "SnapshotScheduleCron");
      CommonMeans(CredentialData(given.provider, After(h, given)), path, prune, policy, cron);
      KeysApart(path, prune, policy, cron);
      CredentialsMean(given, h, CommonData(path, prune, policy, cron));
    }
  }

  /** What a restore's secret is made of: the recorded path, and the credentials. */
  lemma RestoreSecretMeans(given: UserSecret, h: Held, path: string)
    ensures var d := DeriveRestore(given, h, path);
            && (d.Malformed? <==> !WellFormed(given))
            && (d.Derived? <==> WellFormed(given) && given.provider in {"aws", "azure", "gcp"})
            && (d.Derived? ==>
                  && "RESTIC_REPOSITORY" in d.data && d.data["RESTIC_REPOSITORY"] == path
                  && CredentialsFrom(given.provider, d.data, given.data, h)
                  && PolicyFrom(d.data, map[]))
  {
    hide WellFormed, CredentialData, CommonData, CredentialsFrom, After;
    if WellFormed(given) && Known(given.provider) {
      CommonMeans(CredentialData(given.provider, After(h, given)), path, "", NO_POLICY, "");
      KeysApart(path, "", NO_POLICY, "");
      CredentialsMean(given, h, CommonData(path, "", NO_POLICY, ""));
    }
  }

  /** Trimming takes slashes from the end and nothing else. */
  lemma {:induction false} TrimTakesSlashes(base: string) returns (n: nat)
    ensures base == TrimRight(base) + Slashes(n)
    decreases |base|
  {
    n := 0;
    if base != "" && base[|base| - 1] == '/' {
      var shorter := base[..|base| - 1];
      var m := TrimTakesSlashes(shorter);
      n := m + 1;
      assert base == shorter + "/" && Slashes(n) == Slashes(m) + "/";
    }
  }

  /** The keys that the branch of a provider reads. */
  predicate ReadsKey(provider: string, key: string) {
    || (provider == "aws" && key in {"AWS_ACCESS_KEY_ID", "AWS_SECRET_ACCESS_KEY", "AWS_DEFAULT_REGION"})
    || (provider == "azure" && key in {"AZURE_ACCOUNT_NAME", "AZURE_ACCOUNT_KEY"})
    || (provider == "gcp" && key == "GOOGLE_APPLICATION_CREDENTIALS")
    || (provider in {"aws", "azure", "gcp"} && key in {"RESTIC_CUSTOM_CA", "RESTIC_PASSWORD"})
  }

  predicate Brings(given: UserSecret, key: string) {
    ReadsKey(given.provider, key) && key in given.data
  }

  /** The variable for a key. */
  lemma CredentialFor(provider: string, key: string) returns (c: Credential)
    requires ReadsKey(provider, key)
    ensures KeyOf(c) == key && forall given: UserSecret :: Carries(given, c) <==> Brings(given, key)
  {
    c := if key == "AWS_ACCESS_KEY_ID" then AwsAccessKey else if key == "AWS_SECRET_ACCESS_KEY" then AwsSecretKey
         else if key == "AWS_DEFAULT_REGION" then AwsRegion else if key == "AZURE_ACCOUNT_NAME" then AzureAccountName
         else if key == "AZURE_ACCOUNT_KEY" then AzureAccountKey
         else if key == "GOOGLE_APPLICATION_CREDENTIALS" then GoogleCredentials
         else if key == "RESTIC_CUSTOM_CA" then CustomCA else Password;
  }

  /** Credential history, key by key: after any sequence of calls each key that the last call's provider reads
      is in the secret, with that call's own value, else the one that the latest earlier call brought, else
      empty. */
  lemma KeyHistory(calls: seq<UserSecret>, h: Held, repo: string, prune: string, policy: Policy, cron: string, key: string)
    requires calls != [] && ReadsKey(calls[|calls| - 1].provider, key)
    requires forall c :: h.Get(c) == HeldAfter(calls, c)
    ensures var data := CredentialData(calls[|calls| - 1].provider, h) + CommonData(repo, prune, policy, cron);
            && key in data
            && (|| (data[key] == "" && forall k :: 0 <= k < |calls| ==> !Brings(calls[k], key))
                || (exists k :: 0 <= k < |calls| && Brings(calls[k], key) && data[key] == calls[k].data[key]
                                && forall j :: k < j < |calls| ==> !Brings(calls[j], key)))
  {
    hide CredentialData, CommonData, ReadsKey, HeldAfter, Known;
    var last := calls[|calls| - 1].provider;
    var c := CredentialFor(last, key);
    ReaderUses(last, key, c);
    CredentialsOf(last, h, repo, prune, policy, cron, c);
    HeldIsLatest(calls, c);
  }

  lemma ReaderUses(provider: string, key: string, c: Credential)
    requires ReadsKey(provider, key) && KeyOf(c) == key
    ensures Known(provider) && Uses(provider, c)
  {
  }
}
