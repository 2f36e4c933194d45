/**
 * The fleet scaler: list the deployed `llama-deploy-` apps, bootstrap the admin
 * agent when it is missing, pick the next instance number, and keep the fleet's
 * group id and admin wallet in two files that are created once.
 */
module ScaleUp {
  import opened Wrappers
  import opened PyStr

  const AdminAgentName: string := "llama-deploy-admin-agent"
  const GroupChatIdFile: string := "group_chat_id.txt"
  const AdminWalletFile: string := "admin_wallet.json"
  /** Every app of the fleet is named with this prefix. */
  const AppPrefix: string := "llama-deploy-"
  /** Numbered instances are `llama-deploy-agent-<n>`. */
  const InstancePrefix: string := "llama-deploy-agent-"
  const GroupIdPrefix: string := "group-"

  // ---------------------------------------------------------------------------
  // run_command

  /** What a finished shell command left behind: its exit code and both output streams. */
  datatype ProcessResult = ProcessResult(returnCode: int, stdout: string, stderr: string)

  /** The `(success, text)` pair `run_command` returns. */
  datatype CommandResult = CommandResult(success: bool, output: string)

  /** `run_command`: a non-zero exit code is a failure carrying the error stream. */
  function RunCommand(p: ProcessResult): (r: CommandResult)
    ensures r.success <==> p.returnCode == 0
    ensures !r.success ==> r.output == p.stderr
    ensures r.success ==> r.output == p.stdout
  {
    if p.returnCode != 0 then CommandResult(false, p.stderr) else CommandResult(true, p.stdout)
  }

  // ---------------------------------------------------------------------------
  // get_current_instances

  predicate IsFleetApp(name: string) {
    StartsWith(name, AppPrefix)
  }

  /** `[name for name in names if name.startswith('llama-deploy-')]` */
  function FleetApps(names: seq<string>): (r: seq<string>)
    ensures |r| <= |names|
    ensures forall i :: 0 <= i < |r| ==> IsFleetApp(r[i])
  {
    if names == [] then []
    else (if IsFleetApp(names[0]) then [names[0]] else []) + FleetApps(names[1..])
  }

  /** The filter keeps every fleet name as often as it is listed and drops every other name. */
  lemma {:induction false} FleetAppsMultiplicity(names: seq<string>)
    ensures forall n :: multiset(FleetApps(names))[n] == if IsFleetApp(n) then multiset(names)[n] else 0
  {
    if names != [] {
      FleetAppsMultiplicity(names[1..]);
      assert names == [names[0]] + names[1..];
    }
  }

  /** A name is kept exactly when it is listed and starts with the fleet prefix. */
  lemma FleetAppsMembers(names: seq<string>)
    ensures forall n :: n in FleetApps(names) <==> n in names && IsFleetApp(n)
  {
    FleetAppsMultiplicity(names);
    forall n ensures n in FleetApps(names) <==> n in names && IsFleetApp(n) {
      assert n in FleetApps(names) <==> multiset(FleetApps(names))[n] > 0;
      assert n in names <==> multiset(names)[n] > 0;
    }
  }

  /** The filter keeps order: filtering a concatenation concatenates the filtered parts. */
  lemma {:induction false} FleetAppsAppend(a: seq<string>, b: seq<string>)
    ensures FleetApps(a + b) == FleetApps(a) + FleetApps(b)
  {
    if a == [] {
      assert a + b == b;
    } else {
      var head := if IsFleetApp(a[0]) then [a[0]] else [];
      calc {
        FleetApps(a + b);
        { assert (a + b)[0] == a[0] && (a + b)[1..] == a[1..] + b; }
        head + FleetApps(a[1..] + b);
        { FleetAppsAppend(a[1..], b); }
        head + (FleetApps(a[1..]) + FleetApps(b));
        (head + FleetApps(a[1..])) + FleetApps(b);
        FleetApps(a) + FleetApps(b);
      }
    }
  }

  /** A listing made only of fleet apps passes the filter unchanged. */
  lemma {:induction false} FleetAppsKeepsFleet(names: seq<string>)
    requires forall i :: 0 <= i < |names| ==> IsFleetApp(names[i])
    ensures FleetApps(names) == names
  {
    if names != [] {
      FleetAppsKeepsFleet(names[1..]);
    }
  }

  /**
   * `get_current_instances`: run `flyctl apps list --json`; on failure the list is
   * empty, otherwise the `Name` of every listed app (`appNames`, the JSON decoding of
   * the output) is filtered by the fleet prefix.
   */
  function GetCurrentInstances(listing: ProcessResult, appNames: string -> seq<string>): (r: seq<string>)
    ensures listing.returnCode != 0 ==> r == []
    ensures listing.returnCode == 0 ==> r == FleetApps(appNames(listing.stdout))
  {
    var res := RunCommand(listing);
    if !res.success then [] else FleetApps(appNames(res.output))
  }

  // ---------------------------------------------------------------------------
  // Instance numbering

  /** The number a name contributes: its last `-` segment, when that is all digits. */
  function NumericSuffix(name: string): (r: Option<nat>)
    ensures r.Some? <==> IsDigits(LastSegment(name, '-'))
  {
    var seg := LastSegment(name, '-');
    if IsDigits(seg) then Some(DecimalValue(seg)) else None
  }

  /** `[int(name.split('-')[-1]) for name in instances if name.split('-')[-1].isdigit()]` */
  function ParsedSuffixes(instances: seq<string>): (r: seq<nat>)
    ensures |r| <= |instances|
  {
    if instances == [] then []
    else
      var rest := ParsedSuffixes(instances[1..]);
      match NumericSuffix(instances[0])
      case Some(k) => [k] + rest
      case None => rest
  }

  /** The parsed suffixes are exactly the numbers the listed names contribute. */
  lemma {:induction false} ParsedSuffixesMembers(instances: seq<string>)
    ensures forall i :: 0 <= i < |instances| && NumericSuffix(instances[i]).Some? ==>
      NumericSuffix(instances[i]).value in ParsedSuffixes(instances)
    ensures forall k :: k in ParsedSuffixes(instances) ==>
      exists i :: 0 <= i < |instances| && NumericSuffix(instances[i]) == Some(k)
  {
    if instances != [] {
      var tail := instances[1..];
      var ks := ParsedSuffixes(instances);
      var rest := ParsedSuffixes(tail);
      ParsedSuffixesMembers(tail);
      assert forall k :: k in rest ==> k in ks;
      forall i | 0 <= i < |instances| && NumericSuffix(instances[i]).Some?
        ensures NumericSuffix(instances[i]).value in ks
      {
        if i > 0 {
          assert instances[i] == tail[i - 1];
        }
      }
      forall k | k in ks
        ensures exists i :: 0 <= i < |instances| && NumericSuffix(instances[i]) == Some(k)
      {
        if k in rest {
          var j :| 0 <= j < |tail| && NumericSuffix(tail[j]) == Some(k);
          assert instances[j + 1] == tail[j];
        } else {
          assert NumericSuffix(instances[0]) == Some(k);
        }
      }
    }
  }

  /** Suffix parsing keeps order: parsing a concatenation concatenates the parsed parts. */
  lemma {:induction false} ParsedSuffixesAppend(a: seq<string>, b: seq<string>)
    ensures ParsedSuffixes(a + b) == ParsedSuffixes(a) + ParsedSuffixes(b)
  {
    if a == [] {
      assert a + b == b;
    } else {
      assert (a + b)[0] == a[0] && (a + b)[1..] == a[1..] + b;
      ParsedSuffixesAppend(a[1..], b);
    }
  }

  /** A name whose last segment is not all digits contributes nothing. */
  lemma NonNumericNameContributesNothing(name: string, rest: seq<string>)
    requires !IsDigits(LastSegment(name, '-'))
    ensures ParsedSuffixes([name] + rest) == ParsedSuffixes(rest)
  {
    assert ([name] + rest)[1..] == rest;
  }

  /** The admin agent's name ends in `agent`, so it never counts as an instance number. */
  lemma AdminNameHasNoSuffix()
    ensures NumericSuffix(AdminAgentName).None?
  {
    LastSegmentAfterSeparator("llama-deploy-admin", '-', "agent");
    assert AdminAgentName == "llama-deploy-admin" + ['-'] + "agent";
  }

  /** Python's `max` on a non-empty list of integers. */
  function Max(xs: seq<int>): (m: int)
    requires xs != []
    ensures m in xs
    ensures forall i :: 0 <= i < |xs| ==> xs[i] <= m
  {
    if |xs| == 1 then xs[0]
    else
      var t := Max(xs[1..]);
      assert forall i :: 1 <= i < |xs| ==> xs[i] == xs[1..][i - 1];
      if xs[0] >= t then xs[0] else t
  }

  /** `max(instance_numbers + [-1]) + 1`. */
  function NextInstance(instances: seq<string>): (r: nat)
    ensures forall i :: 0 <= i < |ParsedSuffixes(instances)| ==> ParsedSuffixes(instances)[i] < r
  {
    var ks: seq<int> := ParsedSuffixes(instances);
    var xs := ks + [-1];
    assert xs[|xs| - 1] == -1;
    assert forall i :: 0 <= i < |ks| ==> xs[i] == ks[i];
    Max(xs) + 1
  }

  /** With no numbered instance the next number is 0, and only then. */
  lemma NextInstanceZeroIffNoSuffix(instances: seq<string>)
    ensures NextInstance(instances) == 0 <==> ParsedSuffixes(instances) == []
  {
    var ks: seq<int> := ParsedSuffixes(instances);
    var xs := ks + [-1];
    if ks != [] {
      assert xs[0] == ks[0] >= 0;
    } else {
      assert xs == [-1];
    }
  }

  /**
   * The next number is the largest parsed suffix plus one: strictly above every
   * suffix, and one above a suffix that is present, so gaps are never reused.
   */
  lemma NextInstanceIsMaxPlusOne(instances: seq<string>)
    ensures forall k :: k in ParsedSuffixes(instances) ==> k < NextInstance(instances)
    ensures ParsedSuffixes(instances) != [] ==> NextInstance(instances) - 1 in ParsedSuffixes(instances)
  {
    var ks: seq<int> := ParsedSuffixes(instances);
    assert NextInstance(instances) == Max(ks + [-1]) + 1;
    MaxWithSentinel(ks);
  }

  /** For non-negative `ks`, `max(ks + [-1])` bounds every element and is one of them unless `ks` is empty. */
  lemma MaxWithSentinel(ks: seq<int>)
    requires forall i :: 0 <= i < |ks| ==> ks[i] >= 0
    ensures forall k :: k in ks ==> k <= Max(ks + [-1])
    ensures ks != [] ==> Max(ks + [-1]) in ks
  {
    var xs := ks + [-1];
    forall k | k in ks ensures k <= Max(xs) {
      var i :| 0 <= i < |ks| && ks[i] == k;
      assert xs[i] == k;
    }
    if ks != [] {
      assert xs[0] >= 0;
      assert Max(xs) != -1;
    }
  }

  /** `f"llama-deploy-agent-{instance_number}"`: an instance name, hence a fleet name. */
  function AppName(n: nat): (r: string)
    ensures StartsWith(r, InstancePrefix)
    ensures IsFleetApp(r)
  {
    var digits := NatToString(n);
    assert (InstancePrefix + digits)[..|InstancePrefix|] == InstancePrefix;
    assert (InstancePrefix + digits)[..|AppPrefix|] == AppPrefix;
    InstancePrefix + digits
  }

  /** The number printed into an instance name is read back as its suffix. */
  lemma AppNameSuffix(n: nat)
    ensures NumericSuffix(AppName(n)) == Some(n)
  {
    var digits := NatToString(n);
    assert InstancePrefix == "llama-deploy-agent" + ['-'];
    assert AppName(n) == "llama-deploy-agent" + ['-'] + digits;
    LastSegmentAfterSeparator("llama-deploy-agent", '-', digits);
    DecimalValueOfNatToString(n);
  }

  /**
   * Freshness: the name of the next instance equals no listed name, also when the
   * listed names write their numbers with leading zeros.
   */
  lemma NewAppNameIsFresh(instances: seq<string>)
    ensures AppName(NextInstance(instances)) !in instances
  {
    var n := NextInstance(instances);
    AppNameSuffix(n);
    NextInstanceIsMaxPlusOne(instances);
    ParsedSuffixesMembers(instances);
    assert forall i :: 0 <= i < |instances| && NumericSuffix(instances[i]).Some? ==>
      NumericSuffix(instances[i]).value < n;
  }

  /** The new name is a fleet name, so it collides with no listed app at all. */
  lemma NewAppNameIsFreshInListing(names: seq<string>)
    ensures AppName(NextInstance(FleetApps(names))) !in names
  {
    var n := NextInstance(FleetApps(names));
    NewAppNameIsFresh(FleetApps(names));
    FleetAppsMembers(names);
    assert AppName(n)[..|AppPrefix|] == AppPrefix;
  }

  /** When no suffix exceeds `top` and some name carries `top`, the next number is `top + 1`. */
  lemma NextInstanceAfterTop(names: seq<string>, top: nat, at: nat)
    requires at < |names| && NumericSuffix(names[at]) == Some(top)
    requires forall i :: 0 <= i < |names| ==> NumericSuffix(names[i]) == None || NumericSuffix(names[i]).value <= top
    ensures NextInstance(names) == top + 1
  {
    ParsedSuffixesMembers(names);
    NextInstanceIsMaxPlusOne(names);
  }

  /**
   * Suffixes 0, 1 and 3 give 4: the gap at 2 is not filled, and names without a
   * numeric suffix (such as the admin agent's) change nothing.
   */
  lemma GapIsNotReused(others: seq<string>)
    requires forall i :: 0 <= i < |others| ==> NumericSuffix(others[i]).None?
    ensures NextInstance([AppName(0), AppName(1), AppName(3)] + others) == 4
  {
    var names := [AppName(0), AppName(1), AppName(3)] + others;
    AppNameSuffix(0);
    AppNameSuffix(1);
    AppNameSuffix(3);
    forall i | 0 <= i < |names|
      ensures NumericSuffix(names[i]) == None || NumericSuffix(names[i]).value <= 3
    {
      if i >= 3 {
        assert names[i] == others[i - 3];
      }
    }
    NextInstanceAfterTop(names, 3, 2);
  }

  // ---------------------------------------------------------------------------
  // main

  /** One step `main` takes beyond listing the apps. */
  datatype Step = BootstrapAdmin | DeployInstance(number: nat, appName: string)

  /** How `main` ends, with the connection URLs it prints on success. */
  datatype Report =
    | AdminBootstrapFailed
    | InstanceDeployed(number: nat, agentUrl: string, adminUrl: string)
    | DeploymentFailed(number: nat)

  /** `https://<app>.fly.dev`: the app name framed by the scheme and the fly.io domain. */
  function FlyUrl(app: string): (r: string)
    ensures |r| == |app| + 16
    ensures r[..8] == "https://" && r[8..|r| - 8] == app && r[|r| - 8..] == ".fly.dev"
  {
    "https://" + app + ".fly.dev"
  }

  /**
   * `main`: bootstrap the admin agent first when it is not listed, give up when that
   * fails, then deploy instance `max + 1`. `adminBootstrapOk` and `instanceDeployOk`
   * are the results `deploy_admin_agent` and `deploy_new_instance` would return.
   */
  method RunScaleUp(listing: ProcessResult, appNames: string -> seq<string>, adminBootstrapOk: bool, instanceDeployOk: bool)
    returns (steps: seq<Step>, report: Report)
    ensures BootstrapAdmin in steps <==> AdminAgentName !in GetCurrentInstances(listing, appNames)
    ensures BootstrapAdmin in steps ==> steps[0] == BootstrapAdmin
    ensures report.AdminBootstrapFailed? <==> AdminAgentName !in GetCurrentInstances(listing, appNames) && !adminBootstrapOk
    ensures report.AdminBootstrapFailed? ==> steps == [BootstrapAdmin]
    ensures !report.AdminBootstrapFailed? ==>
      var n := NextInstance(GetCurrentInstances(listing, appNames));
      && |steps| > 0
      && steps[|steps| - 1] == DeployInstance(n, AppName(n))
      && (report.InstanceDeployed? <==> instanceDeployOk)
      && report.number == n
    ensures report.InstanceDeployed? ==>
      report.agentUrl == FlyUrl(AppName(report.number)) && report.adminUrl == FlyUrl(AdminAgentName)
    ensures var cur := GetCurrentInstances(listing, appNames);
      var n := NextInstance(cur);
      var boot := if AdminAgentName !in cur then [BootstrapAdmin] else [];
      steps == if report.AdminBootstrapFailed? then boot else boot + [DeployInstance(n, AppName(n))]
    ensures forall s :: s in steps && s.DeployInstance? ==>
      && s.appName !in GetCurrentInstances(listing, appNames)
      && (listing.returnCode == 0 ==> s.appName !in appNames(listing.stdout))
  {
    var current := GetCurrentInstances(listing, appNames);
    var boot := if AdminAgentName !in current then [BootstrapAdmin] else [];
    steps := boot;
    if AdminAgentName !in current && !adminBootstrapOk {
      report := AdminBootstrapFailed;
      return;
    }
    var next := NextInstance(current);
    NewAppNameIsFresh(current);
    if listing.returnCode == 0 {
      NewAppNameIsFreshInListing(appNames(listing.stdout));
    }
    steps := boot + [DeployInstance(next, AppName(next))];
    if instanceDeployOk {
      report := InstanceDeployed(next, FlyUrl(AppName(next)), FlyUrl(AdminAgentName));
    } else {
      report := DeploymentFailed(next);
    }
  }

  // ---------------------------------------------------------------------------
  // The group id and admin wallet files

  datatype Wallet = Wallet(privateKey: string, address: string)

  /**
   * What a file holds: plain text, or the JSON object `json.dump` wrote for a wallet
   * (dumping and loading that object is taken as an exact round trip).
   */
  datatype Content = Text(text: string) | WalletJson(wallet: Wallet)

  /** The text `f.read()` returns: a text file's own text, or the wallet's JSON object text. */
  function Serialized(c: Content): (r: string)
    ensures c.Text? ==> r == c.text
    ensures c.WalletJson? ==> |r| > 1 && r[0] == '{' && r[|r| - 1] == '}'
  {
    match c
    case Text(t) => t
    case WalletJson(w) => "{\"private_key\": \"" + w.privateKey + "\", \"address\": \"" + w.address + "\"}"
  }

  predicate IsHexDigit(c: char) {
    '0' <= c <= '9' || 'a' <= c <= 'f'
  }

  /** What `os.urandom(8).hex()` yields: 16 lower-case hexadecimal digits. */
  predicate IsHex16(s: string) {
    |s| == 16 && forall i :: 0 <= i < |s| ==> IsHexDigit(s[i])
  }

  /** A value returned by a file operation together with the files afterwards. */
  datatype Stored<T> = Stored(value: T, files: map<string, Content>)

  /**
   * `get_or_create_group_chat_id`: the stripped content of the file when it exists,
   * otherwise a new `group-<hex>` that is written to the file. No other file changes.
   */
  function GroupChatIdAfter(files: map<string, Content>, randomHex: string): (r: Stored<string>)
    ensures GroupChatIdFile in r.files
    ensures r.files - {GroupChatIdFile} == files - {GroupChatIdFile}
    ensures GroupChatIdFile in files ==> r.files == files
    ensures GroupChatIdFile !in files ==> r.files[GroupChatIdFile] == Text(r.value)
    ensures GroupChatIdFile in files ==> r.value == Strip(Serialized(files[GroupChatIdFile]))
    ensures GroupChatIdFile !in files ==> r.value == GroupIdPrefix + randomHex
  {
    if GroupChatIdFile in files then
      Stored(Strip(Serialized(files[GroupChatIdFile])), files)
    else
      var groupId := GroupIdPrefix + randomHex;
      Stored(groupId, files[GroupChatIdFile := Text(groupId)])
  }

  /** A newly created group id is `group-` and 16 hex digits. */
  lemma NewGroupChatIdFormat(files: map<string, Content>, randomHex: string)
    requires GroupChatIdFile !in files && IsHex16(randomHex)
    ensures var id := GroupChatIdAfter(files, randomHex).value;
      |id| == 22 && StartsWith(id, GroupIdPrefix) && IsHex16(id[6..])
  {
    var id := GroupChatIdAfter(files, randomHex).value;
    assert id[6..] == randomHex;
  }

  /** Once the file exists the random value is not used: any two calls agree. */
  lemma GroupChatIdIgnoresRandomOnceStored(files: map<string, Content>, h1: string, h2: string)
    requires GroupChatIdFile in files
    ensures GroupChatIdAfter(files, h1) == GroupChatIdAfter(files, h2)
  {
  }

  /** A second call returns what the first returned and writes nothing. */
  lemma GroupChatIdIsPersistent(files: map<string, Content>, h1: string, h2: string)
    requires IsHex16(h1)
    ensures var first := GroupChatIdAfter(files, h1);
      GroupChatIdAfter(first.files, h2) == first
  {
    if GroupChatIdFile !in files {
      var id := GroupIdPrefix + h1;
      assert !IsSpace(id[0]) && !IsSpace(id[|id| - 1]);
      StripUnchanged(id);
    }
  }

  /** Errors of the file operations. */
  datatype StoreError = NotAWalletObject

  /** `json.load` of the wallet file: only a wallet object written by `json.dump` is one. */
  function LoadWallet(c: Content): (r: Result<Wallet, StoreError>)
    ensures r.Success? <==> c.WalletJson?
    ensures r.Success? ==> r.value == c.wallet
  {
    match c
    case WalletJson(w) => Success(w)
    case Text(_) => Failure(NotAWalletObject)
  }

  /**
   * `get_or_create_admin_wallet`: the stored wallet when the file exists, otherwise
   * the wallet the provider creates (`created`), which is then written to the file.
   */
  function AdminWalletAfter(files: map<string, Content>, created: Wallet): (r: Stored<Result<Wallet, StoreError>>)
    ensures AdminWalletFile in r.files
    ensures r.files - {AdminWalletFile} == files - {AdminWalletFile}
    ensures AdminWalletFile in files ==> r.files == files
    ensures AdminWalletFile !in files ==> r.value == Success(created) && r.files[AdminWalletFile] == WalletJson(created)
    ensures AdminWalletFile in files ==> r.value == LoadWallet(files[AdminWalletFile])
  {
    if AdminWalletFile in files then
      Stored(LoadWallet(files[AdminWalletFile]), files)
    else
      Stored(Success(created), files[AdminWalletFile := WalletJson(created)])
  }

  /** Once a wallet is stored no new one is used: the provider's wallet does not matter. */
  lemma AdminWalletIgnoresProviderOnceStored(files: map<string, Content>, w1: Wallet, w2: Wallet)
    requires AdminWalletFile in files
    ensures AdminWalletAfter(files, w1) == AdminWalletAfter(files, w2)
  {
  }

  /** A second call returns what the first returned and writes nothing. */
  lemma AdminWalletIsPersistent(files: map<string, Content>, w1: Wallet, w2: Wallet)
    ensures var first := AdminWalletAfter(files, w1);
      AdminWalletAfter(first.files, w2) == first
  {
  }

  /** The scaler's working directory: the files the two get-or-create operations read and write. */
  class FleetFiles {
    var files: map<string, Content>

    constructor (initial: map<string, Content>)
      ensures files == initial
    {
      files := initial;
    }

    /** `get_or_create_group_chat_id`, with `randomHex` standing for `os.urandom(8).hex()`. */
    method GetOrCreateGroupChatId(randomHex: string) returns (groupId: string)
      requires IsHex16(randomHex)
      modifies this
      ensures Stored(groupId, files) == GroupChatIdAfter(old(files), randomHex)
    {
      if GroupChatIdFile in files {
        groupId := Strip(Serialized(files[GroupChatIdFile]));
      } else {
        groupId := GroupIdPrefix + randomHex;
        files := files[GroupChatIdFile := Text(groupId)];
      }
    }

    /** `get_or_create_admin_wallet`, with `created` standing for what `create_mpc_wallet` returns. */
    method GetOrCreateAdminWallet(created: Wallet) returns (wallet: Result<Wallet, StoreError>)
      modifies this
      ensures Stored(wallet, files) == AdminWalletAfter(old(files), created)
    {
      if AdminWalletFile in files {
        wallet := LoadWallet(files[AdminWalletFile]);
      } else {
        wallet := Success(created);
        files := files[AdminWalletFile := WalletJson(created)];
      }
    }
  }
}
