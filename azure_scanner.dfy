/**
 * The current Azure scanner (buckets_hunter/modules/azure/azure_scanner.py):
 * storage accounts found by DNS (and remembered in the scanner), web apps
 * found by DNS, VM host names found per region, the container-directory
 * bruteforce over the remembered accounts, and `run` with its three phases.
 * The region list `AZURE_REGIONS` is a parameter.
 */
module AzureScanner {
  import opened Probing
  import opened TaskPool

  const PLATFORM := "Azure"

  predicate IsLowerAlnum(c: char)
  {
    'a' <= c <= 'z' || '0' <= c <= '9'
  }

  predicate AllLowerAlnum(s: string)
  {
    forall i :: 0 <= i < |s| ==> IsLowerAlnum(s[i])
  }

  /** The part of a name that `$` lets the pattern see: Python's `$` also
      matches just before one final newline. */
  function WithoutFinalNewline(name: string): string
  {
    if |name| > 0 && name[|name| - 1] == '\n' then name[..|name| - 1] else name
  }

  /** `re.search("^[a-z0-9]{3,21}$", name)`: 3 to 21 lowercase letters or
      digits, with one trailing "\n" tolerated. */
  predicate IsStorageAccountName(name: string)
    ensures IsStorageAccountName(name) ==> 3 <= |name| <= 22
  {
    3 <= |WithoutFinalNewline(name)| <= 21 && AllLowerAlnum(WithoutFinalNewline(name))
  }

  /** On names without a newline (the only ones the wordlist reader yields),
      the filter is exactly "3 to 21 lowercase letters or digits". */
  lemma StorageAccountNameOnOneLine(name: string)
    requires '\n' !in name
    ensures IsStorageAccountName(name)
        <==> 3 <= |name| <= 21 && forall i :: 0 <= i < |name| ==> IsLowerAlnum(name[i])
  {
    if |name| > 0 {
      assert name[|name| - 1] in name;
    }
    assert WithoutFinalNewline(name) == name;
  }

  /** A name holding any other character than a lowercase letter or a digit
      (an uppercase letter, a hyphen, an underscore, ...) is never a
      storage-account candidate, except for one final newline. */
  lemma StorageAccountNameRejects(name: string, i: nat)
    requires i < |name| && !IsLowerAlnum(name[i]) && name[i] != '\n'
    ensures !IsStorageAccountName(name)
  {
    var body := WithoutFinalNewline(name);
    assert i < |body| && body[i] == name[i];
  }

  function StorageAccountUrl(bucketName: string): string
  {
    bucketName + ".blob.core.windows.net"
  }

  function WebAppUrl(bucketName: string): string
  {
    bucketName + ".azurewebsites.net"
  }

  function VmUrl(bucketName: string, region: string): string
  {
    bucketName + "." + region + ".cloudapp.azure.com"
  }

  function ContainerUrl(storageAccount: string, containerDirectory: string): string
  {
    "https://" + storageAccount + ".blob.core.windows.net/" + containerDirectory + "?restype=container&comp=list"
  }

  /** What `scan_storage_account` returns for one name. */
  function StorageAccountResult(dns: string -> DnsAnswer, bucketName: string): (r: Outcome<Option<Finding>>)
    ensures !IsStorageAccountName(bucketName) ==> r == Returned(None)
    ensures r == Returned(Some(ServiceFound("Azure", "Azure storage account", StorageAccountUrl(bucketName))))
        <==> IsStorageAccountName(bucketName) && dns(StorageAccountUrl(bucketName)) == Resolved
    ensures r.Raised? <==> IsStorageAccountName(bucketName) && dns(StorageAccountUrl(bucketName)) == ResolverFailure
    ensures r == Returned(None)
        <==> !IsStorageAccountName(bucketName) || dns(StorageAccountUrl(bucketName)) in {NxDomain, Timeout}
  {
    if IsStorageAccountName(bucketName) then
      var storageAccountUrl := StorageAccountUrl(bucketName);
      var resolved :- DnsLookup(dns(storageAccountUrl));
      if resolved then Returned(Some(ServiceFound(PLATFORM, "Azure storage account", storageAccountUrl)))
      else Returned(None)
    else Returned(None)
  }

  /** A name the filter rejects is never looked up: any resolver gives None. */
  lemma FilteredNameMakesNoLookup(d1: string -> DnsAnswer, d2: string -> DnsAnswer, bucketName: string)
    requires !IsStorageAccountName(bucketName)
    ensures StorageAccountResult(d1, bucketName) == StorageAccountResult(d2, bucketName) == Returned(None)
  {
  }

  predicate IsStorageHit(dns: string -> DnsAnswer, bucketName: string)
  {
    StorageAccountResult(dns, bucketName).Returned? && StorageAccountResult(dns, bucketName).value.Some?
  }

  /** The accounts a storage phase over `names` remembers. */
  function DiscoveredAccounts(dns: string -> DnsAnswer, names: seq<string>): set<string>
  {
    set n | n in names && IsStorageHit(dns, n)
  }

  /** The accounts remembered once every task outside `pending` has run. */
  function DoneAccounts(dns: string -> DnsAnswer, names: seq<string>, pending: seq<nat>): set<string>
  {
    set i | 0 <= i < |names| && i !in pending && IsStorageHit(dns, names[i]) :: names[i]
  }

  /** Running the task at `pending[j]` adds its account, if found, to the
      accounts remembered so far. */
  lemma DoneAccountsStep(dns: string -> DnsAnswer, names: seq<string>, pending: seq<nat>, j: nat,
                         known: set<string>, before: set<string>, after: set<string>)
    requires j < |pending| && PendingTasks(pending, |names|)
    requires before == known + DoneAccounts(dns, names, pending)
    requires after == before + (if IsStorageHit(dns, names[pending[j]]) then {names[pending[j]]} else {})
    ensures after == known + DoneAccounts(dns, names, Without(pending, j))
  {
    RemoveDistinct(pending, j);
    var added := if IsStorageHit(dns, names[pending[j]]) then {names[pending[j]]} else {};
    assert DoneAccounts(dns, names, Without(pending, j)) == DoneAccounts(dns, names, pending) + added;
  }

  lemma DoneAccountsAll(dns: string -> DnsAnswer, names: seq<string>)
    ensures DoneAccounts(dns, names, []) == DiscoveredAccounts(dns, names)
  {
    forall n | n in DiscoveredAccounts(dns, names)
      ensures n in DoneAccounts(dns, names, [])
    {
      var i :| 0 <= i < |names| && names[i] == n;
    }
  }

  /** What `scan_web_apps` returns for one name. */
  function ScanWebApps(dns: string -> DnsAnswer, bucketName: string): (r: Outcome<Option<Finding>>)
    ensures r == Returned(Some(ServiceFound("Azure", "Azure web app", WebAppUrl(bucketName))))
        <==> dns(WebAppUrl(bucketName)) == Resolved
    ensures r == Returned(None) <==> dns(WebAppUrl(bucketName)) in {NxDomain, Timeout}
    ensures r.Raised? <==> dns(WebAppUrl(bucketName)) == ResolverFailure
  {
    var webAppUrl := WebAppUrl(bucketName);
    var resolved :- DnsLookup(dns(webAppUrl));
    if resolved then Returned(Some(ServiceFound(PLATFORM, "Azure web app", webAppUrl))) else Returned(None)
  }

  /** The candidate VM host names of one name, in region order. */
  function VmHosts(bucketName: string, regions: seq<string>): (r: seq<string>)
    ensures |r| == |regions|
    ensures forall i :: 0 <= i < |regions| ==> r[i] == VmUrl(bucketName, regions[i])
  {
    seq(|regions|, i requires 0 <= i < |regions| => VmUrl(bucketName, regions[i]))
  }

  /** The hosts that resolve, in their original order. */
  function Resolving(dns: string -> DnsAnswer, hosts: seq<string>): seq<string>
  {
    if hosts == [] then []
    else Resolving(dns, hosts[..|hosts| - 1]) + (if dns(hosts[|hosts| - 1]) == Resolved then [hosts[|hosts| - 1]] else [])
  }

  lemma {:induction false} ResolvingMembers(dns: string -> DnsAnswer, hosts: seq<string>)
    ensures |Resolving(dns, hosts)| <= |hosts|
    ensures forall h :: h in Resolving(dns, hosts) <==> h in hosts && dns(h) == Resolved
  {
    if hosts != [] {
      var front := hosts[..|hosts| - 1];
      ResolvingMembers(dns, front);
      assert hosts == front + [hosts[|hosts| - 1]];
    }
  }

  /** One `dns_lookup` per host in order: the first resolver failure raises. */
  function LookupAll(dns: string -> DnsAnswer, hosts: seq<string>): (r: Outcome<seq<string>>)
    ensures r.Raised? <==> exists i :: 0 <= i < |hosts| && dns(hosts[i]) == ResolverFailure
    ensures r.Returned? ==> r.value == Resolving(dns, hosts)
  {
    if hosts == [] then Returned([])
    else
      var front :- LookupAll(dns, hosts[..|hosts| - 1]);
      var last := hosts[|hosts| - 1];
      var hit :- DnsLookup(dns(last));
      Returned(front + (if hit then [last] else []))
  }

  /** What `scan_azure_vm` returns for one name. */
  function VmScanResult(dns: string -> DnsAnswer, regions: seq<string>, bucketName: string): (r: Outcome<Option<Finding>>)
    ensures r.Raised? <==> exists i :: 0 <= i < |regions| && dns(VmUrl(bucketName, regions[i])) == ResolverFailure
    ensures r.Returned? && r.value.Some? ==>
      r.value.value.VmGroupFound? && r.value.value.vms != []
      && r.value.value.vms == Resolving(dns, VmHosts(bucketName, regions))
  {
    var foundVms :- LookupAll(dns, VmHosts(bucketName, regions));
    if foundVms != [] then Returned(Some(VmGroupFound(PLATFORM, "Azure VMs", foundVms))) else Returned(None)
  }

  /** A VM record lists exactly the region hosts of the name that resolve, in
      region order, and there is a record exactly when at least one does. */
  lemma VmScanResultCases(dns: string -> DnsAnswer, regions: seq<string>, bucketName: string)
    requires forall i :: 0 <= i < |regions| ==> dns(VmUrl(bucketName, regions[i])) != ResolverFailure
    ensures var r := VmScanResult(dns, regions, bucketName);
      && r.Returned?
      && (r.value.None? <==> forall i :: 0 <= i < |regions| ==> dns(VmUrl(bucketName, regions[i])) != Resolved)
      && (r.value.Some? ==>
            && r.value.value == VmGroupFound("Azure", "Azure VMs", Resolving(dns, VmHosts(bucketName, regions)))
            && |r.value.value.vms| <= |regions|
            && forall h :: h in r.value.value.vms <==> h in VmHosts(bucketName, regions) && dns(h) == Resolved)
  {
    var hosts := VmHosts(bucketName, regions);
    ResolvingMembers(dns, hosts);
    if Resolving(dns, hosts) == [] {
      forall i | 0 <= i < |regions| ensures dns(VmUrl(bucketName, regions[i])) != Resolved {
        assert hosts[i] in hosts;
      }
    } else {
      var h := Resolving(dns, hosts)[0];
      assert h in hosts;
    }
  }

  /** An Azure scanner: the resolver it was built with and the storage
      accounts it has found so far. */
  class AzureBucketsScanner {
    const dnsUtils: string -> DnsAnswer
    var foundStorageAccounts: set<string>

    constructor (dnsUtils: string -> DnsAnswer)
      ensures this.dnsUtils == dnsUtils
      ensures foundStorageAccounts == {}
    {
      this.dnsUtils := dnsUtils;
      foundStorageAccounts := {};
    }

    /** `scan_storage_account`: a name that passes the filter and resolves
        is remembered and reported; the set of found accounts only grows. */
    method ScanStorageAccount(bucketName: string) returns (r: Outcome<Option<Finding>>)
      modifies this
      ensures r == StorageAccountResult(dnsUtils, bucketName)
      ensures foundStorageAccounts
           == old(foundStorageAccounts) + (if IsStorageHit(dnsUtils, bucketName) then {bucketName} else {})
    {
      if IsStorageAccountName(bucketName) {
        var storageAccountUrl := StorageAccountUrl(bucketName);
        var resolved := DnsLookup(dnsUtils(storageAccountUrl));
        if resolved.Raised? {
          return Raised;
        }
        if resolved.value {
          foundStorageAccounts := foundStorageAccounts + {bucketName};
          return Returned(Some(ServiceFound(PLATFORM, "Azure storage account", storageAccountUrl)));
        }
      }
      r := Returned(None);
    }

    /** The storage phase of `run`: one task per candidate, results in
        completion order; afterwards the scanner remembers exactly the
        candidates that were found (besides what it knew before). */
    method ScanStoragePhase(bucketsPermutations: seq<string>) returns (results: seq<Finding>)
      modifies this
      ensures multiset(results) == multiset(Hits(Probed(bucketsPermutations, StorageProbe(dnsUtils))))
      ensures foundStorageAccounts == old(foundStorageAccounts) + DiscoveredAccounts(dnsUtils, bucketsPermutations)
    {
      ghost var known := foundStorageAccounts;
      ghost var os := Probed(bucketsPermutations, StorageProbe(dnsUtils));
      var pending: seq<nat> := Indices(|bucketsPermutations|);
      results := [];
      GatheredIndices(os, |os|);
      assert os[..|os|] == os;
      assert DoneAccounts(dnsUtils, bucketsPermutations, pending) == {} by {
        forall i | 0 <= i < |bucketsPermutations| ensures i in pending {
          assert pending[i] == i;
        }
      }
      while pending != []
        invariant PendingTasks(pending, |os|)
        invariant multiset(results) + multiset(Gathered(os, pending)) == multiset(Hits(os))
        invariant foundStorageAccounts == known + DoneAccounts(dnsUtils, bucketsPermutations, pending)
        decreases |pending|
      {
        var j :| 0 <= j < |pending|;
        var i := pending[j];
        CollectStep(os, pending, j, results);
        assert os[i] == StorageAccountResult(dnsUtils, bucketsPermutations[i]);
        ghost var before := foundStorageAccounts;
        var outcome := ScanStorageAccount(bucketsPermutations[i]);
        DoneAccountsStep(dnsUtils, bucketsPermutations, pending, j, known, before, foundStorageAccounts);
        results := results + HitOf(outcome);
        pending := Without(pending, j);
      }
      DoneAccountsAll(dnsUtils, bucketsPermutations);
    }

    /** `scan_azure_vm`: looks up "{name}.{region}.cloudapp.azure.com" for
        every region in order and collects the hosts that resolve. */
    method ScanAzureVm(bucketName: string, regions: seq<string>) returns (r: Outcome<Option<Finding>>)
      ensures r == VmScanResult(dnsUtils, regions, bucketName)
    {
      var hosts := VmHosts(bucketName, regions);
      var foundVms := [];
      for i := 0 to |regions|
        invariant LookupAll(dnsUtils, hosts[..i]) == Returned(foundVms)
      {
        var azureVmUrl := VmUrl(bucketName, regions[i]);
        assert hosts[..i + 1][..i] == hosts[..i];
        assert hosts[..i + 1][i] == azureVmUrl;
        var resolved := DnsLookup(dnsUtils(azureVmUrl));
        if resolved.Raised? {
          assert hosts[i] == azureVmUrl;
          return Raised;
        }
        ghost var prefix := hosts[..i + 1];
        assert prefix != [] && prefix[..|prefix| - 1] == hosts[..i] && prefix[|prefix| - 1] == azureVmUrl;
        assert LookupAll(dnsUtils, prefix)
            == Returned(foundVms + (if resolved.value then [azureVmUrl] else []));
        if resolved.value {
          foundVms := foundVms + [azureVmUrl];
        } else {
          assert foundVms + [] == foundVms;
        }
      }
      assert hosts[..|regions|] == hosts;
      if foundVms != [] {
        r := Returned(Some(VmGroupFound(PLATFORM, "Azure VMs", foundVms)));
      } else {
        r := Returned(None);
      }
    }

    /** `bruteforce_container_directory`: the listing URLs of the remembered
        accounts that answer 200. */
    method BruteforceContainerDirectory(http: string -> HttpReply, containerDirectory: string)
      returns (r: Outcome<seq<string>>)
      ensures r.Raised? <==>
        exists a :: a in foundStorageAccounts && http(ContainerUrl(a, containerDirectory)).Unreachable?
      ensures r.Returned? ==> forall u :: u in r.value <==>
        u in OpenContainers(http, foundStorageAccounts, ContainerUrlOf(containerDirectory))
      ensures r.Returned? ==> |r.value| <= |foundStorageAccounts|
    {
      r := ProbeContainers(http, foundStorageAccounts, ContainerUrlOf(containerDirectory));
    }
  }

  function ContainerUrlOf(containerDirectory: string): string -> string
  {
    storageAccount => ContainerUrl(storageAccount, containerDirectory)
  }

  /** The listing URLs of `accounts` that answer 200. */
  function OpenContainers(http: string -> HttpReply, accounts: set<string>, urlOf: string -> string): set<string>
  {
    set a | a in accounts && http(urlOf(a)).Response? && http(urlOf(a)).status == 200 :: urlOf(a)
  }

  /** Different accounts of `accounts` get different listing URLs. */
  ghost predicate InjectiveOn(accounts: set<string>, urlOf: string -> string)
  {
    forall a, b :: a in accounts && b in accounts && urlOf(a) == urlOf(b) ==> a == b
  }

  predicate NoDuplicates(urls: seq<string>)
  {
    forall i, j :: 0 <= i < j < |urls| ==> urls[i] != urls[j]
  }

  /** Under an injective URL map, an account not yet visited has a URL that
      is not among the open containers of the visited ones. */
  lemma FreshContainerUrl(http: string -> HttpReply, accounts: set<string>, done: set<string>,
                          urlOf: string -> string, a: string)
    requires InjectiveOn(accounts, urlOf) && done <= accounts && a in accounts && a !in done
    ensures urlOf(a) !in OpenContainers(http, done, urlOf)
  {
    forall b | b in done
      ensures urlOf(b) != urlOf(a)
    {
    }
  }

  /** The loop of both bruteforce methods: visit the accounts in set order,
      GET each one's listing URL and keep the URLs answering 200. An
      unreachable host raises out of the loop. */
  method ProbeContainers(http: string -> HttpReply, accounts: set<string>, urlOf: string -> string)
    returns (r: Outcome<seq<string>>)
    ensures r.Raised? <==> exists a :: a in accounts && http(urlOf(a)).Unreachable?
    ensures r.Returned? ==> forall u :: u in r.value <==> u in OpenContainers(http, accounts, urlOf)
    ensures r.Returned? ==> |r.value| <= |accounts|
    ensures r.Returned? && InjectiveOn(accounts, urlOf) ==> NoDuplicates(r.value)
  {
    var remaining := accounts;
    var foundContainers := [];
    while remaining != {}
      invariant remaining <= accounts
      invariant forall a :: a in accounts - remaining ==> !http(urlOf(a)).Unreachable?
      invariant forall u :: u in foundContainers <==> u in OpenContainers(http, accounts - remaining, urlOf)
      invariant |foundContainers| <= |accounts - remaining|
      invariant InjectiveOn(accounts, urlOf) ==> NoDuplicates(foundContainers)
      decreases |remaining|
    {
      var storageAccount :| storageAccount in remaining;
      var containerUrl := urlOf(storageAccount);
      var done := accounts - remaining;
      assert accounts - (remaining - {storageAccount}) == done + {storageAccount};
      match http(containerUrl)
      case Unreachable =>
        return Raised;
      case Response(status, _, _) =>
        if status == 200 {
          if InjectiveOn(accounts, urlOf) {
            FreshContainerUrl(http, accounts, done, urlOf, storageAccount);
          }
          foundContainers := foundContainers + [containerUrl];
        }
      remaining := remaining - {storageAccount};
    }
    r := Returned(foundContainers);
  }

  function StorageProbe(dns: string -> DnsAnswer): string -> Outcome<Option<Finding>>
  {
    bucketName => StorageAccountResult(dns, bucketName)
  }

  function WebProbe(dns: string -> DnsAnswer): string -> Outcome<Option<Finding>>
  {
    bucketName => ScanWebApps(dns, bucketName)
  }

  function VmProbe(dns: string -> DnsAnswer, regions: seq<string>): string -> Outcome<Option<Finding>>
  {
    bucketName => VmScanResult(dns, regions, bucketName)
  }

  /** The three phases of `run`: storage accounts, web apps, VMs. */
  function Phases(dns: string -> DnsAnswer, regions: seq<string>, bucketsPermutations: seq<string>): (p: seq<seq<Finding>>)
    ensures |p| == 3
  {
    [ Hits(Probed(bucketsPermutations, StorageProbe(dns))),
      Hits(Probed(bucketsPermutations, WebProbe(dns))),
      Hits(Probed(bucketsPermutations, VmProbe(dns, regions))) ]
  }

  /** `run`: all storage-account records, then all web-app records, then all
      VM records, each phase in completion order, None results and raised
      tasks dropped. The VM tasks compute what `ScanAzureVm` computes. */
  method Run(dns: string -> DnsAnswer, regions: seq<string>, bucketsPermutations: seq<string>)
    returns (azureScanResults: seq<Finding>)
    ensures Phased(azureScanResults, Phases(dns, regions, bucketsPermutations))
  {
    var azureScanner := new AzureBucketsScanner(dns);
    var storageResults := azureScanner.ScanStoragePhase(bucketsPermutations);
    var webResults := CollectAsCompleted(bucketsPermutations, WebProbe(dns));
    var vmResults := CollectAsCompleted(bucketsPermutations, VmProbe(dns, regions));
    azureScanResults := storageResults + webResults + vmResults;
    PhasedThree(storageResults, webResults, vmResults,
                Hits(Probed(bucketsPermutations, StorageProbe(dns))),
                Hits(Probed(bucketsPermutations, WebProbe(dns))),
                Hits(Probed(bucketsPermutations, VmProbe(dns, regions))));
  }
}
