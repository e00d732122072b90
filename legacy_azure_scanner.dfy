/**
 * The older Azure scanner (BucketsHunter/modules/azure/azure_scanner.py): a
 * sweep over candidate names that remembers the storage accounts whose host
 * resolves, a DNS lookup that builds a fresh resolver per call, the container
 * bruteforce over the remembered accounts, and `run`, which submits the sweep
 * and the bruteforce tasks together.
 */
module LegacyAzureScanner {
  import opened Probing
  import AzureScanner

  predicate IsAsciiAlnum(c: char)
  {
    'a' <= c <= 'z' || 'A' <= c <= 'Z' || '0' <= c <= '9'
  }

  /** `re.search("[^a-zA-Z0-9]", name)` finds a match. */
  predicate HasNonAlphanumeric(name: string)
    ensures HasNonAlphanumeric(name) && '\n' !in name ==> !AzureScanner.IsStorageAccountName(name)
  {
    exists i :: 0 <= i < |name| && !IsAsciiAlnum(name[i])
  }

  /** `_dns_lookup`: a resolver is built for every call; when that fails,
      `exit()` raises SystemExit. The sweep runs as an executor task, so this
      ends the sweep task only, and nothing reads its future. Otherwise
      NXDOMAIN and timeouts are "absent", a resolved name is "present", and any
      other resolver error propagates. */
  function LookupWithFreshResolver(resolverOk: bool, answer: DnsAnswer): (r: Outcome<bool>)
    ensures !resolverOk ==> r.Raised?
    ensures resolverOk ==> r == DnsLookup(answer)
  {
    if !resolverOk then Raised else DnsLookup(answer)
  }

  /** The effect of one `find_existing_storage_accounts` call: the accounts it
      adds and whether an exception stopped it. */
  datatype Sweep = Sweep(added: set<string>, raised: bool)

  /** The sweep over `names` in order. A name without a non-alphanumeric
      character is skipped (the `continue`); the others are looked up and
      kept when their host resolves; the first failing lookup ends the sweep. */
  function SweepAccounts(resolverOk: bool, dns: string -> DnsAnswer, names: seq<string>): Sweep
  {
    if names == [] then Sweep({}, false)
    else
      var before := SweepAccounts(resolverOk, dns, names[..|names| - 1]);
      var name := names[|names| - 1];
      if before.raised || !HasNonAlphanumeric(name) then before
      else
        match LookupWithFreshResolver(resolverOk, dns(AzureScanner.StorageAccountUrl(name)))
        case Raised => Sweep(before.added, true)
        case Returned(found) => if found then Sweep(before.added + {name}, false) else before
  }

  /** The sweep stops exactly when some name it looks up cannot be resolved
      cleanly, and it only ever adds candidates that contain a character
      outside [a-zA-Z0-9] and whose storage host resolves. */
  lemma {:induction false} SweepAccountsSound(resolverOk: bool, dns: string -> DnsAnswer, names: seq<string>)
    ensures var s := SweepAccounts(resolverOk, dns, names);
      && (s.raised <==> exists i :: (0 <= i < |names| && HasNonAlphanumeric(names[i])
                       && (!resolverOk || dns(AzureScanner.StorageAccountUrl(names[i])) == ResolverFailure)))
      && (forall n :: n in s.added ==>
            n in names && HasNonAlphanumeric(n) && dns(AzureScanner.StorageAccountUrl(n)) == Resolved)
  {
    if names != [] {
      var front := names[..|names| - 1];
      SweepAccountsSound(resolverOk, dns, front);
      assert names == front + [names[|names| - 1]];
    }
  }

  /** Without a failing lookup, the sweep adds exactly the candidates that
      contain a non-alphanumeric character and resolve; in particular every
      plain alphanumeric name, the usual storage-account shape, is skipped. */
  lemma {:induction false} SweepAccountsComplete(resolverOk: bool, dns: string -> DnsAnswer, names: seq<string>)
    requires !SweepAccounts(resolverOk, dns, names).raised
    ensures forall n :: n in SweepAccounts(resolverOk, dns, names).added <==>
      n in names && HasNonAlphanumeric(n) && dns(AzureScanner.StorageAccountUrl(n)) == Resolved
  {
    if names != [] {
      var front := names[..|names| - 1];
      SweepAccountsComplete(resolverOk, dns, front);
      assert names == front + [names[|names| - 1]];
    }
  }

  /** An older Azure scanner: the resolver outcome it gets, the DNS answers,
      and the storage accounts found so far. */
  class AzureBucketsScanner {
    const resolverOk: bool
    const dns: string -> DnsAnswer
    var existingStorageAccounts: set<string>

    constructor (resolverOk: bool, dns: string -> DnsAnswer)
      ensures this.resolverOk == resolverOk && this.dns == dns
      ensures existingStorageAccounts == {}
    {
      this.resolverOk := resolverOk;
      this.dns := dns;
      existingStorageAccounts := {};
    }

    /** `find_existing_storage_accounts`: adds the accounts of the sweep; the
        set only grows, and what was added before an exception stays. */
    method FindExistingStorageAccounts(storageAccountsNames: seq<string>) returns (raised: bool)
      modifies this
      ensures raised == SweepAccounts(resolverOk, dns, storageAccountsNames).raised
      ensures existingStorageAccounts
           == old(existingStorageAccounts) + SweepAccounts(resolverOk, dns, storageAccountsNames).added
    {
      ghost var known := existingStorageAccounts;
      raised := false;
      for i := 0 to |storageAccountsNames|
        invariant raised == SweepAccounts(resolverOk, dns, storageAccountsNames[..i]).raised
        invariant !raised
        invariant existingStorageAccounts == known + SweepAccounts(resolverOk, dns, storageAccountsNames[..i]).added
      {
        var storageAccount := storageAccountsNames[i];
        ghost var prefix := storageAccountsNames[..i + 1];
        assert prefix[..|prefix| - 1] == storageAccountsNames[..i] && prefix[|prefix| - 1] == storageAccount;
        if !HasNonAlphanumeric(storageAccount) {
          continue;
        }
        var storageAccountUrl := AzureScanner.StorageAccountUrl(storageAccount);
        var found := LookupWithFreshResolver(resolverOk, dns(storageAccountUrl));
        if found.Raised? {
          raised := true;
          SweepStopsAtRaise(resolverOk, dns, storageAccountsNames, i + 1);
          return;
        }
        if found.value {
          existingStorageAccounts := existingStorageAccounts + {storageAccount};
        }
      }
      assert storageAccountsNames[..|storageAccountsNames|] == storageAccountsNames;
    }

    /** `bruteforce_containers`: the listing URLs (with "/?restype=...") of the
        remembered accounts that answer 200. */
    method BruteforceContainers(http: string -> HttpReply, containerDirectory: string)
      returns (r: Outcome<seq<string>>)
      ensures r.Raised? <==>
        exists a :: a in existingStorageAccounts && http(ContainerUrl(a, containerDirectory)).Unreachable?
      ensures r.Returned? ==> forall u :: u in r.value <==>
        u in AzureScanner.OpenContainers(http, existingStorageAccounts, ContainerUrlOf(containerDirectory))
      ensures r.Returned? ==> |r.value| <= |existingStorageAccounts|
    {
      r := AzureScanner.ProbeContainers(http, existingStorageAccounts, ContainerUrlOf(containerDirectory));
    }
  }

  /** Once a prefix of the sweep has raised, the whole sweep has raised with
      the same accounts added. */
  lemma {:induction false} SweepStopsAtRaise(resolverOk: bool, dns: string -> DnsAnswer, names: seq<string>, k: nat)
    requires k <= |names| && SweepAccounts(resolverOk, dns, names[..k]).raised
    ensures SweepAccounts(resolverOk, dns, names) == SweepAccounts(resolverOk, dns, names[..k])
    decreases |names| - k
  {
    if k < |names| {
      assert names[..k + 1][..k] == names[..k];
      SweepStopsAtRaise(resolverOk, dns, names, k + 1);
    } else {
      assert names[..k] == names;
    }
  }

  /** The listing URL of the older scanner, with a slash before the query. */
  function ContainerUrl(storageAccount: string, containerDirectory: string): string
  {
    "https://" + storageAccount + ".blob.core.windows.net/" + containerDirectory + "/?restype=container&comp=list"
  }

  function ContainerUrlOf(containerDirectory: string): string -> string
  {
    storageAccount => ContainerUrl(storageAccount, containerDirectory)
  }

  /** A task handed to the executor by `run`. */
  datatype Task = FindExistingStorageAccounts(names: seq<string>) | BruteforceContainers(containerDirectory: string)

  /** `run` of the older scanner: submits the sweep, then, since the
      `existing_storage_accounts is not None` guard always holds (the set is
      created in the constructor), one bruteforce task per wordlist entry,
      without waiting for the sweep. No task result is ever read. Returns the
      submitted tasks and the accounts the sweep leaves in the scanner. */
  method Run(resolverOk: bool, dns: string -> DnsAnswer, containerPermutations: seq<string>, wordlist: seq<string>)
    returns (submitted: seq<Task>, existing: set<string>)
    ensures |submitted| == 1 + |wordlist|
    ensures submitted[0] == FindExistingStorageAccounts(containerPermutations)
    ensures forall i :: 0 <= i < |wordlist| ==> submitted[1 + i] == BruteforceContainers(wordlist[i])
    ensures existing == SweepAccounts(resolverOk, dns, containerPermutations).added
  {
    var azureScanner := new AzureBucketsScanner(resolverOk, dns);
    submitted := [FindExistingStorageAccounts(containerPermutations)];
    var raised := azureScanner.FindExistingStorageAccounts(containerPermutations);
    for i := 0 to |wordlist|
      invariant |submitted| == 1 + i
      invariant submitted[0] == FindExistingStorageAccounts(containerPermutations)
      invariant forall k :: 0 <= k < i ==> submitted[1 + k] == BruteforceContainers(wordlist[k])
    {
      submitted := submitted + [BruteforceContainers(wordlist[i])];
    }
    existing := azureScanner.existingStorageAccounts;
  }
}
