# BucketsHunter, modelled in Dafny

BucketsHunter looks for public cloud storage and services. It starts from a
keyword and a wordlist, builds candidate names, and probes each of them:

- AWS: S3 buckets and their permissions, and `awsapps.com` domains;
- Azure: storage accounts, web apps, VM host names, and container directories;
- GCP: GCS buckets and their IAM permissions.

It collects the records it finds and can write them to a JSON file. The
repository holds the current package (`buckets_hunter/`) and an older one
(`BucketsHunter/`). Both are modelled here.

How the model is built:

- **The network is a parameter.** Each network answer comes from a function
  the caller supplies:
  - `dns: string -> DnsAnswer`: resolved, NXDOMAIN, timeout, or another
    resolver error;
  - `http: string -> HttpReply`: unreachable, or a status, the keys that
    `KEY_REGEX` extracts, and the parsed JSON;
  - `s3: S3Request -> ClientReply`: success, `ClientError`, or another
    failure.
- **Exceptions** are `Outcome<T> = Returned(v) | Raised`. The type supports
  Dafny's `:-`, so an exception that the code does not catch propagates
  exactly as it does in Python.
- **Thread-pool fan-out** (`ThreadPoolExecutor` with `as_completed`) is a loop
  that takes any pending task next. Its contract:
  - the collected records are the same records as the tasks produce, in any
    order;
  - a phase's records all come before the next phase's records (`Phased`).
- **The older AWS and GCP `run`s** have no exception handler. They are
  modelled as returning what was printed, plus whether a failing task ended
  the run. The older Azure `run` prints nothing and never reads a future, so
  a failing task cannot end it. It is modelled by the tasks it submits and
  the accounts its sweep leaves in the scanner.
- **State changed in place** is modelled imperatively:
  - the Azure scanner's `found_storage_accounts` set is a class field;
  - the one-shot iterator that `generate_bucket_permutations` returns is the
    class `PermutationStream`.

Files:

- `probing.dfy`: network answers, records, the DNS lookup and the S3
  `ClientError` handling.
- `task_pool.dfy`: the executor patterns.
- `hunter_utils.dfy` / `legacy_utils.dfy`: candidate generation and the
  bucket file listing.
- `aws_scanner.dfy`, `azure_scanner.dfy`, `gcp_scanner.dfy` and their
  `legacy_` counterparts: the scanners.
- `hunter.dfy`: the entry point `main`.

## Model

| member | source | states |
|---|---|---|
| Probing.DnsLookup | BucketsHunter/utils/dns.py:23-32 | a lookup is "present" exactly when the name resolves and "absent" exactly on NXDOMAIN or a timeout; every other resolver error reaches the caller |
| Probing.Attempt | buckets_hunter/modules/aws/aws_scanner.py:74-79 | a client call guarded by `except ClientError` gives true exactly on success and false exactly on ClientError; any other failure propagates |
| HunterUtils.SixForms | buckets_hunter/utils/hunter_utils.py:13-25 | one mutation word gives six candidate names |
| HunterUtils.PermutationsLength | buckets_hunter/utils/hunter_utils.py:10-25 | a wordlist of n words gives exactly 1 + 6n candidates |
| HunterUtils.PermutationsStartWithKeyword | buckets_hunter/utils/hunter_utils.py:11 | the first candidate is always the bare keyword |
| HunterUtils.PermutationsAt | buckets_hunter/utils/hunter_utils.py:12-25 | candidate 1 + 6i + j is the j-th form (keyword-word, keyword_word, keywordword, word-keyword, word_keyword, wordkeyword) of word i |
| HunterUtils.GenerateBucketPermutations | buckets_hunter/utils/hunter_utils.py:10-25 | the appending loop builds exactly the candidate list `Permutations(keyword, wordlist)` |
| HunterUtils.GenerateBucketPermutationStream | buckets_hunter/utils/hunter_utils.py:10-27 | the function as written returns a new single-pass iterator over that same candidate list |
| HunterUtils.PermutationStream.constructor | buckets_hunter/utils/hunter_utils.py:27 | `iter(list)` starts with every element of the list still to come |
| HunterUtils.PermutationStream.Drain | buckets_hunter/utils/hunter_utils.py:27 | one `for` loop over the iterator yields what was left, and afterwards nothing is left |
| HunterUtils.LineLength | buckets_hunter/utils/hunter_utils.py:35-36 | the length of the longest prefix without a newline, which is how far `.*` matches |
| HunterUtils.StripQuery | buckets_hunter/utils/hunter_utils.py:35-36 | the substitution that deletes every '?' with the rest of its line; it never lengthens the URL, and the three lemmas below characterise it |
| HunterUtils.StripQueryRemovesEveryQuery | buckets_hunter/utils/hunter_utils.py:35-36 | after `re.sub(r"(\?.*)", "", url)` no '?' is left in the URL |
| HunterUtils.StripQueryCutsAtFirstQuery | buckets_hunter/utils/hunter_utils.py:35-36 | on a URL without a newline, the substitution keeps exactly the part before the first '?' |
| HunterUtils.StripQueryKeepsPlainUrl | buckets_hunter/utils/hunter_utils.py:35-36 | a URL without a '?' is left unchanged |
| HunterUtils.FileUrls | buckets_hunter/utils/hunter_utils.py:38-42 | the listing gives one file URL per extracted key |
| HunterUtils.FileUrlsRecoverKeys | buckets_hunter/utils/hunter_utils.py:38-42 | each file URL is the stripped bucket URL, a '/' and the key, so the key can be read back from the URL |
| HunterUtils.GetBucketFiles | buckets_hunter/utils/hunter_utils.py:31-44 | raises exactly when the listing host is unreachable; otherwise returns the file URLs of all extracted keys, in match order |
| HunterUtils.NoKeysNoFiles | buckets_hunter/utils/hunter_utils.py:34-44 | a listing without `<Key>` or `<Name>` elements yields no files |
| LegacyUtils.GenerateBucketPermutations | BucketsHunter/utils/buckets_hunter_utils.py:4-26 | the older loop (an empty list, then the keyword, then six forms per word) builds the same 1 + 6n candidates as the current one |
| GcpScanner.BucketExists | buckets_hunter/modules/gcp/gcp_scanner.py:42-44 | a bucket is absent exactly for status 400, 404 or 500, so 403 counts as existing; an unreachable host raises |
| GcpScanner.CheckReadPermission | buckets_hunter/modules/gcp/gcp_scanner.py:46-47 | true exactly when some entry of the granted list is "storage.objects.get" |
| GcpScanner.CheckWritePermission | buckets_hunter/modules/gcp/gcp_scanner.py:49-55 | true exactly when some entry of the granted list is one of the three object-write permissions |
| GcpScanner.CheckListPermission | buckets_hunter/modules/gcp/gcp_scanner.py:57-58 | true exactly when some entry of the granted list is "storage.objects.list" |
| GcpScanner.CheckPrivescPermission | buckets_hunter/modules/gcp/gcp_scanner.py:60-61 | true exactly when some entry of the granted list is "storage.buckets.setIamPolicy" |
| GcpScanner.GcsFlags | buckets_hunter/modules/gcp/gcp_scanner.py:46-61 | the GCS flags of a granted list: writeable exactly when some object create/delete/update permission is granted |
| GcpScanner.GcsFlagsMonotone | buckets_hunter/modules/gcp/gcp_scanner.py:46-61 | granting more permissions never clears any of the four flags |
| GcpScanner.GcsFlagsIgnoreOrder | buckets_hunter/modules/gcp/gcp_scanner.py:46-61 | the flags depend only on the set of granted permissions, not on their order or repetitions |
| GcpScanner.GcsFlagsOnlyReadRequested | buckets_hunter/modules/gcp/gcp_scanner.py:46-61 | every permission a flag reads is one of the ten the request asks about, so replacing any other entry changes nothing |
| GcpScanner.EmptyGrantAllFalse | buckets_hunter/modules/gcp/gcp_scanner.py:26-39 | a present but empty "permissions" list gives a record with all four flags false |
| GcpScanner.ScanBucketPermissions | buckets_hunter/modules/gcp/gcp_scanner.py:16-40 | the scan of one name; an absent bucket gives None, and `ScanBucketPermissionsCases` states every outcome |
| GcpScanner.ScanBucketPermissionsCases | buckets_hunter/modules/gcp/gcp_scanner.py:16-40 | each outcome of a bucket scan, stated from the answers: None when the bucket is absent or "permissions" is missing; the raise conditions; and otherwise the record with the flags and the file URLs |
| GcpScanner.AbsentBucketMakesNoPermissionRequest | buckets_hunter/modules/gcp/gcp_scanner.py:19-21 | for an absent bucket the permissions request is never made: its answer cannot change the result |
| GcpScanner.ForbiddenBucketWithEmptyGrantIsReported | buckets_hunter/modules/gcp/gcp_scanner.py:16-44 | a 403 bucket with an empty grant is reported with all flags false |
| GcpScanner.Run | buckets_hunter/modules/gcp/gcp_scanner.py:64-84 | the result is a permutation of the records of the candidates' scans; raised and None results are dropped; there are at most as many records as candidates |
| GcpScanner.RunReportsOnlyCandidates | buckets_hunter/modules/gcp/gcp_scanner.py:64-84 | every record in the result is the GCS record of some candidate, with that candidate's bucket URL |
| GcpScanner.ScanHitIsGcsRecord | buckets_hunter/modules/gcp/gcp_scanner.py:28-39 | a record returned by a scan is a GCP bucket record for the scanned bucket's URL |
| LegacyGcpScanner.ScanBucketPermissions | BucketsHunter/modules/gcp/gcp_scanner.py:10-27 | the older scan of one name; an absent bucket gives None, and `ScanBucketPermissionsCases` states every outcome |
| LegacyGcpScanner.ScanBucketPermissionsCases | BucketsHunter/modules/gcp/gcp_scanner.py:10-27 | the older scan: the same existence rule and the same four flags as the current scanner, in a flat record for the storage.googleapis.com URL |
| LegacyGcpScanner.Run | BucketsHunter/modules/gcp/gcp_scanner.py:51-61 | the run raises exactly when some task raises; without a raise, what is printed is a permutation of all records; with one, it is part of them |
| AwsScanner.ScanAwsApps | buckets_hunter/modules/aws/aws_scanner.py:37-45 | an AWS-apps record exactly when "{name}.awsapps.com" resolves; None on NXDOMAIN or timeout; a raise otherwise |
| AwsScanner.BucketExists | buckets_hunter/modules/aws/aws_scanner.py:67-72 | true exactly when `head_bucket` succeeds, false exactly when it fails with ClientError; any other failure raises |
| AwsScanner.CheckReadPermission | buckets_hunter/modules/aws/aws_scanner.py:74-79 | true exactly when listing the bucket succeeds, false exactly on ClientError; any other failure raises |
| AwsScanner.CheckReadAclPermission | buckets_hunter/modules/aws/aws_scanner.py:96-102 | true exactly when `get_bucket_acl` succeeds, false exactly on ClientError; any other failure raises |
| AwsScanner.CheckWriteAclPermission | buckets_hunter/modules/aws/aws_scanner.py:104-111 | true exactly when setting the ACL to "public-read" succeeds, false exactly on ClientError; any other failure raises |
| AwsScanner.CheckWritePermission | buckets_hunter/modules/aws/aws_scanner.py:81-94 | writeable exactly when both the upload and the delete succeed; false exactly when the upload fails with ClientError |
| AwsScanner.DeleteOnlyAfterUpload | buckets_hunter/modules/aws/aws_scanner.py:87-94 | the delete is issued only after a successful upload |
| AwsScanner.ScanBucketPermissions | buckets_hunter/modules/aws/aws_scanner.py:47-65 | the scan of one name: None when `head_bucket` fails with ClientError, a record only for a bucket `head_bucket` accepts; `ScanBucketPermissionsCases` states every outcome |
| AwsScanner.ScanBucketPermissionsCases | buckets_hunter/modules/aws/aws_scanner.py:47-65 | None exactly when `head_bucket` fails with ClientError; the exact raise conditions; otherwise the S3 record, whose flags are "call succeeded" and whose files come from the HTTPS listing |
| AwsScanner.AbsentBucketMakesNoPermissionCalls | buckets_hunter/modules/aws/aws_scanner.py:50-51 | for a bucket `head_bucket` rejects, no other call affects the result |
| AwsScanner.Run | buckets_hunter/modules/aws/aws_scanner.py:114-147 | on a candidate list (the corrected input of the finding below): all S3 records come before all AWS-apps records, each phase a permutation of its scans' records; at most two records per candidate |
| AwsScanner.FailedCleanupDropsBucket | buckets_hunter/modules/aws/aws_scanner.py:88-94 | a bucket whose upload succeeds but whose delete fails makes its scan raise, and no record for that bucket appears |
| AwsScanner.S3BucketUrlInjective | buckets_hunter/modules/aws/aws_scanner.py:13 | different names give different bucket hosts |
| AwsScanner.ScanHitNamesItsBucket | buckets_hunter/modules/aws/aws_scanner.py:53-65 | a record returned by a scan is the AWS S3 record of the scanned bucket's host |
| AwsScanner.NothingFoundGivesEmptyResult | buckets_hunter/modules/aws/aws_scanner.py:114-147 | when no bucket exists and no apps domain resolves, `run` returns an empty list |
| LegacyAwsScanner.ScanBucket | BucketsHunter/modules/aws/aws_scanner.py:35-45 | None exactly when `head_bucket` fails with ClientError; otherwise the flat record, whose flags are "call succeeded" |
| LegacyAwsScanner.AgreesWithCurrentScanner | BucketsHunter/modules/aws/aws_scanner.py:35-95 | with a reachable listing, the older and the current scans agree on None, on raising, and on bucket host and flags |
| LegacyAwsScanner.ScanAwsApps | BucketsHunter/modules/aws/aws_scanner.py:97-98 | the stub returns None |
| LegacyAwsScanner.Run | BucketsHunter/modules/aws/aws_scanner.py:101-111 | raises exactly when some task raises; prints the records of the tasks before the first failing one, in submission order |
| LegacyAwsScanner.RunWithoutFailurePrintsAllInOrder | BucketsHunter/modules/aws/aws_scanner.py:109-111 | with no failing task, every task's result is read, in submission order |
| AzureScanner.IsStorageAccountName | buckets_hunter/modules/azure/azure_scanner.py:11 | the `^[a-z0-9]{3,21}$` filter, which tolerates one final newline, so an accepted name has 3 to 22 characters; the two lemmas below characterise it |
| AzureScanner.StorageAccountNameOnOneLine | buckets_hunter/modules/azure/azure_scanner.py:11 | on a name without a newline, the filter accepts exactly 3 to 21 lowercase letters or digits |
| AzureScanner.StorageAccountNameRejects | buckets_hunter/modules/azure/azure_scanner.py:11 | a name holding any other character (apart from one final newline) is rejected |
| AzureScanner.StorageAccountResult | buckets_hunter/modules/azure/azure_scanner.py:36-47 | a storage-account record exactly when the name passes the filter and its blob host resolves; None exactly when the name is filtered out or its host gives NXDOMAIN or a timeout; a raise only on a resolver error for a name that passed the filter |
| AzureScanner.FilteredNameMakesNoLookup | buckets_hunter/modules/azure/azure_scanner.py:38-40 | a name rejected by the filter is never looked up |
| AzureScanner.ScanWebApps | buckets_hunter/modules/azure/azure_scanner.py:49-58 | a web-app record exactly when "{name}.azurewebsites.net" resolves; None on NXDOMAIN or timeout; a raise otherwise |
| AzureScanner.VmHosts | buckets_hunter/modules/azure/azure_scanner.py:62-64 | one host "{name}.{region}.cloudapp.azure.com" per region, in region order |
| AzureScanner.ResolvingMembers | buckets_hunter/modules/azure/azure_scanner.py:62-66 | the hosts kept are exactly those that resolve, never more than were tried |
| AzureScanner.LookupAll | buckets_hunter/modules/azure/azure_scanner.py:62-66 | the lookups raise exactly when some host hits a resolver error; otherwise they keep the resolving hosts in order |
| AzureScanner.VmScanResult | buckets_hunter/modules/azure/azure_scanner.py:60-74 | the VM scan of one name raises exactly when some region host hits a resolver error; a record is never empty and lists the resolving hosts in region order |
| AzureScanner.VmScanResultCases | buckets_hunter/modules/azure/azure_scanner.py:60-74 | without resolver errors: a VM record exactly when some region host resolves, listing exactly those hosts in region order |
| AzureScanner.AzureBucketsScanner.constructor | buckets_hunter/modules/azure/azure_scanner.py:21-24 | a new scanner remembers no storage account |
| AzureScanner.AzureBucketsScanner.ScanStorageAccount | buckets_hunter/modules/azure/azure_scanner.py:36-47 | returns the storage-account result and adds the name to the remembered accounts exactly when it was found |
| AzureScanner.AzureBucketsScanner.ScanStoragePhase | buckets_hunter/modules/azure/azure_scanner.py:83-95 | the phase's records are a permutation of the storage scans' records; afterwards the scanner remembers exactly the candidates found, in addition to what it knew before |
| AzureScanner.AzureBucketsScanner.ScanAzureVm | buckets_hunter/modules/azure/azure_scanner.py:60-74 | the region loop computes the VM result: the resolving hosts in order, a raise on the first resolver error |
| AzureScanner.AzureBucketsScanner.BruteforceContainerDirectory | buckets_hunter/modules/azure/azure_scanner.py:26-34 | the listing URLs of exactly the remembered accounts whose listing answers 200; raises when some listing host is unreachable |
| AzureScanner.ProbeContainers | buckets_hunter/modules/azure/azure_scanner.py:27-34 | the loop over the account set keeps exactly the URLs that answer 200, at most one per account, and no URL twice when different accounts have different URLs |
| AzureScanner.Run | buckets_hunter/modules/azure/azure_scanner.py:77-142 | on a candidate list (the corrected input of the finding below): storage-account records, then web-app records, then VM records, each phase a permutation of its scans' records |
| LegacyAzureScanner.LookupWithFreshResolver | BucketsHunter/modules/azure/azure_scanner.py:36-48 | a resolver that cannot be built raises SystemExit, which ends the sweep task only, and nothing reads that task's result; otherwise the lookup behaves as the shared DNS lookup |
| LegacyAzureScanner.HasNonAlphanumeric | BucketsHunter/modules/azure/azure_scanner.py:17-28 | the older filter, `re.search("[^a-zA-Z0-9]", name)`; every one-line name it lets through is rejected by the current storage-account filter |
| LegacyAzureScanner.SweepAccounts | BucketsHunter/modules/azure/azure_scanner.py:26-34 | the sweep over the names in order, characterised by `SweepAccountsSound` and `SweepAccountsComplete` |
| LegacyAzureScanner.SweepAccountsSound | BucketsHunter/modules/azure/azure_scanner.py:26-34 | the sweep stops exactly on a failing lookup of a name it does not skip; it adds only names that contain a character outside [a-zA-Z0-9] and whose host resolves |
| LegacyAzureScanner.SweepAccountsComplete | BucketsHunter/modules/azure/azure_scanner.py:26-34 | a sweep without a failure adds exactly those names |
| LegacyAzureScanner.AzureBucketsScanner.constructor | BucketsHunter/modules/azure/azure_scanner.py:21-24 | a new scanner knows no storage account |
| LegacyAzureScanner.AzureBucketsScanner.FindExistingStorageAccounts | BucketsHunter/modules/azure/azure_scanner.py:26-34 | the loop adds the sweep's accounts to the set and stops at the first failure, keeping what it added before that |
| LegacyAzureScanner.AzureBucketsScanner.BruteforceContainers | BucketsHunter/modules/azure/azure_scanner.py:61-68 | the "/?restype" listing URLs of exactly the known accounts that answer 200 |
| LegacyAzureScanner.SweepStopsAtRaise | BucketsHunter/modules/azure/azure_scanner.py:26-34 | once a prefix of the sweep has failed, the rest of the names change nothing |
| LegacyAzureScanner.Run | BucketsHunter/modules/azure/azure_scanner.py:71-84 | submits the sweep, then one bruteforce task per wordlist entry (the `is not None` guard always holds); the scanner ends with the sweep's accounts |
| TaskPool.CollectAsCompleted | buckets_hunter/modules/gcp/gcp_scanner.py:74-82 | the try/except loop over completed futures: the collected records are a permutation of the tasks' records, and raised tasks are dropped |
| TaskPool.HitIsReported | buckets_hunter/modules/gcp/gcp_scanner.py:79-82 | a task that returns a record has that record collected |
| TaskPool.ReportedHitHasTask | buckets_hunter/modules/gcp/gcp_scanner.py:79-82 | every collected record was returned by some task |
| TaskPool.PrintAsCompleted | BucketsHunter/modules/gcp/gcp_scanner.py:59-61 | the unguarded loop over completed futures prints a subset of the records, all of them unless some task raised |
| TaskPool.PrintInSubmissionOrder | BucketsHunter/modules/aws/aws_scanner.py:109-111 | the loop over the futures dict prints, in submission order, the records before the first failing task |
| TaskPool.PhasedIsPermutation | buckets_hunter/__main__.py:108-116 | a phased result list holds exactly the records of all phases |
| Hunter.ValidateArgs | buckets_hunter/__main__.py:69-79 | accepted exactly when the output name is falsy or ends in ".json" and the platform is "all" or a supported one; an accepted argument set is returned unchanged |
| Hunter.DefaultsAreValid | buckets_hunter/__main__.py:30-79 | the defaults (no output file, platform "all") and an empty output name are accepted |
| Hunter.RejectedArgs | buckets_hunter/__main__.py:69-78 | any output name ending in ".txt", or any platform outside the list, ends the program |
| Hunter.ScanPlatforms | buckets_hunter/__main__.py:101-116 | the corrected half of the finding below, with the candidates as a list: one scanner's phases, or those of AWS, then Azure, then GCP; each phase scans the whole candidate list |
| Hunter.HuntBuckets | buckets_hunter/__main__.py:82-124 | the corrected, list-based `main` (as written, `main` passes an iterator; see the finding below): exits exactly when validation fails; crashes exactly when validation passes and the thread count is below 1, because the first `ThreadPoolExecutor` raises ValueError; otherwise the phased results of `Permutations(keyword, wordlist)`, written exactly when they are non-empty and the output name is truthy |
| Hunter.PhaseProbesMatchPlatformPhases | buckets_hunter/__main__.py:101-116 | the per-phase scans of the iterator model are the same scans as the scanners' phases |
| Hunter.StreamPhases | buckets_hunter/utils/hunter_utils.py:27 | with one shared iterator, every phase after the first sees no candidate |
| Hunter.ScanPlatformsOverStream | buckets_hunter/__main__.py:91-116 | the dispatch as written: the first phase drains the iterator, and every later phase gets nothing |
| Hunter.HuntBucketsAsWritten | buckets_hunter/__main__.py:82-124 | `main` as written: the same validation, the same crash on a thread count below 1 and the same output decision, with results that follow the draining phases |
| Hunter.StreamStarvesLaterPhases | buckets_hunter/utils/hunter_utils.py:27 | the counterexample: the code as written finds nothing where the corrected one reports "demo.awsapps.com" |

## Left out

- Network I/O, clocks and threads. DNS, HTTP and S3 answers are parameters. Each answer is a fixed function of the request, so repeated requests get the same answer, and the marker object's timestamped key is not modelled.
- The effect of a positive thread count (`threads`) on scheduling. The model already lets tasks complete in any order. The scanners' `run`s take no thread count; a count below 1, for which `ThreadPoolExecutor` raises ValueError (buckets_hunter/modules/aws/aws_scanner.py:118), is modelled in `HuntBuckets` and `HuntBucketsAsWritten` as `Crashed`.
- Logging, `print_service` / `print_open_bucket` and console output. The older AWS and GCP `run`s are modelled by what they print; the older Azure `run` prints nothing.
- Reading the wordlist file and building its path: `main` receives the wordlist lines as a sequence. `open_wordlist_file` of the older package is not modelled.
- `buckets_hunter/utils/dns.py` is not part of this model. Its `dns_lookup(url)`, called at buckets_hunter/modules/aws/aws_scanner.py:38 and buckets_hunter/modules/azure/azure_scanner.py:40, 52 and 65, is assumed to behave like the older `dns_lookup` in `BucketsHunter/utils/dns.py`, which `DnsLookup` follows. Any other behaviour that returns a bool or raises is one of the DNS parameter's answers.
- `buckets_hunter/modules/azure/regions.py` is not part of this model. The region list `AZURE_REGIONS` is a parameter.
- Creating the boto3 client and its `sys.exit`/`exit` failure path. The model starts with a working client.
- JSON serialisation by `ujson.dump`. `HuntBuckets` reports the file name and the list written to it, not the bytes.
- `KEY_REGEX` matching: the keys it extracts are part of the HTTP reply.
- The container-directory bruteforce phase of the current Azure `run`. It is commented out in the code; only the method is modelled.
- The older package's `__main__.py` and `buckets_hunter.py`. They are not part of the modelled core.
- The order of the container URLs, which follows Python's set iteration order. `ProbeContainers` states which URLs are kept, not their order.
- AwsScanner.CheckWritePermission: a failing `delete_object` sits in the `else:` branch outside the `try` (buckets_hunter/modules/aws/aws_scanner.py:87-94), so the whole bucket scan raises and `run` drops the bucket (`FailedCleanupDropsBucket`).
- LegacyAzureScanner.Run: takes the wordlist as a list of words. In the older command line, `args.wordlist` is a file name (BucketsHunter/__main__.py:35-39), so iterating it would give one task per character. No caller in the modelled sources uses this two-argument `run`.
- AzureScanner.Run: the storage phase runs the scanner's stateful method. The web and VM phases use their result functions directly, with `ScanAzureVm` proved equal to its function.

## Findings

| source | as written | input that shows it | evidently intended | confidence | as-written member | corrected member |
|---|---|---|---|---|---|---|
| buckets_hunter/utils/hunter_utils.py:27 | `generate_bucket_permutations` returns `iter(bucket_names)`, and every phase of every scanner loops over `scan_config.buckets_permutations` again, so only the first phase sees any candidate | keyword "demo", empty wordlist, platform "all"; no S3 bucket exists; only "demo.awsapps.com" resolves | every phase scans every candidate, as with the list that `Config` documents (buckets_hunter/conf/scan_config.py:12) and that the older package returns | not executed | Hunter.StreamStarvesLaterPhases | Hunter.ScanPlatforms |
