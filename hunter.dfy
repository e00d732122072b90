/**
 * The entry point of the current package (buckets_hunter/__main__.py):
 * argument validation, generation of the candidate names, dispatch to one
 * scanner or to all three in the order AWS, Azure, GCP, and the decision to
 * write the JSON report.
 */
module Hunter {
  import opened Probing
  import opened TaskPool
  import opened HunterUtils
  import AwsScanner
  import AzureScanner
  import GcpScanner

  const SUPPORTED_PLATFORMS: seq<string> := ["aws", "azure", "gcp"]

  /** The parsed command line. `outputFile` is None when `-o` is not given
      (argparse's default `False`). */
  datatype Args = Args(
    keyword: string,
    wordlist: string,
    platform: string,
    threads: int,
    outputFile: Option<string>,
    nameServer: string)

  /** Python truthiness of the `output_file` argument. */
  predicate Truthy(outputFile: Option<string>)
  {
    outputFile.Some? && outputFile.value != ""
  }

  predicate IsPlatformChoice(platform: string)
  {
    platform == "all" || platform in SUPPORTED_PLATFORMS
  }

  /** `validate_args`: `exit()` (None) for an output file that does not end in
      ".json" and for an unknown platform; otherwise the arguments unchanged. */
  function ValidateArgs(args: Args): (r: Option<Args>)
    ensures r.Some? ==> r.value == args
    ensures r.Some? <==>
      && (!Truthy(args.outputFile) || EndsWith(args.outputFile.value, ".json"))
      && IsPlatformChoice(args.platform)
  {
    if Truthy(args.outputFile) && !EndsWith(args.outputFile.value, ".json") then None
    else if args.platform != "all" && args.platform !in SUPPORTED_PLATFORMS then None
    else Some(args)
  }

  /** The defaults (no output file, every platform) pass validation, and so
      does an empty output name, which is falsy. */
  lemma DefaultsAreValid(keyword: string, emptyName: Option<string>)
    requires emptyName == None || emptyName == Some("")
    ensures ValidateArgs(Args(keyword, "buckets_wordlist.txt", "all", 10, emptyName, "1.1.1.1")).Some?
  {
  }

  /** Any report name ending in ".txt", or any platform outside the list,
      ends the program. */
  lemma RejectedArgs(args: Args)
    requires (Truthy(args.outputFile) && EndsWith(args.outputFile.value, ".txt")) || !IsPlatformChoice(args.platform)
    ensures ValidateArgs(args) == None
  {
    if Truthy(args.outputFile) && EndsWith(args.outputFile.value, ".txt") {
      var s := args.outputFile.value;
      assert s[|s| - 1] == 't';
    }
  }

  /** The records of each phase when every phase scans all of `names`:
      AWS (buckets, apps), Azure (storage accounts, web apps, VMs), GCP, for
      the chosen platform or, for "all", in that order. */
  function PlatformPhases(net: Network, regions: seq<string>, platform: string, names: seq<string>): (p: seq<seq<Finding>>)
    requires IsPlatformChoice(platform)
  {
    var aws := AwsScanner.Phases(net, names);
    var azure := AzureScanner.Phases(net.dns, regions, names);
    var gcp := [Hits(Probed(names, GcpScanner.Probe(net.http)))];
    if platform == "aws" then aws
    else if platform == "azure" then azure
    else if platform == "gcp" then gcp
    else aws + azure + gcp
  }

  /** The dispatch of `main`: one scanner's `run`, or the three `run`s
      concatenated, each scanning the whole candidate list. */
  method ScanPlatforms(net: Network, regions: seq<string>, platform: string, bucketsPermutations: seq<string>)
    returns (finalScanResults: seq<Finding>)
    requires IsPlatformChoice(platform)
    ensures Phased(finalScanResults, PlatformPhases(net, regions, platform, bucketsPermutations))
  {
    var awsPhases := AwsScanner.Phases(net, bucketsPermutations);
    var azurePhases := AzureScanner.Phases(net.dns, regions, bucketsPermutations);
    var gcpPhase := Hits(Probed(bucketsPermutations, GcpScanner.Probe(net.http)));
    if platform == "aws" {
      finalScanResults := AwsScanner.Run(net, bucketsPermutations);
    } else if platform == "azure" {
      finalScanResults := AzureScanner.Run(net.dns, regions, bucketsPermutations);
    } else if platform == "gcp" {
      finalScanResults := GcpScanner.Run(net.http, bucketsPermutations);
      PhasedSingle(finalScanResults, gcpPhase);
    } else {
      var awsResults := AwsScanner.Run(net, bucketsPermutations);
      var azureResults := AzureScanner.Run(net.dns, regions, bucketsPermutations);
      var gcpResults := GcpScanner.Run(net.http, bucketsPermutations);
      finalScanResults := awsResults + azureResults + gcpResults;
      PhasedSingle(gcpResults, gcpPhase);
      PhasedAppend(awsResults, awsPhases, azureResults, azurePhases);
      PhasedAppend(awsResults + azureResults, awsPhases + azurePhases, gcpResults, [gcpPhase]);
    }
  }

  /** What one run of `main` ends with. */
  datatype Report =
    | Exited                                                      // validate_args called exit()
    | Crashed                                                     // ThreadPoolExecutor raised ValueError
    | Finished(results: seq<Finding>, writtenTo: Option<string>)  // the JSON file written, if any

  /** `main`, with the wordlist file's lines, the network and the Azure
      region list as inputs. `validate_args` does not look at the thread
      count: a count below 1 makes the first scanner's
      `ThreadPoolExecutor(max_workers=...)` raise ValueError before any task
      is submitted, and nothing catches it. The report is written only for a
      non-empty result list and a truthy output file. */
  method HuntBuckets(args: Args, mutationsWordlist: seq<string>, net: Network, regions: seq<string>)
    returns (report: Report)
    ensures report == Exited <==> ValidateArgs(args).None?
    ensures report == Crashed <==> ValidateArgs(args).Some? && args.threads <= 0
    ensures report.Finished? ==>
      Phased(report.results,
             PlatformPhases(net, regions, args.platform, Permutations(args.keyword, mutationsWordlist)))
    ensures report.Finished? ==>
      (report.writtenTo.Some? <==> report.results != [] && Truthy(args.outputFile))
    ensures report.Finished? && report.writtenTo.Some? ==> report.writtenTo == args.outputFile
  {
    var validated := ValidateArgs(args);
    if validated.None? {
      return Exited;
    }
    var bucketsPermutations := GenerateBucketPermutations(args.keyword, mutationsWordlist);
    if args.threads <= 0 {
      return Crashed;
    }
    var finalScanResults := ScanPlatforms(net, regions, args.platform, bucketsPermutations);
    if finalScanResults != [] && Truthy(args.outputFile) {
      report := Finished(finalScanResults, args.outputFile);
    } else {
      report := Finished(finalScanResults, None);
    }
  }

  // ---------------------------------------------------------------------
  // The candidate list as `main` actually passes it: `generate_bucket_permutations`
  // returns `iter(bucket_names)`, and every phase of every scanner loops over
  // that same iterator.

  /** The probe of each phase of a platform choice, in the order of
      `PlatformPhases`. */
  function PhaseProbes(net: Network, regions: seq<string>, platform: string): (ps: seq<string -> Outcome<Option<Finding>>>)
    requires IsPlatformChoice(platform)
  {
    var aws := [AwsScanner.S3Probe(net), AwsScanner.AppsProbe(net.dns)];
    var azure := [AzureScanner.StorageProbe(net.dns), AzureScanner.WebProbe(net.dns),
                  AzureScanner.VmProbe(net.dns, regions)];
    var gcp := [GcpScanner.Probe(net.http)];
    if platform == "aws" then aws
    else if platform == "azure" then azure
    else if platform == "gcp" then gcp
    else aws + azure + gcp
  }

  /** Running each probe of `PhaseProbes` over the whole list gives exactly
      the phases of `PlatformPhases`. */
  lemma PhaseProbesMatchPlatformPhases(net: Network, regions: seq<string>, platform: string, names: seq<string>)
    requires IsPlatformChoice(platform)
    ensures var ps := PhaseProbes(net, regions, platform);
      && |ps| == |PlatformPhases(net, regions, platform, names)|
      && forall k :: 0 <= k < |ps| ==> PlatformPhases(net, regions, platform, names)[k] == Hits(Probed(names, ps[k]))
  {
    var ps := PhaseProbes(net, regions, platform);
    var phases := PlatformPhases(net, regions, platform, names);
    var aws := AwsScanner.Phases(net, names);
    var azure := AzureScanner.Phases(net.dns, regions, names);
    if platform == "all" {
      assert phases == aws + azure + [Hits(Probed(names, GcpScanner.Probe(net.http)))];
      assert ps == [AwsScanner.S3Probe(net), AwsScanner.AppsProbe(net.dns),
                    AzureScanner.StorageProbe(net.dns), AzureScanner.WebProbe(net.dns),
                    AzureScanner.VmProbe(net.dns, regions), GcpScanner.Probe(net.http)];
      forall k | 0 <= k < |ps| ensures phases[k] == Hits(Probed(names, ps[k])) {
        if k < 2 {
          assert phases[k] == aws[k];
        } else if k < 5 {
          assert phases[k] == azure[k - 2];
        }
      }
    }
  }

  /** The records of each phase when the phases share one iterator: the
      first phase consumes every name, later phases see none. */
  function StreamPhases(net: Network, regions: seq<string>, platform: string, names: seq<string>): (p: seq<seq<Finding>>)
    requires IsPlatformChoice(platform)
    ensures |p| == |PhaseProbes(net, regions, platform)|
    ensures forall k :: 0 < k < |p| ==> p[k] == []
  {
    var ps := PhaseProbes(net, regions, platform);
    seq(|ps|, k requires 0 <= k < |ps| => Hits(Probed(if k == 0 then names else [], ps[k])))
  }

  /** The dispatch of `main` as written: each phase's
      `for bucket_name in scan_config.buckets_permutations` drains the shared
      iterator. */
  method ScanPlatformsOverStream(net: Network, regions: seq<string>, platform: string, bucketsPermutations: PermutationStream)
    returns (finalScanResults: seq<Finding>)
    requires IsPlatformChoice(platform) && bucketsPermutations.Valid()
    modifies bucketsPermutations
    ensures Phased(finalScanResults, StreamPhases(net, regions, platform, old(bucketsPermutations.Remaining())))
  {
    ghost var names := bucketsPermutations.Remaining();
    var probes := PhaseProbes(net, regions, platform);
    ghost var phases := StreamPhases(net, regions, platform, names);
    finalScanResults := [];
    assert phases[..0] == [];
    for k := 0 to |probes|
      invariant bucketsPermutations.Valid()
      invariant k == 0 ==> bucketsPermutations.Remaining() == names
      invariant k > 0 ==> bucketsPermutations.Remaining() == []
      invariant Phased(finalScanResults, phases[..k])
    {
      var batch := bucketsPermutations.Drain();
      var found := CollectAsCompleted(batch, probes[k]);
      StreamPhaseStep(phases, names, probes, k, batch, finalScanResults, found);
      finalScanResults := finalScanResults + found;
    }
    assert phases[..|probes|] == phases;
  }

  lemma StreamPhaseStep(phases: seq<seq<Finding>>, names: seq<string>, probes: seq<string -> Outcome<Option<Finding>>>,
                        k: nat, batch: seq<string>, before: seq<Finding>, found: seq<Finding>)
    requires k < |probes| == |phases|
    requires phases[k] == Hits(Probed(if k == 0 then names else [], probes[k]))
    requires batch == if k == 0 then names else []
    requires multiset(found) == multiset(Hits(Probed(batch, probes[k])))
    requires Phased(before, phases[..k])
    ensures Phased(before + found, phases[..k + 1])
  {
    PhasedSingle(found, phases[k]);
    PhasedAppend(before, phases[..k], found, [phases[k]]);
    assert phases[..k] + [phases[k]] == phases[..k + 1];
  }

  /** `main` as written: the same validation, thread-count failure and report
      decision, with the candidates handed over as an iterator. */
  method HuntBucketsAsWritten(args: Args, mutationsWordlist: seq<string>, net: Network, regions: seq<string>)
    returns (report: Report)
    ensures report == Exited <==> ValidateArgs(args).None?
    ensures report == Crashed <==> ValidateArgs(args).Some? && args.threads <= 0
    ensures report.Finished? ==>
      Phased(report.results,
             StreamPhases(net, regions, args.platform, Permutations(args.keyword, mutationsWordlist)))
    ensures report.Finished? ==>
      (report.writtenTo.Some? <==> report.results != [] && Truthy(args.outputFile))
    ensures report.Finished? && report.writtenTo.Some? ==> report.writtenTo == args.outputFile
  {
    var validated := ValidateArgs(args);
    if validated.None? {
      return Exited;
    }
    var bucketsPermutations := GenerateBucketPermutationStream(args.keyword, mutationsWordlist);
    if args.threads <= 0 {
      return Crashed;
    }
    var finalScanResults := ScanPlatformsOverStream(net, regions, args.platform, bucketsPermutations);
    if finalScanResults != [] && Truthy(args.outputFile) {
      report := Finished(finalScanResults, args.outputFile);
    } else {
      report := Finished(finalScanResults, None);
    }
  }

  /** The network of the counterexample: no S3 bucket exists, only
      "demo.awsapps.com" resolves, and no web host answers. */
  function DemoNetwork(): Network
  {
    Network(
      host => if host == "demo.awsapps.com" then Resolved else NxDomain,
      url => Unreachable,
      request => ClientError)
  }

  lemma DemoScans()
    ensures AwsScanner.ScanBucketPermissions(DemoNetwork(), "demo") == Returned(None)
    ensures AwsScanner.ScanAwsApps(DemoNetwork().dns, "demo")
         == Returned(Some(ServiceFound("AWS", "AWS apps", "demo.awsapps.com")))
  {
    assert AwsScanner.AwsAppsUrl("demo") == "demo.awsapps.com";
  }

  lemma DemoStreamPhasesEmpty()
    ensures Flatten(StreamPhases(DemoNetwork(), [], "all", ["demo"])) == []
  {
    var net := DemoNetwork();
    DemoScans();
    var s3 := Probed(["demo"], AwsScanner.S3Probe(net));
    assert s3[0] == AwsScanner.S3Probe(net)("demo");
    assert Hits(s3) == [] by {
      assert s3 == [Returned(None)];
      assert s3[..0] == [];
    }
    FlattenEmpty(StreamPhases(net, [], "all", ["demo"]));
  }

  lemma DemoPlatformPhasesFindApps()
    ensures ServiceFound("AWS", "AWS apps", "demo.awsapps.com") in Flatten(PlatformPhases(DemoNetwork(), [], "all", ["demo"]))
  {
    var net := DemoNetwork();
    DemoScans();
    var apps := Probed(["demo"], AwsScanner.AppsProbe(net.dns));
    assert apps[0] == AwsScanner.AppsProbe(net.dns)("demo");
    HitIsReported(apps, 0);
    var phases := PlatformPhases(net, [], "all", ["demo"]);
    assert phases[1] == Hits(apps);
    FlattenMember(phases, 1, ServiceFound("AWS", "AWS apps", "demo.awsapps.com"));
  }

  /** For the keyword "demo" with an empty wordlist and "all" platforms, the
      code as written reports nothing, because only the S3 phase sees the
      candidate; with the list reused by every phase the AWS-apps phase
      reports "demo.awsapps.com". */
  lemma StreamStarvesLaterPhases(asWritten: seq<Finding>, corrected: seq<Finding>)
    requires Phased(asWritten, StreamPhases(DemoNetwork(), [], "all", Permutations("demo", [])))
    requires Phased(corrected, PlatformPhases(DemoNetwork(), [], "all", Permutations("demo", [])))
    ensures asWritten == []
    ensures ServiceFound("AWS", "AWS apps", "demo.awsapps.com") in corrected
  {
    assert Permutations("demo", []) == ["demo"];
    DemoStreamPhasesEmpty();
    DemoPlatformPhasesFindApps();
    PhasedIsPermutation(asWritten, StreamPhases(DemoNetwork(), [], "all", ["demo"]));
    PhasedIsPermutation(corrected, PlatformPhases(DemoNetwork(), [], "all", ["demo"]));
    assert ServiceFound("AWS", "AWS apps", "demo.awsapps.com") in multiset(corrected);
  }

  lemma {:induction false} FlattenEmpty<T>(phases: seq<seq<T>>)
    requires forall k :: 0 < k < |phases| ==> phases[k] == []
    requires phases != [] ==> phases[0] == []
    ensures Flatten(phases) == []
  {
    if phases != [] {
      FlattenEmpty(phases[1..]);
    }
  }

  lemma {:induction false} FlattenMember<T>(phases: seq<seq<T>>, k: nat, x: T)
    requires k < |phases| && x in phases[k]
    ensures x in Flatten(phases)
  {
    if k > 0 {
      FlattenMember(phases[1..], k - 1, x);
    }
  }
}
