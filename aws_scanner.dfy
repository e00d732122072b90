/**
 * The current S3 scanner (buckets_hunter/modules/aws/aws_scanner.py): an
 * existence probe with `head_bucket`, four permission checks that each turn a
 * ClientError into "no", the AWS-apps DNS probe, and `run`, which scans all
 * candidates for buckets first and for AWS apps second.
 */
module AwsScanner {
  import opened Probing
  import opened HunterUtils
  import opened TaskPool

  const PLATFORM := "AWS"

  function S3BucketUrl(bucketName: string): string
  {
    bucketName + ".s3.amazonaws.com"
  }

  function AwsAppsUrl(bucketName: string): string
  {
    bucketName + ".awsapps.com"
  }

  /** `scan_aws_apps`: a record exactly when "{name}.awsapps.com" resolves. */
  function ScanAwsApps(dns: string -> DnsAnswer, bucketName: string): (r: Outcome<Option<Finding>>)
    ensures r == Returned(Some(ServiceFound("AWS", "AWS apps", AwsAppsUrl(bucketName))))
        <==> dns(AwsAppsUrl(bucketName)) == Resolved
    ensures r == Returned(None) <==> dns(AwsAppsUrl(bucketName)) in {NxDomain, Timeout}
    ensures r.Raised? <==> dns(AwsAppsUrl(bucketName)) == ResolverFailure
  {
    var awsAppUrl := AwsAppsUrl(bucketName);
    var resolved :- DnsLookup(dns(awsAppUrl));
    if resolved then Returned(Some(ServiceFound(PLATFORM, "AWS apps", awsAppUrl))) else Returned(None)
  }

  /** `_bucket_exists`: a bucket exists unless `head_bucket` raises ClientError. */
  function BucketExists(s3: S3Request -> ClientReply, bucketName: string): (r: Outcome<bool>)
    ensures r == Returned(true) <==> s3(HeadBucket(bucketName)) == Succeeded
    ensures r == Returned(false) <==> s3(HeadBucket(bucketName)) == ClientError
  {
    Attempt(s3(HeadBucket(bucketName)))
  }

  /** `_check_read_permission`: readable when listing the bucket succeeds. */
  function CheckReadPermission(s3: S3Request -> ClientReply, bucketName: string): (r: Outcome<bool>)
    ensures r == Returned(true) <==> s3(ListObjects(bucketName)) == Succeeded
    ensures r == Returned(false) <==> s3(ListObjects(bucketName)) == ClientError
  {
    Attempt(s3(ListObjects(bucketName)))
  }

  /** `_check_write_permission`: upload a marker object; only after a
      successful upload, delete it. A ClientError of the upload means "not
      writeable"; the deletion sits outside the `try`, so any failure of it
      propagates. */
  function CheckWritePermission(s3: S3Request -> ClientReply, bucketName: string): (r: Outcome<bool>)
    ensures r == Returned(true)
        <==> s3(PutObject(bucketName)) == Succeeded && s3(DeleteObject(bucketName)) == Succeeded
    ensures r == Returned(false) <==> s3(PutObject(bucketName)) == ClientError
  {
    match s3(PutObject(bucketName))
    case ClientError => Returned(false)
    case ConnectionFailure => Raised
    case Succeeded =>
      match s3(DeleteObject(bucketName))
      case Succeeded => Returned(true)
      case _ => Raised
  }

  /** The deletion is attempted only after a successful upload: when the
      upload did not succeed, whatever `delete_object` would answer does not
      matter. */
  lemma DeleteOnlyAfterUpload(s1: S3Request -> ClientReply, s2: S3Request -> ClientReply, bucketName: string)
    requires forall q :: q != DeleteObject(bucketName) ==> s1(q) == s2(q)
    requires s1(PutObject(bucketName)) != Succeeded
    ensures CheckWritePermission(s1, bucketName) == CheckWritePermission(s2, bucketName)
  {
    assert s1(PutObject(bucketName)) == s2(PutObject(bucketName));
  }

  /** `_check_read_acl_permission`: the ACL is readable when `get_bucket_acl` succeeds. */
  function CheckReadAclPermission(s3: S3Request -> ClientReply, bucketName: string): (r: Outcome<bool>)
    ensures r == Returned(true) <==> s3(GetBucketAcl(bucketName)) == Succeeded
    ensures r == Returned(false) <==> s3(GetBucketAcl(bucketName)) == ClientError
  {
    Attempt(s3(GetBucketAcl(bucketName)))
  }

  /** `_check_write_acl_permission`: the ACL is writeable when setting it
      to "public-read" succeeds. */
  function CheckWriteAclPermission(s3: S3Request -> ClientReply, bucketName: string): (r: Outcome<bool>)
    ensures r == Returned(true) <==> s3(PutBucketAcl(bucketName)) == Succeeded
    ensures r == Returned(false) <==> s3(PutBucketAcl(bucketName)) == ClientError
  {
    Attempt(s3(PutBucketAcl(bucketName)))
  }

  /** `scan_bucket_permissions`: None for a bucket `head_bucket` rejects;
      otherwise all four checks and the file listing run, and the first
      exception among them escapes. */
  function ScanBucketPermissions(net: Network, bucketName: string): (r: Outcome<Option<Finding>>)
    ensures net.s3(HeadBucket(bucketName)) == ClientError ==> r == Returned(None)
    ensures r.Returned? && r.value.Some? ==> net.s3(HeadBucket(bucketName)) == Succeeded
  {
    var found :- BucketExists(net.s3, bucketName);
    if !found then Returned(None)
    else
      var bucketUrl := S3BucketUrl(bucketName);
      var readable :- CheckReadPermission(net.s3, bucketName);
      var writeable :- CheckWritePermission(net.s3, bucketName);
      var acpReadable :- CheckReadAclPermission(net.s3, bucketName);
      var acpWriteable :- CheckWriteAclPermission(net.s3, bucketName);
      var files :- GetBucketFiles(net.http, "https://" + bucketUrl);
      Returned(Some(BucketFound(PLATFORM, "S3", bucketUrl,
        S3Permissions(readable, writeable, acpReadable, acpWriteable), files)))
  }

  /** Whether one of the calls made for an existing bucket raises something
      other than a caught ClientError. */
  predicate PermissionCallsFail(net: Network, bucketName: string)
  {
    || net.s3(ListObjects(bucketName)) == ConnectionFailure
    || net.s3(PutObject(bucketName)) == ConnectionFailure
    || (net.s3(PutObject(bucketName)) == Succeeded && net.s3(DeleteObject(bucketName)) != Succeeded)
    || net.s3(GetBucketAcl(bucketName)) == ConnectionFailure
    || net.s3(PutBucketAcl(bucketName)) == ConnectionFailure
    || net.http("https://" + S3BucketUrl(bucketName)).Unreachable?
  }

  /** The outcomes of one bucket scan, stated from the client's answers: each
      flag is true exactly when its call raised no ClientError, writeable also
      needs the clean-up to succeed, and the files come from the bucket's
      HTTPS listing. */
  lemma ScanBucketPermissionsCases(net: Network, bucketName: string)
    ensures var r := ScanBucketPermissions(net, bucketName);
      && (r == Returned(None) <==> net.s3(HeadBucket(bucketName)) == ClientError)
      && (r.Raised? <==>
            net.s3(HeadBucket(bucketName)) == ConnectionFailure
            || (net.s3(HeadBucket(bucketName)) == Succeeded && PermissionCallsFail(net, bucketName)))
      && (r.Returned? && r.value.Some? ==>
            r.value.value == BucketFound("AWS", "S3", S3BucketUrl(bucketName),
              S3Permissions(
                net.s3(ListObjects(bucketName)) == Succeeded,
                net.s3(PutObject(bucketName)) == Succeeded,
                net.s3(GetBucketAcl(bucketName)) == Succeeded,
                net.s3(PutBucketAcl(bucketName)) == Succeeded),
              FileUrls("https://" + S3BucketUrl(bucketName), net.http("https://" + S3BucketUrl(bucketName)).keys)))
  {
  }

  /** A bucket that `head_bucket` rejects gets no permission call and no
      listing: the answers to those do not affect the result. */
  lemma AbsentBucketMakesNoPermissionCalls(n1: Network, n2: Network, bucketName: string)
    requires n1.s3(HeadBucket(bucketName)) == ClientError
    requires n2.s3(HeadBucket(bucketName)) == ClientError
    ensures ScanBucketPermissions(n1, bucketName) == ScanBucketPermissions(n2, bucketName) == Returned(None)
  {
  }

  function S3Probe(net: Network): string -> Outcome<Option<Finding>>
  {
    bucketName => ScanBucketPermissions(net, bucketName)
  }

  function AppsProbe(dns: string -> DnsAnswer): string -> Outcome<Option<Finding>>
  {
    bucketName => ScanAwsApps(dns, bucketName)
  }

  /** The two phases of `run`: the bucket scans, then the AWS-apps scans. */
  function Phases(net: Network, bucketsPermutations: seq<string>): (p: seq<seq<Finding>>)
    ensures |p| == 2
  {
    [ Hits(Probed(bucketsPermutations, S3Probe(net))),
      Hits(Probed(bucketsPermutations, AppsProbe(net.dns))) ]
  }

  /** `run`: every S3 result precedes every AWS-apps result; within a phase
      the order is the completion order. None results and raised tasks are
      dropped. */
  method Run(net: Network, bucketsPermutations: seq<string>) returns (awsScanResults: seq<Finding>)
    ensures Phased(awsScanResults, Phases(net, bucketsPermutations))
    ensures |awsScanResults| <= 2 * |bucketsPermutations|
  {
    var s3Results := CollectAsCompleted(bucketsPermutations, S3Probe(net));
    var appResults := CollectAsCompleted(bucketsPermutations, AppsProbe(net.dns));
    awsScanResults := s3Results + appResults;
    PhasedTwo(s3Results, appResults,
              Hits(Probed(bucketsPermutations, S3Probe(net))),
              Hits(Probed(bucketsPermutations, AppsProbe(net.dns))));
  }

  /** A bucket whose marker upload succeeds but whose clean-up fails is lost:
      its scan raises, and no record for it reaches the result list. */
  lemma FailedCleanupDropsBucket(net: Network, bucketsPermutations: seq<string>, bucketName: string)
    requires net.s3(HeadBucket(bucketName)) == Succeeded
    requires net.s3(PutObject(bucketName)) == Succeeded
    requires net.s3(DeleteObject(bucketName)) != Succeeded
    ensures ScanBucketPermissions(net, bucketName).Raised?
    ensures forall f: Finding :: f in Hits(Probed(bucketsPermutations, S3Probe(net))) ==>
      !(f.BucketFound? && f.bucket == S3BucketUrl(bucketName))
  {
    ScanBucketPermissionsCases(net, bucketName);
    var os := Probed(bucketsPermutations, S3Probe(net));
    forall f: Finding | f in Hits(os)
      ensures !(f.BucketFound? && f.bucket == S3BucketUrl(bucketName))
    {
      ReportedHitHasTask(os, f);
      var j :| 0 <= j < |os| && os[j] == Returned(Some(f));
      var name := bucketsPermutations[j];
      assert ScanBucketPermissions(net, name) == Returned(Some(f)) by {
        assert os[j] == S3Probe(net)(name);
      }
      ScanHitNamesItsBucket(net, name);
      if f.bucket == S3BucketUrl(bucketName) {
        S3BucketUrlInjective(name, bucketName);
      }
    }
  }

  /** Different names give different bucket hosts. */
  lemma S3BucketUrlInjective(a: string, b: string)
    requires S3BucketUrl(a) == S3BucketUrl(b)
    ensures a == b
  {
    assert |a| == |b|;
    assert a == S3BucketUrl(a)[..|a|];
    assert b == S3BucketUrl(b)[..|b|];
  }

  /** A record the bucket scan returns names the scanned bucket. */
  lemma ScanHitNamesItsBucket(net: Network, bucketName: string)
    requires ScanBucketPermissions(net, bucketName).Returned?
    requires ScanBucketPermissions(net, bucketName).value.Some?
    ensures var f := ScanBucketPermissions(net, bucketName).value.value;
      f.BucketFound? && f.platform == "AWS" && f.service == "S3" && f.bucket == S3BucketUrl(bucketName)
  {
    ScanBucketPermissionsCases(net, bucketName);
  }

  /** A candidate list where no bucket exists and no apps domain resolves
      gives an empty result. */
  lemma NothingFoundGivesEmptyResult(net: Network, bucketsPermutations: seq<string>, awsScanResults: seq<Finding>)
    requires forall i :: 0 <= i < |bucketsPermutations| ==> net.s3(HeadBucket(bucketsPermutations[i])) == ClientError
    requires forall i :: 0 <= i < |bucketsPermutations| ==> net.dns(AwsAppsUrl(bucketsPermutations[i])) == NxDomain
    requires Phased(awsScanResults, Phases(net, bucketsPermutations))
    ensures awsScanResults == []
  {
    var s3os := Probed(bucketsPermutations, S3Probe(net));
    var appos := Probed(bucketsPermutations, AppsProbe(net.dns));
    forall j | 0 <= j < |s3os| ensures !(s3os[j].Returned? && s3os[j].value.Some?) {
      assert s3os[j] == S3Probe(net)(bucketsPermutations[j]);
      ScanBucketPermissionsCases(net, bucketsPermutations[j]);
    }
    forall j | 0 <= j < |appos| ensures !(appos[j].Returned? && appos[j].value.Some?) {
      assert appos[j] == AppsProbe(net.dns)(bucketsPermutations[j]);
    }
    AllAbsentReportsNothing(s3os);
    AllAbsentReportsNothing(appos);
    PhasedIsPermutation(awsScanResults, Phases(net, bucketsPermutations));
    var p := Phases(net, bucketsPermutations);
    assert p[1..][1..] == [];
    assert Flatten(p[1..]) == p[1] + Flatten(p[1..][1..]);
    assert Flatten(p) == p[0] + Flatten(p[1..]);
  }
}
