/**
 * The older S3 scanner (BucketsHunter/modules/aws/aws_scanner.py): the same
 * existence probe and permission checks as the current one, a flat record
 * without files, an AWS-apps stub, and a `run` that prints the results in
 * submission order and does not catch a failing task.
 */
module LegacyAwsScanner {
  import opened Probing
  import opened TaskPool
  import AwsScanner

  /** The flat dictionary of the older scanner. */
  datatype S3BucketRecord = S3BucketRecord(
    bucketUrl: string,
    bucketReadable: bool,
    bucketWriteable: bool,
    bucketReadAcp: bool,
    bucketWriteAcp: bool)

  /** `scan_bucket`: None for a bucket `head_bucket` rejects; otherwise the
      four checks, in order, and the first exception among them escapes. */
  function ScanBucket(s3: S3Request -> ClientReply, bucketName: string): (r: Outcome<Option<S3BucketRecord>>)
    ensures r == Returned(None) <==> s3(HeadBucket(bucketName)) == ClientError
    ensures r.Returned? && r.value.Some? ==>
      r.value.value == S3BucketRecord(AwsScanner.S3BucketUrl(bucketName),
        s3(ListObjects(bucketName)) == Succeeded,
        s3(PutObject(bucketName)) == Succeeded,
        s3(GetBucketAcl(bucketName)) == Succeeded,
        s3(PutBucketAcl(bucketName)) == Succeeded)
  {
    var found :- AwsScanner.BucketExists(s3, bucketName);
    if !found then Returned(None)
    else
      var bucketReadable :- AwsScanner.CheckReadPermission(s3, bucketName);
      var bucketWriteable :- AwsScanner.CheckWritePermission(s3, bucketName);
      var bucketReadAcp :- AwsScanner.CheckReadAclPermission(s3, bucketName);
      var bucketWriteAcp :- AwsScanner.CheckWriteAclPermission(s3, bucketName);
      Returned(Some(S3BucketRecord(AwsScanner.S3BucketUrl(bucketName),
        bucketReadable, bucketWriteable, bucketReadAcp, bucketWriteAcp)))
  }

  /** When the bucket's listing is reachable, the older and the current
      scanner agree: both report nothing, both raise, or both report the same
      bucket with the same four flags. */
  lemma AgreesWithCurrentScanner(net: Network, bucketName: string)
    requires net.http("https://" + AwsScanner.S3BucketUrl(bucketName)).Response?
    ensures var legacy := ScanBucket(net.s3, bucketName);
      var cur := AwsScanner.ScanBucketPermissions(net, bucketName);
      && (legacy == Returned(None) <==> cur == Returned(None))
      && (legacy.Raised? <==> cur.Raised?)
      && (legacy.Returned? && legacy.value.Some? ==>
            && cur.Returned? && cur.value.Some?
            && cur.value.value.bucket == legacy.value.value.bucketUrl
            && cur.value.value.permissions == S3Permissions(
                 legacy.value.value.bucketReadable, legacy.value.value.bucketWriteable,
                 legacy.value.value.bucketReadAcp, legacy.value.value.bucketWriteAcp))
  {
    AwsScanner.ScanBucketPermissionsCases(net, bucketName);
  }

  /** `scan_aws_apps` of the older scanner is an empty body: it returns None. */
  function ScanAwsApps(bucketName: string): (r: Outcome<Option<S3BucketRecord>>)
    ensures r.Returned? && r.value.None?
  {
    Returned(None)
  }

  function Probe(s3: S3Request -> ClientReply): string -> Outcome<Option<S3BucketRecord>>
  {
    bucketName => ScanBucket(s3, bucketName)
  }

  /** `run` of the older scanner: waits for the futures in submission order
      and prints each truthy result; the first failing task raises out of
      `run`, so only the records before it are printed. */
  method Run(s3: S3Request -> ClientReply, bucketsPermutations: seq<string>)
    returns (printed: seq<S3BucketRecord>, raised: bool)
    ensures raised <==> exists i :: 0 <= i < |bucketsPermutations| && ScanBucket(s3, bucketsPermutations[i]).Raised?
    ensures printed == Hits(Probed(bucketsPermutations, Probe(s3))[..FirstRaised(Probed(bucketsPermutations, Probe(s3)))])
  {
    printed, raised := PrintInSubmissionOrder(bucketsPermutations, Probe(s3));
    assert forall i :: 0 <= i < |bucketsPermutations| ==>
      Probe(s3)(bucketsPermutations[i]) == ScanBucket(s3, bucketsPermutations[i]);
  }

  /** Without a failing task, `run` prints every found bucket, in the order
      of the candidates. */
  lemma RunWithoutFailurePrintsAllInOrder(s3: S3Request -> ClientReply, bucketsPermutations: seq<string>)
    requires forall i :: 0 <= i < |bucketsPermutations| ==> !ScanBucket(s3, bucketsPermutations[i]).Raised?
    ensures var os := Probed(bucketsPermutations, Probe(s3));
      os[..FirstRaised(os)] == os
  {
  }
}
