/**
 * The older GCS bucket scanner (BucketsHunter/modules/gcp/gcp_scanner.py):
 * the same existence test and permission flags as the current one, a
 * different bucket URL, a flat record without files, and a `run` that prints
 * instead of collecting and does not catch a failing task.
 */
module LegacyGcpScanner {
  import opened Probing
  import opened TaskPool
  import GcpScanner

  /** The flat dictionary of the older scanner. */
  datatype GcsBucketRecord = GcsBucketRecord(
    bucketUrl: string,
    bucketReadable: bool,
    bucketWriteable: bool,
    bucketListable: bool,
    bucketPrivesc: bool)

  function BucketUrl(bucketName: string): string
  {
    "https://storage.googleapis.com/" + bucketName
  }

  /** `scan_bucket_permissions` of the older scanner. The permissions request
      goes to the JSON API, as in the current scanner. */
  function ScanBucketPermissions(http: string -> HttpReply, bucketName: string): (r: Outcome<Option<GcsBucketRecord>>)
    ensures GcpScanner.BucketExists(http, BucketUrl(bucketName)) == Returned(false) ==> r == Returned(None)
  {
    var bucketUrl := BucketUrl(bucketName);
    var found :- GcpScanner.BucketExists(http, bucketUrl);
    if !found then Returned(None)
    else
      var answer := http(GcpScanner.TestPermissionsUrl(bucketName));
      if answer.Unreachable? || answer.json.NotJsonObject? then Raised
      else
        match answer.json.permissions
        case None => Returned(None)
        case Some(granted) =>
          Returned(Some(GcsBucketRecord(bucketUrl,
            GcpScanner.CheckReadPermission(granted), GcpScanner.CheckWritePermission(granted),
            GcpScanner.CheckListPermission(granted), GcpScanner.CheckPrivescPermission(granted))))
  }

  /** The outcomes of one scan of the older scanner: None for an absent bucket
      or a missing "permissions" field; otherwise a record whose four flags are
      exactly the current scanner's flags for the same granted list. */
  lemma ScanBucketPermissionsCases(http: string -> HttpReply, bucketName: string)
    ensures var meta := http(BucketUrl(bucketName));
      var answer := http(GcpScanner.TestPermissionsUrl(bucketName));
      var r := ScanBucketPermissions(http, bucketName);
      && (meta.Response? && meta.status in {400, 404, 500} ==> r == Returned(None))
      && (r.Raised? <==>
            meta.Unreachable?
            || (meta.status !in {400, 404, 500} && (answer.Unreachable? || answer.json.NotJsonObject?)))
      && (meta.Response? && meta.status !in {400, 404, 500} && answer.Response? ==>
            (r == Returned(None) <==> answer.json == JsonObject(None)))
      && (r.Returned? && r.value.Some? ==>
            && answer.Response? && answer.json.JsonObject? && answer.json.permissions.Some?
            && var flags := GcpScanner.GcsFlags(answer.json.permissions.value);
               r.value.value == GcsBucketRecord(BucketUrl(bucketName),
                 flags.readable, flags.writeable, flags.listable, flags.privesc))
  {
  }

  function Probe(http: string -> HttpReply): string -> Outcome<Option<GcsBucketRecord>>
  {
    bucketName => ScanBucketPermissions(http, bucketName)
  }

  /** `run` of the older scanner: prints every truthy result in completion
      order; the first failing task it reaches raises out of `run`. */
  method Run(http: string -> HttpReply, bucketsPermutations: seq<string>)
    returns (printed: seq<GcsBucketRecord>, raised: bool)
    ensures raised <==> exists i :: 0 <= i < |bucketsPermutations| && ScanBucketPermissions(http, bucketsPermutations[i]).Raised?
    ensures !raised ==> multiset(printed) == multiset(Hits(Probed(bucketsPermutations, Probe(http))))
    ensures raised ==> multiset(printed) <= multiset(Hits(Probed(bucketsPermutations, Probe(http))))
  {
    printed, raised := PrintAsCompleted(bucketsPermutations, Probe(http));
    assert forall i :: 0 <= i < |bucketsPermutations| ==>
      Probe(http)(bucketsPermutations[i]) == ScanBucketPermissions(http, bucketsPermutations[i]);
  }
}
