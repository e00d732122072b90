/**
 * The current GCS bucket scanner (buckets_hunter/modules/gcp/gcp_scanner.py):
 * existence from the status of the bucket metadata request, four permission
 * flags from the `testIamPermissions` answer, and the fan-out over candidates.
 */
module GcpScanner {
  import opened Probing
  import opened HunterUtils
  import opened TaskPool

  const PLATFORM := "Gcp"

  /** The permissions the scanner asks `testIamPermissions` about. */
  const RequestedPermissions: seq<string> := [
    "storage.buckets.delete", "storage.buckets.get", "storage.buckets.getIamPolicy",
    "storage.buckets.setIamPolicy", "storage.buckets.update", "storage.objects.create",
    "storage.objects.delete", "storage.objects.get", "storage.objects.list",
    "storage.objects.update"]

  /** The three object-write permissions, any of which sets the write flag. */
  const WritePermissions: set<string> :=
    {"storage.objects.create", "storage.objects.delete", "storage.objects.update"}

  function BucketUrl(bucketName: string): string
  {
    "https://www.googleapis.com/storage/v1/b/" + bucketName
  }

  function TestPermissionsUrl(bucketName: string): string
  {
    BucketUrl(bucketName)
      + "/iam/testPermissions?permissions=storage.buckets.delete&permissions=storage.buckets.get"
      + "&permissions=storage.buckets.getIamPolicy&permissions=storage.buckets.setIamPolicy"
      + "&permissions=storage.buckets.update&permissions=storage.objects.create"
      + "&permissions=storage.objects.delete&permissions=storage.objects.get"
      + "&permissions=storage.objects.list&permissions=storage.objects.update"
  }

  /** `_bucket_exists`: every status except 400, 404 and 500 means the bucket
      exists; in particular 403 (exists but private) does. */
  function BucketExists(http: string -> HttpReply, bucketUrl: string): (r: Outcome<bool>)
    ensures r.Raised? <==> http(bucketUrl).Unreachable?
    ensures r == Returned(false) <==> http(bucketUrl).Response? && http(bucketUrl).status in {400, 404, 500}
  {
    match http(bucketUrl)
    case Unreachable => Raised
    case Response(status, _, _) => Returned(status != 400 && status != 404 && status != 500)
  }

  /** `_check_read`: some entry of the granted list is "storage.objects.get". */
  predicate CheckReadPermission(granted: seq<string>)
    ensures CheckReadPermission(granted)
        <==> exists i :: 0 <= i < |granted| && granted[i] == "storage.objects.get"
  {
    "storage.objects.get" in granted
  }

  /** `_check_write`: some entry of the granted list is an object-write permission. */
  predicate CheckWritePermission(granted: seq<string>)
    ensures CheckWritePermission(granted)
        <==> exists i :: 0 <= i < |granted| && granted[i] in WritePermissions
  {
    "storage.objects.create" in granted
      || "storage.objects.delete" in granted
      || "storage.objects.update" in granted
  }

  /** `_check_list`: some entry of the granted list is "storage.objects.list". */
  predicate CheckListPermission(granted: seq<string>)
    ensures CheckListPermission(granted)
        <==> exists i :: 0 <= i < |granted| && granted[i] == "storage.objects.list"
  {
    "storage.objects.list" in granted
  }

  /** `_check_privesc`: some entry of the granted list is "storage.buckets.setIamPolicy". */
  predicate CheckPrivescPermission(granted: seq<string>)
    ensures CheckPrivescPermission(granted)
        <==> exists i :: 0 <= i < |granted| && granted[i] == "storage.buckets.setIamPolicy"
  {
    "storage.buckets.setIamPolicy" in granted
  }

  /** The permission record of a granted list. */
  function GcsFlags(granted: seq<string>): (p: Permissions)
    ensures p.GcsPermissions?
    ensures p.readable <==> "storage.objects.get" in granted
    ensures p.writeable <==> exists w :: w in WritePermissions && w in granted
    ensures p.listable <==> "storage.objects.list" in granted
    ensures p.privesc <==> "storage.buckets.setIamPolicy" in granted
  {
    GcsPermissions(
      CheckReadPermission(granted), CheckWritePermission(granted),
      CheckListPermission(granted), CheckPrivescPermission(granted))
  }

  /** Granting more permissions never clears a flag. */
  lemma GcsFlagsMonotone(granted: seq<string>, more: seq<string>)
    requires forall p :: p in granted ==> p in more
    ensures GcsFlags(granted).readable ==> GcsFlags(more).readable
    ensures GcsFlags(granted).writeable ==> GcsFlags(more).writeable
    ensures GcsFlags(granted).listable ==> GcsFlags(more).listable
    ensures GcsFlags(granted).privesc ==> GcsFlags(more).privesc
  {
  }

  /** The flags depend on the granted permissions as a set: order and
      repetitions in the answer do not matter. */
  lemma GcsFlagsIgnoreOrder(granted: seq<string>, other: seq<string>)
    requires (set p | p in granted) == (set p | p in other)
    ensures GcsFlags(granted) == GcsFlags(other)
  {
    var a, b := set q | q in granted, set q | q in other;
    forall p ensures p in granted <==> p in other {
      assert p in granted <==> p in a;
      assert p in other <==> p in b;
    }
  }

  /** Every permission a flag reads is one the scanner asks about, so anything
      else in the answer has no effect on the record. */
  lemma GcsFlagsOnlyReadRequested(granted: seq<string>)
    ensures GcsFlags(granted) == GcsFlags(seq(|granted|, i requires 0 <= i < |granted| =>
      if granted[i] in RequestedPermissions then granted[i] else "storage.buckets.get"))
  {
    var filtered := seq(|granted|, i requires 0 <= i < |granted| =>
      if granted[i] in RequestedPermissions then granted[i] else "storage.buckets.get");
    forall p | p in RequestedPermissions && p != "storage.buckets.get"
      ensures p in granted <==> p in filtered
    {
      if p in granted {
        var i :| 0 <= i < |granted| && granted[i] == p;
        assert filtered[i] == p;
      }
      if p in filtered {
        var i :| 0 <= i < |filtered| && filtered[i] == p;
        assert granted[i] == p;
      }
    }
  }

  /** An empty but present permission list gives a record with every flag false. */
  lemma EmptyGrantAllFalse()
    ensures GcsFlags([]) == GcsPermissions(false, false, false, false)
  {
  }

  /** The result of `scan_bucket_permissions` for one name: None when the
      bucket does not exist or the answer carries no "permissions" field,
      otherwise a record. An unreachable host, a non-JSON answer or a failing
      file listing raise. */
  function ScanBucketPermissions(http: string -> HttpReply, bucketName: string): (r: Outcome<Option<Finding>>)
    ensures BucketExists(http, BucketUrl(bucketName)) == Returned(false) ==> r == Returned(None)
  {
    var bucketUrl := BucketUrl(bucketName);
    var found :- BucketExists(http, bucketUrl);
    if !found then Returned(None)
    else
      var answer := http(TestPermissionsUrl(bucketName));
      if answer.Unreachable? || answer.json.NotJsonObject? then Raised
      else
        match answer.json.permissions
        case None => Returned(None)
        case Some(granted) =>
          match GetBucketFiles(http, bucketUrl)
          case Raised => Raised
          case Returned(files) =>
            Returned(Some(BucketFound(PLATFORM, "GCP", bucketUrl, GcsFlags(granted), files)))
  }

  /** The three outcomes of one scan, each stated from the answers it depends on. */
  lemma ScanBucketPermissionsCases(http: string -> HttpReply, bucketName: string)
    ensures var meta := http(BucketUrl(bucketName));
      var answer := http(TestPermissionsUrl(bucketName));
      var r := ScanBucketPermissions(http, bucketName);
      && (meta.Response? && meta.status in {400, 404, 500} ==> r == Returned(None))
      && (meta.Response? && meta.status !in {400, 404, 500} ==>
            (r == Returned(None) <==> answer.Response? && answer.json == JsonObject(None)))
      && (r.Raised? <==>
            meta.Unreachable?
            || (meta.status !in {400, 404, 500}
                && (answer.Unreachable? || answer.json.NotJsonObject?)))
      && (r.Returned? && r.value.Some? ==>
            && answer.Response? && answer.json.JsonObject? && answer.json.permissions.Some?
            && r.value.value == BucketFound("Gcp", "GCP", BucketUrl(bucketName),
                                  GcsFlags(answer.json.permissions.value), FileUrls(BucketUrl(bucketName), meta.keys)))
  {
  }

  /** A bucket that does not exist yields None whatever the permissions
      endpoint would answer: the second request is never made. */
  lemma AbsentBucketMakesNoPermissionRequest(h1: string -> HttpReply, h2: string -> HttpReply, bucketName: string)
    requires h1(BucketUrl(bucketName)) == h2(BucketUrl(bucketName))
    requires h1(BucketUrl(bucketName)).Response? && h1(BucketUrl(bucketName)).status in {400, 404, 500}
    ensures ScanBucketPermissions(h1, bucketName) == ScanBucketPermissions(h2, bucketName) == Returned(None)
  {
  }

  /** A private bucket (403) still counts as existing, and a present empty
      permission list still gives a record, with every flag false. */
  lemma ForbiddenBucketWithEmptyGrantIsReported(http: string -> HttpReply, bucketName: string)
    requires http(BucketUrl(bucketName)) == Response(403, [], NotJsonObject)
    requires http(TestPermissionsUrl(bucketName)) == Response(200, [], JsonObject(Some([])))
    ensures ScanBucketPermissions(http, bucketName)
         == Returned(Some(BucketFound("Gcp", "GCP", BucketUrl(bucketName),
                                      GcsPermissions(false, false, false, false), [])))
  {
  }

  function Probe(http: string -> HttpReply): string -> Outcome<Option<Finding>>
  {
    bucketName => ScanBucketPermissions(http, bucketName)
  }

  /** `run`: one task per candidate, results collected in completion order;
      None results and raised tasks are dropped. */
  method Run(http: string -> HttpReply, bucketsPermutations: seq<string>)
    returns (gcpScanResults: seq<Finding>)
    ensures multiset(gcpScanResults) == multiset(Hits(Probed(bucketsPermutations, Probe(http))))
    ensures |gcpScanResults| <= |bucketsPermutations|
  {
    gcpScanResults := CollectAsCompleted(bucketsPermutations, Probe(http));
  }

  /** Every record `run` returns is a GCS bucket record for one of the
      candidates, with the flags of that bucket's permissions answer. */
  lemma RunReportsOnlyCandidates(http: string -> HttpReply, bucketsPermutations: seq<string>, f: Finding)
    requires f in Hits(Probed(bucketsPermutations, Probe(http)))
    ensures exists i :: (0 <= i < |bucketsPermutations|
      && ScanBucketPermissions(http, bucketsPermutations[i]) == Returned(Some(f))
      && f.BucketFound? && f.platform == "Gcp" && f.bucket == BucketUrl(bucketsPermutations[i])
      && f.permissions.GcsPermissions?)
  {
    var os := Probed(bucketsPermutations, Probe(http));
    ReportedHitHasTask(os, f);
    var i :| 0 <= i < |os| && os[i] == Returned(Some(f));
    var name := bucketsPermutations[i];
    assert ScanBucketPermissions(http, name) == Returned(Some(f)) by {
      assert os[i] == Probe(http)(name);
    }
    ScanHitIsGcsRecord(http, name);
  }

  /** A record the scan returns is the GCS record of the scanned bucket. */
  lemma ScanHitIsGcsRecord(http: string -> HttpReply, bucketName: string)
    requires ScanBucketPermissions(http, bucketName).Returned?
    requires ScanBucketPermissions(http, bucketName).value.Some?
    ensures var f := ScanBucketPermissions(http, bucketName).value.value;
      f.BucketFound? && f.platform == "Gcp" && f.service == "GCP"
      && f.bucket == BucketUrl(bucketName) && f.permissions.GcsPermissions?
  {
    var answer := http(TestPermissionsUrl(bucketName));
    assert answer.Response? && answer.json.JsonObject? && answer.json.permissions.Some?;
    var files := FileUrls(BucketUrl(bucketName), http(BucketUrl(bucketName)).keys);
    assert ScanBucketPermissions(http, bucketName).value.value
        == BucketFound(PLATFORM, "GCP", BucketUrl(bucketName), GcsFlags(answer.json.permissions.value), files);
  }
}
