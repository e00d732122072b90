/**
 * Shared vocabulary of the scanners: what the network answers (DNS, HTTP,
 * the anonymous S3 client), how a Python call that may raise is represented,
 * and the shape of the result records the scanners report.
 *
 * Every network call is an oracle: a total function from the request to the
 * answer the remote side gives. A call made twice with the same request is
 * assumed to get the same answer.
 */
module Probing {

  datatype Option<+T> = None | Some(value: T)

  /** The result of a Python call: it returns a value or raises. `:-` on an
      Outcome propagates the exception, as an uncaught Python exception does. */
  datatype Outcome<+T> = Returned(value: T) | Raised {
    predicate IsFailure() { Raised? }

    function PropagateFailure<U>(): Outcome<U>
      requires Raised?
    {
      Raised
    }

    function Extract(): T
      requires Returned?
    {
      value
    }
  }

  /** What a resolver says about one host name. */
  datatype DnsAnswer =
    | Resolved          // resolve() returns
    | NxDomain          // dns.resolver.NXDOMAIN
    | Timeout           // dns.resolver.Timeout
    | ResolverFailure   // any other exception of the resolver

  /** The part of the body of a response that the scanners interpret as JSON. */
  datatype JsonBody =
    | NotJsonObject                               // .json() or .get() raises
    | JsonObject(permissions: Option<seq<string>>) // value of the "permissions" key, if any

  /** An answer to `requests.get(url)`. `keys` are the `<Key>`/`<Name>` values
      that KEY_REGEX extracts from the response text, in match order. */
  datatype HttpReply =
    | Unreachable   // requests raises
    | Response(status: int, keys: seq<string>, json: JsonBody)

  /** A request that the anonymous boto3 S3 client can send. */
  datatype S3Request =
    | HeadBucket(bucket: string)
    | ListObjects(bucket: string)     // list_objects_v2 with MaxKeys=0
    | PutObject(bucket: string)       // the timestamped marker object
    | DeleteObject(bucket: string)    // the same marker object
    | GetBucketAcl(bucket: string)
    | PutBucketAcl(bucket: string)    // ACL="public-read"

  /** What the S3 client does with one request. */
  datatype ClientReply =
    | Succeeded
    | ClientError        // botocore ClientError: caught by every check
    | ConnectionFailure  // any other exception: never caught by the scanner

  /** The remote world one scan talks to. */
  datatype Network = Network(
    dns: string -> DnsAnswer,
    http: string -> HttpReply,
    s3: S3Request -> ClientReply)

  /** Permission flags: S3 and GCS each have their own vocabulary. */
  datatype Permissions =
    | S3Permissions(readable: bool, writeable: bool, acpReadable: bool, acpWriteable: bool)
    | GcsPermissions(readable: bool, writeable: bool, listable: bool, privesc: bool)

  /** One record of the result list of the current scanners (a JSON object). */
  datatype Finding =
    | BucketFound(platform: string, service: string, bucket: string,
                  permissions: Permissions, files: seq<string>)
    | ServiceFound(platform: string, service: string, bucket: string)
    | VmGroupFound(platform: string, service: string, vms: seq<string>)

  /** `DNSUtils.dns_lookup`: NXDOMAIN and timeouts are "absent", a resolved name
      is "present", and any other resolver error propagates to the caller. */
  function DnsLookup(answer: DnsAnswer): (r: Outcome<bool>)
    ensures r == Returned(true) <==> answer == Resolved
    ensures r == Returned(false) <==> answer == NxDomain || answer == Timeout
    ensures r.Raised? <==> answer == ResolverFailure
  {
    match answer
    case Resolved => Returned(true)
    case NxDomain => Returned(false)
    case Timeout => Returned(false)
    case ResolverFailure => Raised
  }

  /** `try: call() except ClientError: return False; return True`. */
  function Attempt(reply: ClientReply): (r: Outcome<bool>)
    ensures r == Returned(true) <==> reply == Succeeded
    ensures r == Returned(false) <==> reply == ClientError
    ensures r.Raised? <==> reply == ConnectionFailure
  {
    match reply
    case Succeeded => Returned(true)
    case ClientError => Returned(false)
    case ConnectionFailure => Raised
  }

  /** Python's `str.endswith`. */
  predicate EndsWith(s: string, suffix: string)
  {
    |suffix| <= |s| && s[|s| - |suffix|..] == suffix
  }
}
