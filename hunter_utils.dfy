/**
 * Candidate-name generation and the URL building of the bucket file listing
 * (buckets_hunter/utils/hunter_utils.py).
 */
module HunterUtils {
  import opened Probing

  /** The six names one mutation word gives, in the order they are appended. */
  function SixForms(keyword: string, mutation: string): (r: seq<string>)
    ensures |r| == 6
  {
    [ keyword + "-" + mutation, keyword + "_" + mutation, keyword + mutation,
      mutation + "-" + keyword, mutation + "_" + keyword, mutation + keyword ]
  }

  /** The candidate list: the bare keyword, then six forms per mutation in
      wordlist order. */
  function Permutations(keyword: string, mutations: seq<string>): seq<string>
  {
    if mutations == [] then [keyword]
    else Permutations(keyword, mutations[..|mutations| - 1]) + SixForms(keyword, mutations[|mutations| - 1])
  }

  lemma {:induction false} PermutationsLength(keyword: string, mutations: seq<string>)
    ensures |Permutations(keyword, mutations)| == 1 + 6 * |mutations|
  {
    if mutations != [] {
      PermutationsLength(keyword, mutations[..|mutations| - 1]);
    }
  }

  /** The first candidate is the bare keyword, whatever the wordlist. */
  lemma {:induction false} PermutationsStartWithKeyword(keyword: string, mutations: seq<string>)
    ensures |Permutations(keyword, mutations)| > 0
    ensures Permutations(keyword, mutations)[0] == keyword
  {
    if mutations != [] {
      PermutationsStartWithKeyword(keyword, mutations[..|mutations| - 1]);
    }
  }

  /** Position 1 + 6i + j holds the j-th form of the i-th mutation. */
  lemma {:induction false} PermutationsAt(keyword: string, mutations: seq<string>, i: nat, j: nat)
    requires i < |mutations| && j < 6
    ensures |Permutations(keyword, mutations)| == 1 + 6 * |mutations|
    ensures Permutations(keyword, mutations)[1 + 6 * i + j] == SixForms(keyword, mutations[i])[j]
  {
    var n := |mutations|;
    var front := mutations[..n - 1];
    PermutationsLength(keyword, mutations);
    PermutationsLength(keyword, front);
    if i < n - 1 {
      PermutationsAt(keyword, front, i, j);
    }
  }

  /** The loop of `generate_bucket_permutations`, which appends to
      `bucket_names`, returning the list itself so that every scan phase can
      traverse it again. The function as written wraps the list in an
      iterator; see `GenerateBucketPermutationStream`. */
  method GenerateBucketPermutations(keyword: string, mutations: seq<string>)
    returns (names: seq<string>)
    ensures names == Permutations(keyword, mutations)
  {
    names := [keyword];
    var i := 0;
    while i < |mutations|
      invariant i <= |mutations|
      invariant names == Permutations(keyword, mutations[..i])
      decreases |mutations| - i
    {
      var mutation := mutations[i];
      assert mutations[..i + 1][..i] == mutations[..i];
      names := names + [keyword + "-" + mutation];
      names := names + [keyword + "_" + mutation];
      names := names + [keyword + mutation];
      names := names + [mutation + "-" + keyword];
      names := names + [mutation + "_" + keyword];
      names := names + [mutation + keyword];
      i := i + 1;
    }
    assert mutations[..i] == mutations;
  }

  /** What `iter(bucket_names)` hands to the scanners: a single-pass iterator.
      Traversing it consumes it; a second traversal yields nothing. */
  class PermutationStream {
    var items: seq<string>
    var next: nat

    ghost predicate Valid()
      reads this
    {
      next <= |items|
    }

    function Remaining(): seq<string>
      reads this
      requires Valid()
    {
      items[next..]
    }

    constructor (names: seq<string>)
      ensures Valid() && Remaining() == names
    {
      items := names;
      next := 0;
    }

    /** One `for name in stream` loop: yields what is left and exhausts it. */
    method Drain() returns (rest: seq<string>)
      requires Valid()
      modifies this
      ensures Valid()
      ensures rest == old(Remaining())
      ensures Remaining() == []
    {
      rest := items[next..];
      next := |items|;
    }
  }

  /** `generate_bucket_permutations` as written: the same names, returned as
      `iter(bucket_names)`. */
  method GenerateBucketPermutationStream(keyword: string, mutations: seq<string>)
    returns (stream: PermutationStream)
    ensures fresh(stream) && stream.Valid()
    ensures stream.Remaining() == Permutations(keyword, mutations)
  {
    var bucketNames := GenerateBucketPermutations(keyword, mutations);
    stream := new PermutationStream(bucketNames);
  }

  /** Number of characters before the first newline (all of them if none). */
  function LineLength(s: string): (n: nat)
    ensures n <= |s|
    ensures forall k :: 0 <= k < n ==> s[k] != '\n'
    ensures n < |s| ==> s[n] == '\n'
  {
    if s == [] || s[0] == '\n' then 0 else 1 + LineLength(s[1..])
  }

  /** `re.compile(r"(\?.*)").sub("", url)`: every '?' is deleted together with
      the rest of its line (`.` does not match a newline). */
  function StripQuery(s: string): (r: string)
    ensures |r| <= |s|
    decreases |s|
  {
    if s == [] then []
    else if s[0] == '?' then StripQuery(s[1 + LineLength(s[1..])..])
    else [s[0]] + StripQuery(s[1..])
  }

  /** The part of `s` before the first occurrence of `c` (all of `s` if none). */
  function Before(s: string, c: char): (r: string)
    ensures |r| <= |s| && r == s[..|r|]
    ensures c !in r
    ensures |r| < |s| ==> s[|r|] == c
  {
    if s == [] then [] else if s[0] == c then [] else [s[0]] + Before(s[1..], c)
  }

  /** The stripped URL never contains a '?'. */
  lemma {:induction false} StripQueryRemovesEveryQuery(s: string)
    ensures '?' !in StripQuery(s)
    decreases |s|
  {
    if s != [] {
      if s[0] == '?' {
        StripQueryRemovesEveryQuery(s[1 + LineLength(s[1..])..]);
      } else {
        StripQueryRemovesEveryQuery(s[1..]);
      }
    }
  }

  /** On a one-line URL the strip cuts the URL at its first '?'. */
  lemma {:induction false} StripQueryCutsAtFirstQuery(s: string)
    requires '\n' !in s
    ensures StripQuery(s) == Before(s, '?')
    decreases |s|
  {
    if s != [] {
      if s[0] == '?' {
        assert '\n' !in s[1..];
        assert LineLength(s[1..]) == |s| - 1;
        assert s[|s|..] == [];
      } else {
        assert '\n' !in s[1..];
        StripQueryCutsAtFirstQuery(s[1..]);
      }
    }
  }

  /** A URL without a '?' is left as it is. */
  lemma {:induction false} StripQueryKeepsPlainUrl(s: string)
    requires '?' !in s
    ensures StripQuery(s) == s
    decreases |s|
  {
    if s != [] {
      assert '?' !in s[1..];
      StripQueryKeepsPlainUrl(s[1..]);
      assert s == [s[0]] + s[1..];
    }
  }

  /** The file URLs of a listing: "{stripped url}/{key}" for every extracted key. */
  function FileUrls(bucketUrl: string, keys: seq<string>): (r: seq<string>)
    ensures |r| == |keys|
  {
    seq(|keys|, i requires 0 <= i < |keys| => StripQuery(bucketUrl) + "/" + keys[i])
  }

  /** Each file URL is the stripped prefix, a slash and the key, so the key can
      be read back from its URL: the listing loses no key and adds none. */
  lemma FileUrlsRecoverKeys(bucketUrl: string, keys: seq<string>, i: nat)
    requires i < |keys|
    ensures var p := StripQuery(bucketUrl);
      && |FileUrls(bucketUrl, keys)[i]| == |p| + 1 + |keys[i]|
      && FileUrls(bucketUrl, keys)[i][..|p|] == p
      && FileUrls(bucketUrl, keys)[i][|p|] == '/'
      && FileUrls(bucketUrl, keys)[i][|p| + 1..] == keys[i]
  {
  }

  /** `get_bucket_files(url)`: GET the listing (which raises when the host is
      unreachable) and turn every extracted key into a file URL. */
  function GetBucketFiles(http: string -> HttpReply, bucketUrl: string): (r: Outcome<seq<string>>)
    ensures r.Raised? <==> http(bucketUrl).Unreachable?
    ensures r.Returned? ==> r.value == FileUrls(bucketUrl, http(bucketUrl).keys)
  {
    match http(bucketUrl)
    case Unreachable => Raised
    case Response(_, keys, _) => Returned(FileUrls(bucketUrl, keys))
  }

  /** A listing without any `<Key>` or `<Name>` element yields no files. */
  lemma NoKeysNoFiles(http: string -> HttpReply, bucketUrl: string)
    requires http(bucketUrl).Response? && http(bucketUrl).keys == []
    ensures GetBucketFiles(http, bucketUrl) == Returned([])
  {
  }
}
