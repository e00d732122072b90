/**
 * Candidate-name generation of the older package
 * (BucketsHunter/utils/buckets_hunter_utils.py), which returns the list itself.
 */
module LegacyUtils {
  import opened HunterUtils

  /** `generate_bucket_permutations` of the older package: starts from an empty
      list, appends the keyword, then six forms per word of the wordlist. It
      builds the same sequence as the current copy. */
  method GenerateBucketPermutations(keyword: string, mutationsWordlist: seq<string>)
    returns (bucketNames: seq<string>)
    ensures bucketNames == Permutations(keyword, mutationsWordlist)
    ensures |bucketNames| == 1 + 6 * |mutationsWordlist|
  {
    bucketNames := [];
    bucketNames := bucketNames + [keyword];
    for i := 0 to |mutationsWordlist|
      invariant bucketNames == Permutations(keyword, mutationsWordlist[..i])
    {
      var mutation := mutationsWordlist[i];
      assert mutationsWordlist[..i + 1][..i] == mutationsWordlist[..i];
      bucketNames := bucketNames + [keyword + "-" + mutation];
      bucketNames := bucketNames + [keyword + "_" + mutation];
      bucketNames := bucketNames + [keyword + mutation];
      bucketNames := bucketNames + [mutation + "-" + keyword];
      bucketNames := bucketNames + [mutation + "_" + keyword];
      bucketNames := bucketNames + [mutation + keyword];
    }
    assert mutationsWordlist[..|mutationsWordlist|] == mutationsWordlist;
    PermutationsLength(keyword, mutationsWordlist);
  }
}
