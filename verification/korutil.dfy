/** The kor helpers that the config-map detector calls, given the behaviour
    its callers rely on: dedup-and-sort, the used/all difference, and the
    deletion step's residual. */
module KorUtil {
  import opened Wrappers
  import opened StringOrder

  /** Inserts x into a strictly sorted sequence, keeping it strictly sorted. */
  function InsertSorted(x: string, s: seq<string>): (r: seq<string>)
    requires StrictlySorted(s)
    ensures StrictlySorted(r)
    ensures forall y :: y in r <==> y == x || y in s
    ensures |r| > 0 && (r[0] == x || (|s| > 0 && r[0] == s[0]))
  {
    if |s| == 0 then [x]
    else if x == s[0] then s
    else if Less(x, s[0]) then
      assert forall j :: 0 <= j < |s| ==> Less(x, s[j]) by {
        forall j | 0 < j < |s| ensures Less(x, s[j]) { LessTransitive(x, s[0], s[j]); }
      }
      [x] + s
    else
      LessTotal(x, s[0]);
      var tail := InsertSorted(x, s[1..]);
      assert forall y :: y in tail ==> Less(s[0], y) by {
        forall y | y in tail ensures Less(s[0], y) {
          if y != x {
            var j :| 0 <= j < |s[1..]| && s[1..][j] == y;
            assert s[j + 1] == y;
          }
        }
      }
      [s[0]] + tail
  }

  /** RemoveDuplicatesAndSort: the same names, each once, in ascending order. */
  function RemoveDuplicatesAndSort(s: seq<string>): (r: seq<string>)
    ensures StrictlySorted(r)
    ensures forall x :: x in r <==> x in s
  {
    if |s| == 0 then []
    else
      assert s == s[..|s| - 1] + [s[|s| - 1]];
      InsertSorted(s[|s| - 1], RemoveDuplicatesAndSort(s[..|s| - 1]))
  }

  /** CalculateResourceDifference: the names of `all`, in their order, that do
      not occur in `used`. */
  function CalculateResourceDifference(used: seq<string>, all: seq<string>): (diff: seq<string>)
    ensures forall x :: x in diff <==> x in all && x !in used
    ensures |diff| <= |all|
    ensures StrictlySorted(all) ==> StrictlySorted(diff)
  {
    if |all| == 0 then []
    else
      var init := all[..|all| - 1];
      var last := all[|all| - 1];
      assert all == init + [last];
      var prev := CalculateResourceDifference(used, init);
      assert StrictlySorted(all) ==> forall i :: 0 <= i < |prev| ==> Less(prev[i], last) by {
        if StrictlySorted(all) {
          forall i | 0 <= i < |prev| ensures Less(prev[i], last) {
            assert prev[i] in prev;
            var k :| 0 <= k < |init| && init[k] == prev[i];
          }
        }
      }
      prev + (if last in used then [] else [last])
  }

  /** Whether the deletion step removes config map `name` of `namespace`: the
      operator confirmed it (or no confirmation is asked) and the API call
      succeeded. */
  predicate Removed(namespace: string, name: string, noInteractive: bool,
                    confirms: (string, string) -> bool,
                    deleteSucceeds: (string, string) -> bool)
  {
    (noInteractive || confirms(namespace, name)) && deleteSucceeds(namespace, name)
  }

  /** DeleteResource: deletes the listed names and returns those still present
      (declined or failed), with an error when some confirmed deletion failed. */
  function DeleteResource(diff: seq<string>, namespace: string, resourceType: string,
                          noInteractive: bool,
                          confirms: (string, string) -> bool,
                          deleteSucceeds: (string, string) -> bool): (r: (seq<string>, Option<string>))
    ensures forall x :: x in r.0 <==>
      x in diff && !Removed(namespace, x, noInteractive, confirms, deleteSucceeds)
    ensures r.1.Some? <==>
      (exists x :: x in diff && (noInteractive || confirms(namespace, x)) && !deleteSucceeds(namespace, x))
  {
    if |diff| == 0 then ([], None)
    else
      var last := diff[|diff| - 1];
      assert diff == diff[..|diff| - 1] + [last];
      var (residual, err) := DeleteResource(diff[..|diff| - 1], namespace, resourceType,
                                            noInteractive, confirms, deleteSucceeds);
      var confirmed := noInteractive || confirms(namespace, last);
      var kept := if Removed(namespace, last, noInteractive, confirms, deleteSucceeds)
                  then residual else residual + [last];
      var failed := confirmed && !deleteSucceeds(namespace, last);
      (kept, if failed then Some("failed to delete " + resourceType + " " + last) else err)
  }
}
