/** Path construction as done by `filepath.Join`. */
module Paths {

  /** The separator `filepath.Join` puts between elements on a Unix host. */
  const Separator: char := '/'

  /** The elements joined with the separator, in order: the path starts with
      the first element and ends with the last, and joining nothing is "". */
  function Join(elems: seq<string>): (r: string)
    ensures |elems| == 0 ==> r == ""
    ensures |elems| > 0 ==> elems[0] <= r
  {
    if |elems| == 0 then ""
    else if |elems| == 1 then elems[0]
    else Join(elems[..|elems| - 1]) + [Separator] + elems[|elems| - 1]
  }

  /** Joining a longer list is joining its head and then appending the rest:
      `cacheDir/L/env/set` is the layer path `cacheDir/L` followed by `/env/set`. */
  lemma {:induction false} JoinExtends(prefix: seq<string>, rest: seq<string>)
    requires |prefix| > 0 && |rest| > 0
    ensures Join(prefix + rest) == Join(prefix) + [Separator] + Join(rest)
    decreases |rest|
  {
    var all := prefix + rest;
    var last := rest[|rest| - 1];
    assert all[|all| - 1] == last;
    if |rest| == 1 {
      assert all[..|all| - 1] == prefix;
      assert Join(rest) == last;
    } else {
      var init := rest[..|rest| - 1];
      assert all[..|all| - 1] == prefix + init;
      JoinExtends(prefix, init);
      calc {
        Join(all);
        Join(prefix + init) + [Separator] + last;
        (Join(prefix) + [Separator] + Join(init)) + [Separator] + last;
        Join(prefix) + [Separator] + (Join(init) + [Separator] + last);
        Join(prefix) + [Separator] + Join(rest);
      }
    }
  }
}
