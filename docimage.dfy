/**
 * The documentation build's `image` hook: after the Markdown parser has
 * built an image node, a `#fragment` at the end of its `uri` is turned into
 * node attributes (`image.png#width=200,align=center`).
 */
module DocImage {
  import opened Wrappers
  import opened Text

  /** The image node the wrapped parser builds; its attributes include `uri`. */
  class ImageNode {
    var attributes: map<string, string>

    constructor (attributes: map<string, string>)
      ensures this.attributes == attributes
    {
      this.attributes := attributes;
    }
  }

  /** `key, value = param.split('=', 1)`: a piece without `=` cannot be unpacked. */
  function Pair(piece: string): (r: Option<(string, string)>)
    ensures r.Some? <==> '=' in piece
    ensures r.Some? ==> '=' !in r.value.0 && r.value.0 + "=" + r.value.1 == piece
  {
    var tokens := SplitOnce(piece, '=');
    if |tokens| < 2 then None else Some((tokens[0], tokens[1]))
  }

  /**
   * The attributes after assigning the fragment pieces left to right, and
   * whether every piece was a pair: at the first piece that is not, the
   * loop raises with the earlier assignments already made.
   */
  function Assigned(attrs: map<string, string>, pieces: seq<string>): (map<string, string>, bool)
    decreases |pieces|
  {
    if pieces == [] then (attrs, true)
    else
      var (prev, ok) := Assigned(attrs, pieces[..|pieces| - 1]);
      var pair := Pair(pieces[|pieces| - 1]);
      if !ok || pair.None? then (prev, false) else (prev[pair.value.0 := pair.value.1], true)
  }

  /**
   * The node's attributes after the hook, and whether it returned the node
   * (`false`: it raised `ValueError`). A `uri` without `#` is left alone;
   * otherwise the `uri` loses everything from its last `#` and the rest
   * is assigned piece by piece.
   */
  function Rewritten(attrs: map<string, string>): (map<string, string>, bool)
    requires "uri" in attrs
  {
    var uri := attrs["uri"];
    if '#' !in uri then (attrs, true)
    else
      var parts := RSplitOnce(uri, '#');
      Assigned(attrs["uri" := parts[0]], Split(parts[1], ','))
  }

  /** The hook, updating the node in place. */
  method Image(node: ImageNode) returns (returned: bool)
    requires "uri" in node.attributes
    modifies node
    ensures (node.attributes, returned) == Rewritten(old(node.attributes))
  {
    var uri := node.attributes["uri"];
    returned := true;
    if '#' !in uri {
      return;
    }
    var parts := RSplitOnce(uri, '#');
    node.attributes := node.attributes["uri" := parts[0]];
    var params := Split(parts[1], ',');
    var start := node.attributes;
    var i := 0;
    while i < |params|
      invariant 0 <= i <= |params|
      invariant Assigned(start, params[..i]) == (node.attributes, true)
    {
      assert params[..i + 1][..i] == params[..i];
      var tokens := SplitOnce(params[i], '=');
      if |tokens| < 2 {
        AssignedFailed(start, params, i);
        returned := false;
        return;
      }
      node.attributes := node.attributes[tokens[0] := tokens[1]];
      i := i + 1;
    }
    assert params[..i] == params;
  }

  /** Once a piece fails, later pieces change nothing. */
  lemma {:induction false} AssignedFailed(attrs: map<string, string>, pieces: seq<string>, i: int)
    requires 0 <= i < |pieces| && '=' !in pieces[i]
    ensures Assigned(attrs, pieces) == (Assigned(attrs, pieces[..i]).0, false)
    decreases |pieces|
  {
    var init := pieces[..|pieces| - 1];
    if i < |pieces| - 1 {
      assert init[..i] == pieces[..i] && init[i] == pieces[i];
      AssignedFailed(attrs, init, i);
    } else {
      assert init == pieces[..i];
    }
  }

  /** A pair written as `key=value` reads back as that pair when the key has no `=`. */
  lemma PairOfJoined(key: string, value: string)
    requires '=' !in key
    ensures Pair(key + "=" + value) == Some((key, value))
  {
    var s := key + "=" + value;
    assert s[|key|] == '=';
    var r := Pair(s);
    var k := r.value.0;
    assert s == k + "=" + r.value.1;
    if |k| < |key| {
      assert false;
    } else if |key| < |k| {
      assert false;
    }
    assert k == s[..|key|] == key;
    assert r.value.1 == s[|key| + 1..] == value;
  }

  /** The value of `key` in `m`, if any. */
  function Get(m: map<string, string>, key: string): Option<string> {
    if key in m then Some(m[key]) else None
  }

  /** The value the last `key=...` piece gives `key`, if any piece does. */
  function LastValue(pieces: seq<string>, key: string): Option<string>
    decreases |pieces|
  {
    if pieces == [] then None
    else
      var pair := Pair(pieces[|pieces| - 1]);
      if pair.Some? && pair.value.0 == key then Some(pair.value.1)
      else LastValue(pieces[..|pieces| - 1], key)
  }

  /** The pieces are all assigned exactly when every one of them holds a `=`. */
  lemma {:induction false} AssignedSucceeds(attrs: map<string, string>, pieces: seq<string>)
    ensures Assigned(attrs, pieces).1 <==> forall k | 0 <= k < |pieces| :: '=' in pieces[k]
    decreases |pieces|
  {
    if pieces != [] {
      var init := pieces[..|pieces| - 1];
      AssignedSucceeds(attrs, init);
      assert forall k | 0 <= k < |init| :: init[k] == pieces[k];
    }
  }

  /** After a full assignment each key holds the value of its last piece, or its old value if no piece names it. */
  lemma {:induction false} LastWins(attrs: map<string, string>, pieces: seq<string>, key: string)
    requires Assigned(attrs, pieces).1
    ensures Get(Assigned(attrs, pieces).0, key)
         == if LastValue(pieces, key).Some? then LastValue(pieces, key) else Get(attrs, key)
    decreases |pieces|
  {
    if pieces != [] {
      LastWins(attrs, pieces[..|pieces| - 1], key);
    }
  }

  /** A `uri` with no `#` leaves the node as it was. */
  lemma NoFragmentUnchanged(attrs: map<string, string>)
    requires "uri" in attrs && '#' !in attrs["uri"]
    ensures Rewritten(attrs) == (attrs, true)
  {
  }

  /** The `uri` is cut at its last `#` (earlier ones stay) and only the text after it is read as pieces. */
  lemma CutAtLastHash(attrs: map<string, string>, base: string, fragment: string)
    requires "uri" in attrs && attrs["uri"] == base + "#" + fragment
    requires '#' !in fragment
    ensures Rewritten(attrs) == Assigned(attrs["uri" := base], Split(fragment, ','))
  {
    RSplitJoined(base, fragment, '#');
    assert base + "#" + fragment == base + ['#'] + fragment;
  }

  /** A bare trailing `#` gives one empty piece, which raises after the `uri` was cut. */
  lemma EmptyFragmentRaises(attrs: map<string, string>, base: string)
    requires "uri" in attrs && attrs["uri"] == base + "#"
    ensures Rewritten(attrs) == (attrs["uri" := base], false)
  {
    CutAtLastHash(attrs, base, "");
  }

  /** The pieces `key=value` of the given pairs. */
  function Rendered(pairs: seq<(string, string)>): (pieces: seq<string>)
    ensures |pieces| == |pairs|
    ensures forall k | 0 <= k < |pairs| :: pieces[k] == pairs[k].0 + "=" + pairs[k].1
  {
    seq(|pairs|, k requires 0 <= k < |pairs| => pairs[k].0 + "=" + pairs[k].1)
  }

  /** The attributes after setting the pairs in order. */
  function Applied(attrs: map<string, string>, pairs: seq<(string, string)>): map<string, string>
    decreases |pairs|
  {
    if pairs == [] then attrs
    else Applied(attrs, pairs[..|pairs| - 1])[pairs[|pairs| - 1].0 := pairs[|pairs| - 1].1]
  }

  /** Assigning the rendered pieces sets exactly the pairs, in order. */
  lemma {:induction false} AssignedRendered(attrs: map<string, string>, pairs: seq<(string, string)>)
    requires forall k | 0 <= k < |pairs| :: '=' !in pairs[k].0
    ensures Assigned(attrs, Rendered(pairs)) == (Applied(attrs, pairs), true)
    decreases |pairs|
  {
    if pairs != [] {
      var n := |pairs| - 1;
      RenderedPrefix(pairs, n);
      AssignedRendered(attrs, pairs[..n]);
      PairOfJoined(pairs[n].0, pairs[n].1);
    }
  }

  /** Rendering a prefix renders the prefix of the pieces. */
  lemma RenderedPrefix(pairs: seq<(string, string)>, n: nat)
    requires n < |pairs|
    ensures Rendered(pairs)[..n] == Rendered(pairs[..n])
  {
  }

  /**
   * Round trip: a `uri` written as `base#k1=v1,k2=v2,...` (keys without `=`,
   * no `,` or `#` in keys and values) comes back as `base` with each pair set
   * in order; a later pair with the same key, `uri` included, wins.
   */
  lemma RenderedFragmentParses(attrs: map<string, string>, base: string, pairs: seq<(string, string)>)
    requires "uri" in attrs && pairs != []
    requires forall k | 0 <= k < |pairs| :: '=' !in pairs[k].0
    requires forall k | 0 <= k < |pairs| :: ',' !in pairs[k].0 + "=" + pairs[k].1
    requires forall k | 0 <= k < |pairs| :: '#' !in pairs[k].0 + "=" + pairs[k].1
    ensures Rewritten(attrs["uri" := base + "#" + Join(Rendered(pairs), [','])])
         == (Applied(attrs["uri" := base], pairs), true)
  {
    var fragment := Join(Rendered(pairs), [',']);
    FragmentSplits(pairs);
    var node := attrs["uri" := base + "#" + fragment];
    CutAtLastHash(node, base, fragment);
    SetTwice(attrs, "uri", base + "#" + fragment, base);
    AssignedRendered(attrs["uri" := base], pairs);
  }

  /** Setting a key twice keeps the second value only. */
  lemma SetTwice(m: map<string, string>, key: string, first: string, second: string)
    ensures m[key := first][key := second] == m[key := second]
  {
  }

  /** The rendered fragment has no `#` and splits at `,` into its pieces. */
  lemma FragmentSplits(pairs: seq<(string, string)>)
    requires pairs != []
    requires forall k | 0 <= k < |pairs| :: ',' !in pairs[k].0 + "=" + pairs[k].1
    requires forall k | 0 <= k < |pairs| :: '#' !in pairs[k].0 + "=" + pairs[k].1
    ensures '#' !in Join(Rendered(pairs), [','])
    ensures Split(Join(Rendered(pairs), [',']), ',') == Rendered(pairs)
  {
    NotInJoin(Rendered(pairs), [','], '#');
    SplitJoin(Rendered(pairs), ',');
  }
}
