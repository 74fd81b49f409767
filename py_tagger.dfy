/**
 * Tag adjustment of the Python package (src/kaniko_remote/tagger.py): a
 * static tag, a default tag for an empty list, or a prefix. Options are
 * Python strings that may be None; only a non-empty string is truthy.
 */
module PyTagger {
  import opened Wrappers
  import opened Errors

  datatype Tagger = Tagger(defaultTag: Option<string>, staticTag: Option<string>, prefix: Option<string>)

  const BothMessage := "Only one of 'static' or 'prefix' can be configured"

  /** `Tagger.__init__`: a truthy static tag next to a truthy prefix raises ValueError. */
  function NewTagger(defaultTag: Option<string>, staticTag: Option<string>, prefix: Option<string>): (r: Result<Tagger, Error>)
    ensures r.Failure? <==> TruthyString(staticTag) && TruthyString(prefix)
    ensures r.Failure? ==> r.error == ValueError(BothMessage)
    ensures r.Success? ==> r.value.defaultTag == defaultTag && r.value.staticTag == staticTag && r.value.prefix == prefix
  {
    if TruthyString(staticTag) && TruthyString(prefix) then Failure(ValueError(BothMessage))
    else Success(Tagger(defaultTag, staticTag, prefix))
  }

  /** `[f"{prefix}/{t}" for t in tags]`. */
  function Prefixed(prefix: string, tags: seq<string>): (r: seq<string>)
    ensures |r| == |tags|
    ensures forall i :: 0 <= i < |tags| ==> r[i] == prefix + "/" + tags[i]
  {
    seq(|tags|, i requires 0 <= i < |tags| => prefix + "/" + tags[i])
  }

  /** Removing `prefix/` from every entry gives the tags back. */
  lemma PrefixedRoundTrip(prefix: string, tags: seq<string>)
    ensures seq(|tags|, i requires 0 <= i < |tags| => Prefixed(prefix, tags)[i][|prefix| + 1..]) == tags
  {
    var r := Prefixed(prefix, tags);
    forall i | 0 <= i < |tags|
      ensures r[i][|prefix| + 1..] == tags[i]
    {
      assert r[i] == prefix + "/" + tags[i];
    }
  }

  /**
   * `adjust_tags`: the list returned. A None default is returned as it is,
   * so entries are optional strings. A static tag replaces everything, an
   * empty list gives the default, and otherwise the output keeps the input's
   * length and order, each entry prefixed when a prefix is set and unchanged
   * otherwise.
   */
  function AdjustTags(t: Tagger, tags: seq<string>): (r: seq<Option<string>>)
    ensures TruthyString(t.staticTag) ==> r == [t.staticTag]
    ensures !TruthyString(t.staticTag) && |tags| == 0 ==> r == [t.defaultTag]
    ensures !TruthyString(t.staticTag) && |tags| > 0 ==> |r| == |tags|
    ensures !TruthyString(t.staticTag) && |tags| > 0 ==> forall i :: 0 <= i < |tags| ==>
      r[i] == Some(if TruthyString(t.prefix) then t.prefix.value + "/" + tags[i] else tags[i])
  {
    if TruthyString(t.staticTag) then [t.staticTag]
    else if |tags| == 0 then [t.defaultTag]
    else if TruthyString(t.prefix) then
      var pre := Prefixed(t.prefix.value, tags);
      seq(|pre|, i requires 0 <= i < |pre| => Some(pre[i]))
    else seq(|tags|, i requires 0 <= i < |tags| => Some(tags[i]))
  }

  /** For a successfully constructed tagger a static tag and a prefix never both apply. */
  lemma ConstructedTaggerIsConsistent(defaultTag: Option<string>, staticTag: Option<string>, prefix: Option<string>, tags: seq<string>)
    requires NewTagger(defaultTag, staticTag, prefix).Success?
    ensures var t := NewTagger(defaultTag, staticTag, prefix).value;
      TruthyString(t.staticTag) ==> !TruthyString(t.prefix) && AdjustTags(t, tags) == [staticTag]
  {
  }
}
