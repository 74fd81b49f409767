/**
 * Tag transformation of the C# port (src/Tagger/Tagger.cs): a static tag,
 * a default tag for an empty list, a prefix, and regular-expression rewrite
 * rules. The regular-expression engine is foreign: `isMatch(template, tag)`
 * stands for `new Regex(template).IsMatch(tag)` and
 * `replace(template, tag, replacement)` for `Regex.Replace`.
 */
module Tagger {
  import opened Wrappers
  import opened Json
  import opened Errors

  /** `TaggerConfiguration`: the `tags` section; rules are (template, replacement) pairs in dictionary order. */
  datatype TaggerConfiguration = TaggerConfiguration(
    defaultTag: Option<string>,
    staticTag: Option<string>,
    prefix: Option<string>,
    regexes: seq<(string, string)>)

  const StaticConflictMessage := "No other tags options may be configured when 'static' is set"
  const NoTagMessage := "No tag specified and no default tag configured, specify a tag with -t"

  /** A static tag excludes every other option. */
  predicate Conflicts(c: TaggerConfiguration)
  {
    c.staticTag.Some? && (c.prefix.Some? || c.defaultTag.Some? || |c.regexes| > 0)
  }

  /** `FirstOrDefault(kvp => kvp.Key.IsMatch(tag))`: the first rule whose template matches. */
  function FirstMatch(rules: seq<(string, string)>, isMatch: (string, string) -> bool, tag: string): (r: Option<(string, string)>)
    ensures r.Some? ==> r.value in rules && isMatch(r.value.0, tag)
    ensures r.None? <==> forall i :: 0 <= i < |rules| ==> !isMatch(rules[i].0, tag)
    ensures r.Some? ==>
      exists k :: 0 <= k < |rules| && rules[k] == r.value && forall i :: 0 <= i < k ==> !isMatch(rules[i].0, tag)
  {
    if |rules| == 0 then None
    else if isMatch(rules[0].0, tag) then Some(rules[0])
    else
      var r := FirstMatch(rules[1..], isMatch, tag);
      assert forall i :: 1 <= i < |rules| ==> rules[i] == rules[1..][i - 1];
      if r.Some? then
        var k :| 0 <= k < |rules[1..]| && rules[1..][k] == r.value &&
          forall i :: 0 <= i < k ==> !isMatch(rules[1..][i].0, tag);
        assert rules[k + 1] == r.value;
        r
      else r
  }

  /** The output for one input tag: rewritten by the first matching rule, else prefixed, else dropped. */
  function AdjustTag(rules: seq<(string, string)>, isMatch: (string, string) -> bool,
                     replace: (string, string, string) -> string, prefix: Option<string>, tag: string): seq<string>
  {
    match FirstMatch(rules, isMatch, tag)
    case Some((template, replacement)) => [replace(template, tag, replacement)]
    case None => if prefix.Some? then [prefix.value + "/" + tag] else []
  }

  /** The per-tag loop's output for `tags`, in input order. */
  function Adjusted(rules: seq<(string, string)>, isMatch: (string, string) -> bool,
                    replace: (string, string, string) -> string, prefix: Option<string>, tags: seq<string>): seq<string>
  {
    if |tags| == 0 then []
    else
      var init := Adjusted(rules, isMatch, replace, prefix, tags[..|tags| - 1]);
      init + AdjustTag(rules, isMatch, replace, prefix, tags[|tags| - 1])
  }

  /**
   * What `TransformTags` returns or raises for `tags`: a static tag wins; an
   * empty list takes the default tag, and without one that is the only
   * failure; without rules and prefix the tags come back unchanged;
   * otherwise never more tags than came in, and with a prefix exactly as many.
   */
  function Transformed(c: TaggerConfiguration, isMatch: (string, string) -> bool,
                       replace: (string, string, string) -> string, tags: seq<string>): (r: Result<seq<string>, Error>)
    ensures c.staticTag.Some? ==> r == Success([c.staticTag.value])
    ensures r.Failure? <==> c.staticTag.None? && |tags| == 0 && c.defaultTag.None?
    ensures r.Failure? ==> r.error == InvalidData(NoTagMessage)
    ensures c.staticTag.None? && |tags| == 0 && c.defaultTag.Some? ==> r == Success([c.defaultTag.value])
    ensures c.staticTag.None? && |tags| > 0 && c.prefix.None? && |c.regexes| == 0 ==> r == Success(tags)
    ensures c.staticTag.None? && |tags| > 0 ==> |r.value| <= |tags|
    ensures c.staticTag.None? && c.prefix.Some? && |tags| > 0 ==> |r.value| == |tags|
  {
    if c.staticTag.Some? then Success([c.staticTag.value])
    else if |tags| == 0 then
      if c.defaultTag.None? then Failure(InvalidData(NoTagMessage)) else Success([c.defaultTag.value])
    else if c.prefix.None? && |c.regexes| == 0 then Success(tags)
    else
      AdjustedShorter(c.regexes, isMatch, replace, c.prefix, tags);
      if c.prefix.Some? then
        AdjustedWithPrefix(c.regexes, isMatch, replace, c.prefix.value, tags);
        Success(Adjusted(c.regexes, isMatch, replace, c.prefix, tags))
      else Success(Adjusted(c.regexes, isMatch, replace, c.prefix, tags))
  }

  /** The message of the `ArgumentException` .NET's default comparer raises for two objects neither of which is comparable. */
  const NotComparableMessage := "At least one object must implement IComparable."

  /**
   * The constructor's fill of `new SortedDictionary<Regex, string>()`, as
   * written. `Regex` has no ordering, so the default comparer raises as soon
   * as the tree has to compare two keys: the first `Add` goes into the empty
   * tree, the second raises.
   */
  method CompileSorted(regexes: seq<(string, string)>) returns (r: Result<seq<(string, string)>, Error>)
    ensures r.Success? <==> |regexes| <= 1
    ensures r.Success? ==> r.value == regexes
    ensures r.Failure? ==> r.error == Argument(NotComparableMessage)
  {
    var table: seq<(string, string)> := [];
    for i := 0 to |regexes|
      invariant i <= 1 && table == regexes[..i]
    {
      if |table| > 0 {
        return Failure(Argument(NotComparableMessage));
      }
      table := table + [regexes[i]];
    }
    assert regexes[..|regexes|] == regexes;
    return Success(table);
  }

  /** The fill as intended: a dictionary that keeps the rules in configuration order. */
  method CompileInOrder(regexes: seq<(string, string)>) returns (rules: seq<(string, string)>)
    ensures rules == regexes
  {
    rules := [];
    for i := 0 to |regexes|
      invariant rules == regexes[..i]
    {
      rules := rules + [regexes[i]];
    }
    assert regexes[..|regexes|] == regexes;
  }

  class Tagger {
    const config: TaggerConfiguration
    const isMatch: (string, string) -> bool
    const replace: (string, string, string) -> string
    /** The compiled rules, in the order `TransformTags` tries them. */
    const regexesByTemplate: seq<(string, string)>

    constructor (config: TaggerConfiguration, rules: seq<(string, string)>,
                 isMatch: (string, string) -> bool, replace: (string, string, string) -> string)
      ensures this.config == config && this.isMatch == isMatch && this.replace == replace
      ensures regexesByTemplate == rules
    {
      this.config := config;
      this.isMatch := isMatch;
      this.replace := replace;
      this.regexesByTemplate := rules;
    }

    predicate HasStatic() { config.staticTag.Some? }
    predicate HasDefault() { config.defaultTag.Some? }
    predicate HasPrefix() { config.prefix.Some? }
    predicate HasRegex() { |regexesByTemplate| > 0 }

    /** `TransformTags`, proved against `Transformed`. */
    method TransformTags(inputTags: seq<string>) returns (r: Result<seq<string>, Error>)
      requires regexesByTemplate == config.regexes
      ensures r == Transformed(config, isMatch, replace, inputTags)
    {
      if HasStatic() {
        return Success([config.staticTag.value]);
      }
      if |inputTags| == 0 {
        if !HasDefault() {
          return Failure(InvalidData(NoTagMessage));
        } else {
          return Success([config.defaultTag.value]);
        }
      }
      if !HasPrefix() && !HasRegex() {
        return Success(inputTags);
      }
      var outputTags: seq<string> := [];
      for i := 0 to |inputTags|
        invariant outputTags == Adjusted(regexesByTemplate, isMatch, replace, config.prefix, inputTags[..i])
      {
        var tag := inputTags[i];
        var rule := FirstMatch(regexesByTemplate, isMatch, tag);
        if rule.Some? {
          outputTags := outputTags + [replace(rule.value.0, tag, rule.value.1)];
        } else if HasPrefix() {
          outputTags := outputTags + [config.prefix.value + "/" + tag];
        }
        assert inputTags[..i + 1][..i] == inputTags[..i];
      }
      assert inputTags[..|inputTags|] == inputTags;
      return Success(outputTags);
    }
  }

  /**
   * The constructor as written: filling the sorted dictionary raises for two
   * or more rules; otherwise a static tag next to any other option raises.
   */
  method NewTagger(config: TaggerConfiguration, isMatch: (string, string) -> bool,
                   replace: (string, string, string) -> string, toJson: TaggerConfiguration -> Json)
    returns (r: Result<Tagger, Error>)
    ensures r.Failure? <==> |config.regexes| >= 2 || Conflicts(config)
    ensures |config.regexes| >= 2 ==> r == Failure(Argument(NotComparableMessage))
    ensures |config.regexes| < 2 && Conflicts(config) ==> r == Failure(InvalidConfig(StaticConflictMessage, Some(toJson(config))))
    ensures r.Success? ==> fresh(r.value) && r.value.config == config && r.value.regexesByTemplate == config.regexes
    ensures r.Success? ==> r.value.isMatch == isMatch && r.value.replace == replace
  {
    var rules :- CompileSorted(config.regexes);
    r := Checked(config, rules, isMatch, replace, toJson);
  }

  /** The constructor as intended: the rules kept in order, and only a static tag next to another option raises. */
  method NewOrderedTagger(config: TaggerConfiguration, isMatch: (string, string) -> bool,
                          replace: (string, string, string) -> string, toJson: TaggerConfiguration -> Json)
    returns (r: Result<Tagger, Error>)
    ensures r.Failure? <==> Conflicts(config)
    ensures r.Failure? ==> r.error == InvalidConfig(StaticConflictMessage, Some(toJson(config)))
    ensures r.Success? ==> fresh(r.value) && r.value.config == config && r.value.regexesByTemplate == config.regexes
    ensures r.Success? ==> r.value.isMatch == isMatch && r.value.replace == replace
  {
    var rules := CompileInOrder(config.regexes);
    r := Checked(config, rules, isMatch, replace, toJson);
  }

  /** The tagger over compiled `rules`, unless a static tag sits next to another option. */
  method Checked(config: TaggerConfiguration, rules: seq<(string, string)>, isMatch: (string, string) -> bool,
                 replace: (string, string, string) -> string, toJson: TaggerConfiguration -> Json)
    returns (r: Result<Tagger, Error>)
    requires rules == config.regexes
    ensures r.Failure? <==> Conflicts(config)
    ensures r.Failure? ==> r.error == InvalidConfig(StaticConflictMessage, Some(toJson(config)))
    ensures r.Success? ==> fresh(r.value) && r.value.config == config && r.value.regexesByTemplate == config.regexes
    ensures r.Success? ==> r.value.isMatch == isMatch && r.value.replace == replace
  {
    var t := new Tagger(config, rules, isMatch, replace);
    if t.HasStatic() && (t.HasPrefix() || t.HasDefault() || t.HasRegex()) {
      return Failure(InvalidConfig(StaticConflictMessage, Some(toJson(config))));
    }
    return Success(t);
  }

  /** Each input tag yields at most one output tag. */
  lemma {:induction false} AdjustedShorter(rules: seq<(string, string)>, isMatch: (string, string) -> bool,
                                           replace: (string, string, string) -> string, prefix: Option<string>, tags: seq<string>)
    ensures |Adjusted(rules, isMatch, replace, prefix, tags)| <= |tags|
  {
    if |tags| > 0 {
      AdjustedShorter(rules, isMatch, replace, prefix, tags[..|tags| - 1]);
    }
  }

  /**
   * With a prefix no tag is dropped: output `i` comes from input `i`, rewritten
   * by its first matching rule or else prefixed.
   */
  lemma {:induction false} AdjustedWithPrefix(rules: seq<(string, string)>, isMatch: (string, string) -> bool,
                                              replace: (string, string, string) -> string, prefix: string, tags: seq<string>)
    ensures |Adjusted(rules, isMatch, replace, Some(prefix), tags)| == |tags|
    ensures forall i :: 0 <= i < |tags| ==>
      [Adjusted(rules, isMatch, replace, Some(prefix), tags)[i]] == AdjustTag(rules, isMatch, replace, Some(prefix), tags[i])
  {
    if |tags| > 0 {
      var init := tags[..|tags| - 1];
      AdjustedWithPrefix(rules, isMatch, replace, prefix, init);
      assert forall i :: 0 <= i < |init| ==> init[i] == tags[i];
    }
  }

  /**
   * Without rules, the prefixed tags are exactly `prefix/tag` for each input
   * tag, and removing the prefix gives the input back.
   */
  lemma PrefixOnly(isMatch: (string, string) -> bool, replace: (string, string, string) -> string,
                   prefix: string, tags: seq<string>)
    ensures var out := Adjusted([], isMatch, replace, Some(prefix), tags);
      |out| == |tags| &&
      forall i :: 0 <= i < |tags| ==> out[i] == prefix + "/" + tags[i] && out[i][|prefix| + 1..] == tags[i]
  {
    var out := Adjusted([], isMatch, replace, Some(prefix), tags);
    AdjustedWithPrefix([], isMatch, replace, prefix, tags);
    forall i | 0 <= i < |tags|
      ensures out[i] == prefix + "/" + tags[i] && out[i][|prefix| + 1..] == tags[i]
    {
      assert [out[i]] == [prefix + "/" + tags[i]];
      assert (prefix + "/" + tags[i])[|prefix| + 1..] == tags[i];
    }
  }

  /**
   * A tag that no rule matches, with no prefix, is dropped: with no prefix the
   * output lists the rewritten tags of exactly those inputs some rule matches.
   */
  lemma {:induction false} AdjustedWithoutPrefix(rules: seq<(string, string)>, isMatch: (string, string) -> bool,
                                                 replace: (string, string, string) -> string, tags: seq<string>)
    ensures |Adjusted(rules, isMatch, replace, None, tags)| == |tags| <==>
      forall i :: 0 <= i < |tags| ==> FirstMatch(rules, isMatch, tags[i]).Some?
  {
    if |tags| > 0 {
      var init := tags[..|tags| - 1];
      AdjustedWithoutPrefix(rules, isMatch, replace, init);
      AdjustedShorter(rules, isMatch, replace, None, init);
      assert |Adjusted(rules, isMatch, replace, None, tags)| ==
        |Adjusted(rules, isMatch, replace, None, init)| + |AdjustTag(rules, isMatch, replace, None, tags[|tags| - 1])|;
      DroppedUnlessMatched(rules, isMatch, replace, tags[|tags| - 1]);
      assert forall i :: 0 <= i < |init| ==> init[i] == tags[i];
    }
  }

  /** Without a prefix, one tag yields one output when a rule matches it and none otherwise. */
  lemma DroppedUnlessMatched(rules: seq<(string, string)>, isMatch: (string, string) -> bool,
                             replace: (string, string, string) -> string, tag: string)
    ensures |AdjustTag(rules, isMatch, replace, None, tag)| == if FirstMatch(rules, isMatch, tag).Some? then 1 else 0
  {
  }
}
