/**
 * `Config._snake_caseify_dict`, the same in both generations of the Python
 * configuration (src/kaniko_remote/config.py and
 * src/kaniko_remote/config/config.py): the regular expression
 * `(?<!^)(?=[A-Z])` puts "_" in front of every ASCII capital that is not the
 * first character, then the key is lowercased; the values are kept.
 */
module SnakeCase {
  import opened Json

  predicate IsUpper(c: char)
  {
    'A' <= c <= 'Z'
  }

  /** `str.lower` on one character, for the ASCII letters. */
  function LowerChar(c: char): (r: char)
    ensures !IsUpper(r)
    ensures !IsUpper(c) ==> r == c
  {
    if IsUpper(c) then (c as int + 32) as char else c
  }

  /** `str.lower`. */
  function Lower(s: string): (r: string)
    ensures |r| == |s|
    ensures forall i :: 0 <= i < |s| ==> r[i] == LowerChar(s[i])
  {
    seq(|s|, i requires 0 <= i < |s| => LowerChar(s[i]))
  }

  /** The substitution at every position after the first: "_" goes in front of each capital of `s`. */
  function Underscored(s: string): (r: string)
  {
    if |s| == 0 then []
    else Underscored(s[..|s| - 1]) + (if IsUpper(s[|s| - 1]) then "_" else "") + [s[|s| - 1]]
  }

  /** `_snake_caseify_regex.sub("_", k)`: the lookbehind `(?<!^)` spares the first character. */
  function InsertUnderscores(k: string): string
  {
    if |k| == 0 then [] else [k[0]] + Underscored(k[1..])
  }

  /** `_snake_caseify_regex.sub("_", k).lower()`. */
  function SnakeCase(k: string): string
  {
    Lower(InsertUnderscores(k))
  }

  /** How many characters after the first are capitals. */
  function Capitals(s: string): nat
  {
    if |s| == 0 then 0 else Capitals(s[..|s| - 1]) + (if IsUpper(s[|s| - 1]) then 1 else 0)
  }

  /** A key with no capital in it. */
  predicate NoCapitals(k: string)
  {
    forall i :: 0 <= i < |k| ==> !IsUpper(k[i])
  }

  /** The substitution keeps every character in order and adds one "_" per capital, and nothing else. */
  lemma {:induction false} UnderscoredShape(s: string)
    ensures |Underscored(s)| == |s| + Capitals(s)
    ensures NoCapitals(s) ==> Underscored(s) == s
    ensures Capitals(s) == 0 <==> NoCapitals(s)
  {
    if |s| > 0 {
      var init := s[..|s| - 1];
      UnderscoredShape(init);
      assert NoCapitals(s) <==> NoCapitals(init) && !IsUpper(s[|s| - 1]) by {
        assert forall i :: 0 <= i < |init| ==> init[i] == s[i];
      }
      assert init + [s[|s| - 1]] == s;
    }
  }

  /**
   * The snake-cased key has no capitals, is as long as the key plus one
   * underscore per capital after the first character, and a key without
   * capitals comes back unchanged.
   */
  lemma SnakeCaseShape(k: string)
    ensures NoCapitals(SnakeCase(k))
    ensures |k| > 0 ==> |SnakeCase(k)| == |k| + Capitals(k[1..])
    ensures NoCapitals(k) ==> SnakeCase(k) == k
  {
    var u := InsertUnderscores(k);
    if |k| > 0 {
      UnderscoredShape(k[1..]);
      if NoCapitals(k) {
        assert NoCapitals(k[1..]) by {
          assert forall i :: 0 <= i < |k| - 1 ==> k[1..][i] == k[i + 1];
        }
        assert u == k;
      }
    }
    assert NoCapitals(k) ==> SnakeCase(k) == k by {
      if NoCapitals(k) {
        assert forall i :: 0 <= i < |u| ==> LowerChar(u[i]) == u[i];
      }
    }
  }

  lemma SnakeCaseKeeps(k: string)
    requires NoCapitals(k)
    ensures SnakeCase(k) == k
  {
    SnakeCaseShape(k);
  }

  /** Snake-casing twice is snake-casing once. */
  lemma SnakeCaseIdempotent(k: string)
    ensures SnakeCase(SnakeCase(k)) == SnakeCase(k)
  {
    SnakeCaseShape(k);
    SnakeCaseShape(SnakeCase(k));
  }

  /** A capital after a run without capitals gets its underscore; the rest is substituted on its own. */
  lemma UnderscoredCapital(a: string, c: char, b: string)
    requires NoCapitals(a) && IsUpper(c)
    ensures Underscored(a + [c] + b) == a + ['_', c] + Underscored(b)
  {
    assert Underscored([c]) == ['_', c] by {
      assert [c][..0] == [];
      assert Underscored([c]) == [] + "_" + [c];
    }
    assert Underscored(a + [c]) == a + ['_', c] by {
      UnderscoredAppend(a, [c]);
      LowerKeeps(a);
    }
    UnderscoredAppend(a + [c], b);
  }

  /** A camel-case key of the builder options, as the configuration tests write them. */
  lemma KanikoImageExample(k: string)
    requires k == "kanikoImage"
    ensures SnakeCase(k) == "kaniko_image"
  {
    KanikoImageUnderscored(k);
    KanikoImageLowered("kaniko_Image");
  }

  lemma KanikoImageUnderscored(k: string)
    requires k == "kanikoImage"
    ensures InsertUnderscores(k) == "kaniko_Image"
  {
    assert k[1..] == "aniko" + ['I'] + "mage";
    UnderscoredCapital("aniko", 'I', "mage");
    LowerKeeps("mage");
  }

  lemma KanikoImageLowered(u: string)
    requires u == "kaniko_Image"
    ensures Lower(u) == "kaniko_image"
  {
  }

  /** A key starting with a capital: no underscore goes in front of it. */
  lemma PodStartTimeoutExample(k: string)
    requires k == "PodStartTimeout"
    ensures SnakeCase(k) == "pod_start_timeout"
  {
    PodStartTimeoutUnderscored(k);
    PodStartTimeoutLowered("Pod_Start_Timeout");
  }

  lemma TartTimeoutUnderscored(t: string)
    requires t == "tartTimeout"
    ensures Underscored(t) == "tart_Timeout"
  {
    assert t == "tart" + ['T'] + "imeout";
    UnderscoredCapital("tart", 'T', "imeout");
    LowerKeeps("imeout");
  }

  lemma PodStartTimeoutUnderscored(k: string)
    requires k == "PodStartTimeout"
    ensures InsertUnderscores(k) == "Pod_Start_Timeout"
  {
    TartTimeoutUnderscored("tartTimeout");
    assert k[1..] == "od" + ['S'] + "tartTimeout";
    UnderscoredCapital("od", 'S', "tartTimeout");
  }

  lemma PodStartTimeoutLowered(u: string)
    requires u == "Pod_Start_Timeout"
    ensures Lower(u) == "pod_start_timeout"
  {
  }

  /** A string without capitals is left alone by both steps. */
  lemma LowerKeeps(s: string)
    requires NoCapitals(s)
    ensures Lower(s) == s && Underscored(s) == s
  {
    UnderscoredShape(s);
  }

  /** Lowercasing works character by character: `a + b + c` lowers piece by piece. */
  lemma LowerAppend(a: string, b: string, c: string)
    ensures Lower(a + b + c) == Lower(a) + Lower(b) + Lower(c)
  {
    var l := Lower(a) + Lower(b) + Lower(c);
    assert forall i :: 0 <= i < |a + b + c| ==> l[i] == LowerChar((a + b + c)[i]);
  }

  /** The substitution works character by character, so it distributes over concatenation. */
  lemma {:induction false} UnderscoredAppend(s: string, t: string)
    ensures Underscored(s + t) == Underscored(s) + Underscored(t)
  {
    if |t| > 0 {
      var c := t[|t| - 1];
      UnderscoredAppend(s, t[..|t| - 1]);
      assert (s + t)[..|s + t| - 1] == s + t[..|t| - 1];
    } else {
      assert s + t == s;
    }
  }

  /**
   * `_snake_caseify_dict`, the dict comprehension: each key snake-cased in
   * order; when two keys snake-case alike the later value wins at the place
   * of the earlier key.
   */
  function SnakeDict<V>(d: Dict<V>): Dict<V>
  {
    if |d| == 0 then [] else Set(SnakeDict(d[..|d| - 1]), SnakeCase(d[|d| - 1].0), d[|d| - 1].1)
  }

  /** The snake-cased dictionary has unique keys. */
  lemma {:induction false} SnakeDictDistinct<V>(d: Dict<V>)
    ensures DistinctKeys(SnakeDict(d))
  {
    if |d| > 0 {
      SnakeDictDistinct(d[..|d| - 1]);
      SetKeys(SnakeDict(d[..|d| - 1]), SnakeCase(d[|d| - 1].0), d[|d| - 1].1);
    }
  }

  /** The snake-cased dictionary has exactly the snake-cased keys of the input. */
  lemma {:induction false} SnakeDictKeys<V>(d: Dict<V>, x: string)
    ensures HasKey(SnakeDict(d), x) <==> exists i :: 0 <= i < |d| && SnakeCase(d[i].0) == x
  {
    if |d| > 0 {
      var init := d[..|d| - 1];
      var last := d[|d| - 1];
      SnakeDictKeys(init, x);
      GetSet(SnakeDict(init), SnakeCase(last.0), last.1, x);
      if exists i :: 0 <= i < |d| && SnakeCase(d[i].0) == x {
        var i :| 0 <= i < |d| && SnakeCase(d[i].0) == x;
        if i < |d| - 1 {
          assert init[i] == d[i];
        }
      }
      if HasKey(SnakeDict(init), x) {
        var i :| 0 <= i < |init| && SnakeCase(init[i].0) == x;
        assert d[i] == init[i];
      }
    }
  }

  /** A dictionary whose keys have no capitals comes back as it was. */
  lemma {:induction false} SnakeDictIdentity<V>(d: Dict<V>)
    requires DistinctKeys(d)
    requires forall i :: 0 <= i < |d| ==> NoCapitals(d[i].0)
    ensures SnakeDict(d) == d
  {
    if |d| > 0 {
      var init := d[..|d| - 1];
      var last := d[|d| - 1];
      assert SnakeDict(init) == init by {
        DistinctInit(d);
        assert forall i :: 0 <= i < |init| ==> init[i] == d[i];
        SnakeDictIdentity(init);
      }
      assert SnakeCase(last.0) == last.0 by {
        SnakeCaseKeeps(last.0);
      }
      assert Set(init, last.0, last.1) == d by {
        DistinctInit(d);
        SetAbsent(init, last.0, last.1);
        assert init + [last] == d;
      }
    }
  }
}
