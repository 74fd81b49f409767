/**
 * How both generations spell kaniko command-line flags: `--name=value`
 * settings taken from an ordered dictionary, and `--build-arg value` pairs.
 */
module KanikoFlags {
  import opened Wrappers
  import opened Json

  /** `--{name}={value}`. */
  function Flag(name: string, value: string): (f: string)
    ensures |f| == |name| + |value| + 3
    ensures f[..2] == "--" && f[2..2 + |name|] == name && f[2 + |name|] == '=' && f[3 + |name|..] == value
  {
    "--" + name + "=" + value
  }

  /** The flag of one setting; a setting whose value is None gives none. */
  function SettingFlag(setting: (string, Option<string>)): seq<string>
  {
    if setting.1.Some? then [Flag(setting.0, setting.1.value)] else []
  }

  /** `[f"--{k}={v}" for k, v in settings.items() if v is not None]`. */
  function Flags(settings: Dict<Option<string>>): (r: seq<string>)
    ensures |r| <= |settings|
  {
    if |settings| == 0 then [] else SettingFlag(settings[0]) + Flags(settings[1..])
  }

  lemma {:induction false} FlagsAppend(d: Dict<Option<string>>, e: Dict<Option<string>>)
    ensures Flags(d + e) == Flags(d) + Flags(e)
  {
    if |d| == 0 {
      assert d + e == e;
    } else {
      assert (d + e)[1..] == d[1..] + e;
      FlagsAppend(d[1..], e);
    }
  }

  /**
   * Every setting with a value contributes its flag, and every flag comes
   * from such a setting.
   */
  lemma {:induction false} FlagsOfSettings(d: Dict<Option<string>>)
    ensures forall i :: 0 <= i < |d| && d[i].1.Some? ==> Flag(d[i].0, d[i].1.value) in Flags(d)
    ensures forall f :: f in Flags(d) ==> exists i :: 0 <= i < |d| && d[i].1.Some? && f == Flag(d[i].0, d[i].1.value)
  {
    if |d| > 0 {
      FlagsOfSettings(d[1..]);
      assert forall i :: 1 <= i < |d| ==> d[i] == d[1..][i - 1];
      forall f | f in Flags(d) ensures exists i :: 0 <= i < |d| && d[i].1.Some? && f == Flag(d[i].0, d[i].1.value) {
        if f !in SettingFlag(d[0]) {
          var j :| 0 <= j < |d[1..]| && d[1..][j].1.Some? && f == Flag(d[1..][j].0, d[1..][j].1.value);
          assert d[j + 1] == d[1..][j];
        }
      }
    }
  }

  /** The same flag for each of `values`, in order. */
  function FlagEach(name: string, values: seq<string>): (r: seq<string>)
    ensures |r| == |values|
    ensures forall i :: 0 <= i < |values| ==> r[i] == Flag(name, values[i])
  {
    seq(|values|, i requires 0 <= i < |values| => Flag(name, values[i]))
  }

  /** `--build-arg` followed by its value, for each build argument in order. */
  function BuildArgPairs(buildArgs: seq<string>): (r: seq<string>)
    ensures |r| == 2 * |buildArgs|
    ensures forall i :: 0 <= i < |buildArgs| ==> r[2 * i] == "--build-arg" && r[2 * i + 1] == buildArgs[i]
  {
    if |buildArgs| == 0 then []
    else BuildArgPairs(buildArgs[..|buildArgs| - 1]) + ["--build-arg", buildArgs[|buildArgs| - 1]]
  }

  /** Where a run of `FlagEach` flags sits inside a longer argument list, each flag is at its offset. */
  lemma FlagEachAt(args: seq<string>, h: nat, name: string, values: seq<string>)
    requires h + |values| <= |args| && args[h..h + |values|] == FlagEach(name, values)
    ensures forall i :: 0 <= i < |values| ==> args[h + i] == Flag(name, values[i])
  {
    forall i | 0 <= i < |values|
      ensures args[h + i] == Flag(name, values[i])
    {
      assert args[h + i] == args[h..h + |values|][i];
    }
  }

  /** Where the `BuildArgPairs` end an argument list, each value follows its `--build-arg`. */
  lemma BuildArgPairsAt(args: seq<string>, h: nat, buildArgs: seq<string>)
    requires h <= |args| && args[h..] == BuildArgPairs(buildArgs)
    ensures forall i :: 0 <= i < |buildArgs| ==> args[h + 2 * i] == "--build-arg" && args[h + 2 * i + 1] == buildArgs[i]
  {
    forall i | 0 <= i < |buildArgs|
      ensures args[h + 2 * i] == "--build-arg" && args[h + 2 * i + 1] == buildArgs[i]
    {
      assert args[h + 2 * i] == args[h..][2 * i];
      assert args[h + 2 * i + 1] == args[h..][2 * i + 1];
    }
  }
}
