/**
 * The SDK package recipe (SDK/conanfile.py): a two-dependency variant of the
 * plugin recipe's option coupling, the same compiler whitelist, and the
 * packaged license file made of the NOTICE lines followed by the LICENSE
 * lines.
 */
module SdkConan {
  import opened Common
  import Conan

  /** The SDK recipe's own `VALID_MAX_CONFIGS`. */
  const ValidMaxConfigs: map<(string, string), set<string>> :=
    map[("Visual Studio", "15") := {"2022"}, ("Visual Studio", "16") := {"2023"}]

  const DefaultMaxVersion: string := "2023"

  /** A build variant of the SDK package: only maxsdk and thinkboxmxlibrary are coupled. */
  datatype SdkVariant = SdkVariant(
    maxVersion: Option<string>, maxsdk: Option<string>, thinkboxmxlibrary: Option<string>,
    compiler: string, compilerVersion: string)

  /** `validate`: `None` when accepted, else the first error raised. */
  function Validate(v: SdkVariant): (r: Option<Conan.ValidateError>)
    ensures r.None? <==>
      v.maxsdk == v.maxVersion && v.thinkboxmxlibrary == v.maxVersion &&
      (v.compiler, v.compilerVersion) in ValidMaxConfigs &&
      Conan.OptionText(v.maxVersion) in ValidMaxConfigs[(v.compiler, v.compilerVersion)]
    ensures v.maxVersion != v.maxsdk ==> r == Some(Conan.MismatchWith("maxsdk"))
    ensures v.maxVersion == v.maxsdk && v.maxVersion != v.thinkboxmxlibrary ==>
      r == Some(Conan.MismatchWith("thinkboxmxlibrary"))
  {
    if v.maxVersion != v.maxsdk then Some(Conan.MismatchWith("maxsdk"))
    else if v.maxVersion != v.thinkboxmxlibrary then Some(Conan.MismatchWith("thinkboxmxlibrary"))
    else
      var key := (v.compiler, v.compilerVersion);
      if key !in ValidMaxConfigs then Some(Conan.UnknownCompiler(v.compiler, v.compilerVersion))
      else if Conan.OptionText(v.maxVersion) !in ValidMaxConfigs[key] then
        Some(Conan.NotValidFor(v.compiler, v.compilerVersion, Conan.OptionText(v.maxVersion)))
      else None
  }

  /**
   * The SDK recipe accepts a coupled variant exactly when the plugin recipe
   * accepts the same compiler and 3ds Max version with all four of its
   * dependencies coupled: both consult the same two-entry matrix and fail
   * the same way.
   */
  lemma SameCompilerRule(v: SdkVariant)
    requires v.maxsdk == v.maxVersion && v.thinkboxmxlibrary == v.maxVersion
    ensures Validate(v) == Conan.Validate(Conan.Variant(v.maxVersion,
      Conan.DependencyOptions(v.maxVersion, v.maxVersion, v.maxVersion, v.maxVersion),
      v.compiler, v.compilerVersion))
  {
    assert ValidMaxConfigs == Conan.ValidMaxConfigs;
  }

  /** The recipe object; `configure` assigns the option fields in place. */
  class SdkRecipe {
    var maxVersion: Option<string>
    var maxsdk: Option<string>
    var thinkboxmxlibrary: Option<string>
    var compiler: string
    var compilerVersion: string

    constructor (v: SdkVariant)
      ensures Snapshot() == v
    {
      maxVersion := v.maxVersion;
      maxsdk := v.maxsdk;
      thinkboxmxlibrary := v.thinkboxmxlibrary;
      compiler := v.compiler;
      compilerVersion := v.compilerVersion;
    }

    function Snapshot(): SdkVariant
      reads this
    {
      SdkVariant(maxVersion, maxsdk, thinkboxmxlibrary, compiler, compilerVersion)
    }

    /** `configure`: default the option to 2023, then copy it to both coupled dependencies. */
    method Configure()
      modifies this
      ensures old(maxVersion).None? ==> maxVersion == Some(DefaultMaxVersion)
      ensures old(maxVersion).Some? ==> maxVersion == old(maxVersion)
      ensures maxsdk == maxVersion && thinkboxmxlibrary == maxVersion
      ensures compiler == old(compiler) && compilerVersion == old(compilerVersion)
      ensures Validate(Snapshot()).None? <==>
        (compiler, compilerVersion) in ValidMaxConfigs &&
        Conan.OptionText(maxVersion) in ValidMaxConfigs[(compiler, compilerVersion)]
    {
      if maxVersion == None {
        maxVersion := Some(DefaultMaxVersion);
      }
      maxsdk := maxVersion;
      thinkboxmxlibrary := maxVersion;
    }
  }

  // ---------------------------------------------------------------------------
  // The packaged license file
  // ---------------------------------------------------------------------------

  /** Length of the first line of `s`: up to and including the first newline, or all of `s`. */
  function LineLength(s: string): (n: nat)
    requires |s| > 0
    ensures 1 <= n <= |s|
    ensures forall k :: 0 <= k < n - 1 ==> s[k] != '\n'
    ensures n < |s| ==> s[n - 1] == '\n'
    decreases |s|
  {
    if s[0] == '\n' || |s| == 1 then 1 else 1 + LineLength(s[1..])
  }

  /** Python's `readlines()`: the lines of the text, each keeping its newline. */
  function ReadLines(s: string): (lines: seq<string>)
    decreases |s|
  {
    if |s| == 0 then [] else
      var n := LineLength(s);
      [s[..n]] + ReadLines(s[n..])
  }

  /** Writing back the lines that were read reproduces the text. */
  lemma {:induction false} ReadLinesRoundTrip(s: string)
    ensures Concat(ReadLines(s)) == s
    decreases |s|
  {
    if |s| > 0 {
      var n := LineLength(s);
      ReadLinesRoundTrip(s[n..]);
      assert ReadLines(s)[1..] == ReadLines(s[n..]);
      assert s == s[..n] + s[n..];
    }
  }

  /**
   * Every line read is non-empty; a newline occurs only as its last
   * character; and every line but the last ends in one.
   */
  lemma {:induction false} ReadLinesShape(s: string)
    ensures forall i :: 0 <= i < |ReadLines(s)| ==> |ReadLines(s)[i]| > 0
    ensures forall i, k :: 0 <= i < |ReadLines(s)| && 0 <= k < |ReadLines(s)[i]| - 1 ==> ReadLines(s)[i][k] != '\n'
    ensures forall i :: 0 <= i < |ReadLines(s)| - 1 ==> ReadLines(s)[i][|ReadLines(s)[i]| - 1] == '\n'
    decreases |s|
  {
    if |s| > 0 {
      var n := LineLength(s);
      ReadLinesShape(s[n..]);
      var L := ReadLines(s);
      assert L[1..] == ReadLines(s[n..]);
      forall i | 0 <= i < |L| - 1
        ensures L[i][|L[i]| - 1] == '\n'
      {
        if i == 0 {
          assert |ReadLines(s[n..])| > 0;
          assert n < |s|;
        } else {
          assert L[i] == ReadLines(s[n..])[i - 1];
        }
      }
      forall i, k | 0 <= i < |L| && 0 <= k < |L[i]| - 1
        ensures L[i][k] != '\n'
      {
        if i > 0 {
          assert L[i] == ReadLines(s[n..])[i - 1];
        }
      }
    }
  }

  /** `package`: `writelines` of the NOTICE lines and then of the LICENSE lines into one file. */
  method PackageLicense(notice: string, license: string) returns (out: string)
    ensures out == notice + license
  {
    var noticeLines := ReadLines(notice);
    var licenseLines := ReadLines(license);
    var lines := noticeLines + licenseLines;
    out := "";
    var i := 0;
    while i < |lines|
      invariant 0 <= i <= |lines|
      invariant out == Concat(lines[..i])
    {
      assert lines[..i + 1] == lines[..i] + [lines[i]];
      ConcatAppend(lines[..i], [lines[i]]);
      assert Concat([lines[i]]) == lines[i];
      out := out + lines[i];
      i := i + 1;
    }
    assert lines[..i] == lines;
    ConcatAppend(noticeLines, licenseLines);
    ReadLinesRoundTrip(notice);
    ReadLinesRoundTrip(license);
  }
}
