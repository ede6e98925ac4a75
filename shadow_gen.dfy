/**
 * Krakatoa Shadows (src/MaxKrakatoaShadowGenerator.cpp): the `strmatch`
 * comparison, the `$renderdir` / `$objectname` macro expansion of the
 * shadow save path, and how `CreateShadowGenerator` lays out its delegate
 * generators.
 *
 * Strings are C strings: the parameter block path, the node name and the
 * render file name never hold a NUL character. The directory of the render
 * file is computed by a function passed in.
 */
module ShadowGen {
  import opened Common

  const RenderDirMacro: string := "$renderdir"
  const ObjectNameMacro: string := "$objectname"

  /** The default of the ShadowSavePath parameter. */
  const DefaultSavePath: string := "$renderdir\\Shadows\\$objectname_0000.exr"

  predicate CString(s: string)
  {
    forall i :: 0 <= i < |s| ==> s[i] != '\0'
  }

  predicate StartsWith(s: string, p: string)
  {
    |p| <= |s| && s[..|p|] == p
  }

  /**
   * `strmatch`: walk both strings until either ends (a match) or two
   * characters differ (no match); so one of them is a prefix of the other.
   */
  method StrMatch(left: string, right: string) returns (r: bool)
    requires CString(left) && CString(right)
    ensures r <==> StartsWith(left, right) || StartsWith(right, left)
  {
    var i := 0;
    while true
      invariant 0 <= i <= |left| && i <= |right|
      invariant left[..i] == right[..i]
      decreases |left| - i
    {
      if i == |left| || i == |right| {
        assert left[..i] == left || right[..i] == right;
        return true;
      }
      if left[i] != right[i] {
        assert !StartsWith(left, right) by {
          if |right| <= |left| {
            assert left[..|right|][i] != right[i];
          }
        }
        assert !StartsWith(right, left) by {
          if |left| <= |right| {
            assert right[..|left|][i] != left[i];
          }
        }
        return false;
      }
      assert left[..i + 1] == left[..i] + [left[i]];
      assert right[..i + 1] == right[..i] + [right[i]];
      i := i + 1;
    }
  }

  /** `find(c, from)`: the first position at or after `from` that holds c. */
  function Find(s: string, c: char, from: nat): (r: Option<nat>)
    ensures r.Some? ==> from <= r.value < |s|
    decreases |s| - from
  {
    if from >= |s| then None else if s[from] == c then Some(from) else Find(s, c, from + 1)
  }

  /** What `find` finds holds c, and nothing between `from` and it (or the end) does. */
  lemma {:induction false} FindFirst(s: string, c: char, from: nat)
    ensures var r := Find(s, c, from);
      (r.Some? ==> s[r.value] == c) &&
      (forall i :: from <= i < |s| && (r.None? || i < r.value) ==> s[i] != c)
    decreases |s| - from
  {
    if from < |s| && s[from] != c {
      FindFirst(s, c, from + 1);
    }
  }

  /** No text begins with both macros. */
  lemma MacrosExclusive(m: string)
    ensures !(StartsWith(m, RenderDirMacro) && StartsWith(m, ObjectNameMacro))
  {
    if StartsWith(m, RenderDirMacro) {
      assert m[..|RenderDirMacro|][1] == 'r';
      if |ObjectNameMacro| <= |m| {
        assert m[..|ObjectNameMacro|][1] == m[1];
      }
    }
  }

  lemma {:induction false} FindAt(s: string, c: char, from: nat, at: nat)
    requires from <= at < |s| && s[at] == c && c !in s[from..at]
    ensures Find(s, c, from) == Some(at)
    decreases at - from
  {
    if from < at {
      assert s[from..at][0] == s[from];
      assert s[from + 1..at] == s[from..at][1..];
      FindAt(s, c, from + 1, at);
    }
  }

  lemma {:induction false} FindNone(s: string, c: char, from: nat)
    requires from <= |s| && c !in s[from..]
    ensures Find(s, c, from).None?
    decreases |s| - from
  {
    if from < |s| {
      assert s[from..][0] == s[from];
      assert s[from + 1..] == s[from..][1..];
      FindNone(s, c, from + 1);
    }
  }

  /** On a text that begins with one of the macros, `strmatch` against a macro is "begins with it". */
  lemma MatchIsMacro(m: string)
    requires StartsWith(m, RenderDirMacro) || StartsWith(m, ObjectNameMacro)
    ensures StartsWith(m, RenderDirMacro) || StartsWith(RenderDirMacro, m) <==> StartsWith(m, RenderDirMacro)
    ensures StartsWith(m, ObjectNameMacro) || StartsWith(ObjectNameMacro, m) <==> StartsWith(m, ObjectNameMacro)
  {
    if StartsWith(m, RenderDirMacro) {
      assert m[..|RenderDirMacro|][1] == 'r';
      assert !StartsWith(ObjectNameMacro, m);
    } else {
      assert m[..|ObjectNameMacro|][1] == 'o';
      assert !StartsWith(RenderDirMacro, m);
    }
  }

  lemma MacrosAreCStrings()
    ensures CString(RenderDirMacro) && CString(ObjectNameMacro)
  {
  }

  /**
   * `sizeof(_T(macro)) - 1`: the byte size of the literal with its
   * terminator, less one. For one-byte characters that is the macro's length.
   */
  function LiteralSkip(macro: string, charSize: nat): (n: nat)
    requires charSize == 1 || charSize == 2
    ensures n == charSize * (|macro| + 1) - 1
  {
    if charSize == 1 then |macro| else 2 * |macro| + 1
  }

  /**
   * The scan from `prev` always meets a '$' that begins a complete
   * `$renderdir` or `$objectname`, and no skip runs past the end of the
   * path. Otherwise the source loops forever (a '$' that begins neither macro)
   * or reads past the end (a macro cut short by the end of the path).
   */
  predicate ScanOk(raw: string, prev: nat, renderSkip: nat, objectSkip: nat)
    decreases |raw| - prev
  {
    prev <= |raw| &&
    var n := Find(raw, '$', prev);
    n.None? ||
    (StartsWith(raw[n.value..], RenderDirMacro) && 0 < renderSkip && n.value + renderSkip <= |raw| &&
     ScanOk(raw, n.value + renderSkip, renderSkip, objectSkip)) ||
    (StartsWith(raw[n.value..], ObjectNameMacro) && 0 < objectSkip && n.value + objectSkip <= |raw| &&
     ScanOk(raw, n.value + objectSkip, renderSkip, objectSkip))
  }

  function RenderPathError(raw: string): string
  {
    "MaxKrakatoaShadowGenerator::GetRealSavePath() Unable to substitute render output path in \"" + raw + "\""
  }

  /**
   * The directory substituted for `$renderdir`: that of the render output
   * file, or none when the render path is null or empty.
   */
  function RenderDir(renderPathName: Option<string>, dirOf: string -> string): (d: Option<string>)
    ensures d.None? <==> renderPathName.None? || renderPathName.value == ""
    ensures d.Some? ==> d.value == dirOf(renderPathName.value)
  {
    if renderPathName.None? || renderPathName.value == "" then None else Some(dirOf(renderPathName.value))
  }

  /**
   * The scan from `prev` with `acc` already in the stream: the text before
   * the next '$', then the render directory or the node name, and the scan
   * after skipping the given number of positions; the tail when no '$' is
   * left. A `$renderdir` without a render directory is an error.
   */
  function Scan(raw: string, prev: nat, acc: string, renderDir: Option<string>, nodeName: string,
                renderSkip: nat, objectSkip: nat): Result<string>
    requires ScanOk(raw, prev, renderSkip, objectSkip)
    decreases |raw| - prev
  {
    var n := Find(raw, '$', prev);
    if n.None? then Ok(acc + raw[prev..])
    else
    MacrosExclusive(raw[n.value..]);
    if StartsWith(raw[n.value..], RenderDirMacro) then
      if renderDir.None? then Err(RenderPathError(raw))
      else Scan(raw, n.value + renderSkip, acc + (raw[prev..n.value] + renderDir.value), renderDir, nodeName,
                renderSkip, objectSkip)
    else
      Scan(raw, n.value + objectSkip, acc + (raw[prev..n.value] + nodeName), renderDir, nodeName,
           renderSkip, objectSkip)
  }

  /** A '$' the scan meets begins one of the macros. */
  lemma StepMacro(raw: string, prev: nat, n: nat, renderSkip: nat, objectSkip: nat)
    requires ScanOk(raw, prev, renderSkip, objectSkip) && Find(raw, '$', prev) == Some(n)
    ensures StartsWith(raw[n..], RenderDirMacro) || StartsWith(raw[n..], ObjectNameMacro)
  {
  }

  /** A `$renderdir` with a render directory: the directory, then the scan after the skip. */
  lemma ScanRender(raw: string, prev: nat, n: nat, acc: string, renderDir: Option<string>, nodeName: string,
                   renderSkip: nat, objectSkip: nat)
    requires ScanOk(raw, prev, renderSkip, objectSkip) && Find(raw, '$', prev) == Some(n)
    requires StartsWith(raw[n..], RenderDirMacro) && renderDir.Some?
    ensures prev <= n && 0 < renderSkip && n + renderSkip <= |raw| && ScanOk(raw, n + renderSkip, renderSkip, objectSkip)
    ensures Scan(raw, prev, acc, renderDir, nodeName, renderSkip, objectSkip) ==
      Scan(raw, n + renderSkip, acc + (raw[prev..n] + renderDir.value), renderDir, nodeName, renderSkip, objectSkip)
  {
    MacrosExclusive(raw[n..]);
  }

  /** A `$renderdir` without a render directory: the error. */
  lemma ScanRenderError(raw: string, prev: nat, n: nat, acc: string, nodeName: string,
                        renderSkip: nat, objectSkip: nat)
    requires ScanOk(raw, prev, renderSkip, objectSkip) && Find(raw, '$', prev) == Some(n)
    requires StartsWith(raw[n..], RenderDirMacro)
    ensures Scan(raw, prev, acc, None, nodeName, renderSkip, objectSkip) == Err(RenderPathError(raw))
  {
  }

  /** An `$objectname`: the node name, then the scan after the skip. */
  lemma ScanObject(raw: string, prev: nat, n: nat, acc: string, renderDir: Option<string>, nodeName: string,
                   renderSkip: nat, objectSkip: nat)
    requires ScanOk(raw, prev, renderSkip, objectSkip) && Find(raw, '$', prev) == Some(n)
    requires !StartsWith(raw[n..], RenderDirMacro)
    ensures prev <= n && 0 < objectSkip && n + objectSkip <= |raw| && ScanOk(raw, n + objectSkip, renderSkip, objectSkip)
    ensures Scan(raw, prev, acc, renderDir, nodeName, renderSkip, objectSkip) ==
      Scan(raw, n + objectSkip, acc + (raw[prev..n] + nodeName), renderDir, nodeName, renderSkip, objectSkip)
  {
  }

  lemma MacroAt(raw: string, prev: nat, at: nat, renderSkip: nat, objectSkip: nat)
    requires CString(raw) && ScanOk(raw, prev, renderSkip, objectSkip) && Find(raw, '$', prev) == Some(at)
    ensures CString(raw[at..]) && CString(RenderDirMacro) && CString(ObjectNameMacro)
    ensures StartsWith(raw[at..], RenderDirMacro) || StartsWith(RenderDirMacro, raw[at..]) <==> StartsWith(raw[at..], RenderDirMacro)
    ensures !StartsWith(raw[at..], RenderDirMacro) ==> StartsWith(raw[at..], ObjectNameMacro) || StartsWith(ObjectNameMacro, raw[at..])
  {
    StepMacro(raw, prev, at, renderSkip, objectSkip);
    MatchIsMacro(raw[at..]);
    MacrosAreCStrings();
  }

  /** The render path, or "" for a null one. */
  function OrEmpty(s: Option<string>): string
  {
    if s.Some? then s.value else ""
  }

  /**
   * One turn of the loop of `GetRealSavePath`, at the '$' found at `at`:
   * `$renderdir` appends the text before it and the render directory (an
   * error without one), `$objectname` the text before it and the node name;
   * the scan then resumes after the skip.
   */
  method ExpandAt(rawPath: string, prev: nat, at: nat, ss: string, renderDir: Option<string>, name: string,
                  renderSkip: nat, objectSkip: nat)
    returns (failed: bool, ss': string, prev': nat)
    requires CString(rawPath) && ScanOk(rawPath, prev, renderSkip, objectSkip)
    requires Find(rawPath, '$', prev) == Some(at)
    ensures failed ==> Scan(rawPath, prev, ss, renderDir, name, renderSkip, objectSkip) == Err(RenderPathError(rawPath))
    ensures !failed ==> (prev < prev' <= |rawPath| && ScanOk(rawPath, prev', renderSkip, objectSkip) &&
      Scan(rawPath, prev', ss', renderDir, name, renderSkip, objectSkip) ==
      Scan(rawPath, prev, ss, renderDir, name, renderSkip, objectSkip))
  {
    MacroAt(rawPath, prev, at, renderSkip, objectSkip);
    failed, ss', prev' := false, ss, prev;
    var isRender := StrMatch(rawPath[at..], RenderDirMacro);
    if isRender {
      if renderDir.None? {
        ScanRenderError(rawPath, prev, at, ss, name, renderSkip, objectSkip);
        return true, ss, prev;
      }
      ScanRender(rawPath, prev, at, ss, renderDir, name, renderSkip, objectSkip);
      ss' := ss + (rawPath[prev..at] + renderDir.value);
      prev' := at + renderSkip;
    } else {
      var isObject := StrMatch(rawPath[at..], ObjectNameMacro);
      if isObject {
        ScanObject(rawPath, prev, at, ss, renderDir, name, renderSkip, objectSkip);
        ss' := ss + (rawPath[prev..at] + name);
        prev' := at + objectSkip;
      } else {
        assert false;
      }
    }
  }

  /** The loop state of `ExpandMacros`: the scan from `prev` after `ss` is the whole scan. */
  ghost predicate Expanding(raw: string, prev: nat, ss: string, renderDir: Option<string>, name: string,
                            renderSkip: nat, objectSkip: nat)
  {
    ScanOk(raw, 0, renderSkip, objectSkip) && ScanOk(raw, prev, renderSkip, objectSkip) &&
    Scan(raw, prev, ss, renderDir, name, renderSkip, objectSkip) == Scan(raw, 0, "", renderDir, name, renderSkip, objectSkip)
  }

  lemma ExpandingStep(raw: string, prev: nat, ss: string, prev': nat, ss': string, renderDir: Option<string>,
                      name: string, renderSkip: nat, objectSkip: nat)
    requires Expanding(raw, prev, ss, renderDir, name, renderSkip, objectSkip)
    requires ScanOk(raw, prev', renderSkip, objectSkip)
    requires Scan(raw, prev', ss', renderDir, name, renderSkip, objectSkip) ==
      Scan(raw, prev, ss, renderDir, name, renderSkip, objectSkip)
    ensures Expanding(raw, prev', ss', renderDir, name, renderSkip, objectSkip)
  {
  }

  lemma ExpandingFails(raw: string, prev: nat, ss: string, renderDir: Option<string>,
                       name: string, renderSkip: nat, objectSkip: nat)
    requires Expanding(raw, prev, ss, renderDir, name, renderSkip, objectSkip)
    requires Scan(raw, prev, ss, renderDir, name, renderSkip, objectSkip) == Err(RenderPathError(raw))
    ensures Scan(raw, 0, "", renderDir, name, renderSkip, objectSkip) == Err(RenderPathError(raw))
  {
  }

  lemma ExpandingEnd(raw: string, prev: nat, ss: string, renderDir: Option<string>,
                     name: string, renderSkip: nat, objectSkip: nat)
    requires prev <= |raw| && Expanding(raw, prev, ss, renderDir, name, renderSkip, objectSkip)
    requires Find(raw, '$', prev).None?
    ensures ScanOk(raw, 0, renderSkip, objectSkip)
    ensures Scan(raw, 0, "", renderDir, name, renderSkip, objectSkip) == Ok(ss + raw[prev..])
  {
    ScanEnd(raw, prev, ss, renderDir, name, renderSkip, objectSkip);
  }

  /**
   * The loop of `GetRealSavePath`: expand the macros of `rawPath`, skipping
   * the given number of positions after each one.
   */
  method ExpandMacros(rawPath: string, renderDir: Option<string>, name: string, renderSkip: nat, objectSkip: nat)
    returns (r: Result<string>)
    requires CString(rawPath) && ScanOk(rawPath, 0, renderSkip, objectSkip)
    ensures r == Scan(rawPath, 0, "", renderDir, name, renderSkip, objectSkip)
  {
    var ss := "";
    var prev := 0;
    var next := Find(rawPath, '$', prev);
    while next.Some?
      invariant prev <= |rawPath| && Expanding(rawPath, prev, ss, renderDir, name, renderSkip, objectSkip)
      invariant next == Find(rawPath, '$', prev)
      decreases |rawPath| - prev
    {
      var failed, ss', prev' := ExpandAt(rawPath, prev, next.value, ss, renderDir, name, renderSkip, objectSkip);
      if failed {
        ExpandingFails(rawPath, prev, ss, renderDir, name, renderSkip, objectSkip);
        return Err(RenderPathError(rawPath));
      }
      ExpandingStep(rawPath, prev, ss, prev', ss', renderDir, name, renderSkip, objectSkip);
      ss, prev := ss', prev';
      next := Find(rawPath, '$', prev);
    }
    ExpandingEnd(rawPath, prev, ss, renderDir, name, renderSkip, objectSkip);
    r := Ok(ss + rawPath[prev..]);
  }

  /**
   * `GetRealSavePath`: a null render path or node name counts as empty;
   * the skip after each macro is `sizeof(_T(macro)) - 1`, where `charSize`
   * is the size of the build's character type.
   */
  method GetRealSavePath(rawPath: string, renderPathName: Option<string>, nodeName: Option<string>,
                         dirOf: string -> string, charSize: nat)
    returns (r: Result<string>)
    requires charSize == 1 || charSize == 2
    requires CString(rawPath)
    requires ScanOk(rawPath, 0, LiteralSkip(RenderDirMacro, charSize), LiteralSkip(ObjectNameMacro, charSize))
    ensures r == Scan(rawPath, 0, "", RenderDir(renderPathName, dirOf), OrEmpty(nodeName),
                      LiteralSkip(RenderDirMacro, charSize), LiteralSkip(ObjectNameMacro, charSize))
  {
    var renderDir := RenderDir(renderPathName, dirOf);
    var name := OrEmpty(nodeName);
    r := ExpandMacros(rawPath, renderDir, name, LiteralSkip(RenderDirMacro, charSize), LiteralSkip(ObjectNameMacro, charSize));
  }

  // ---------------------------------------------------------------------------
  // The intended expansion
  // ---------------------------------------------------------------------------

  function PrefixedOpt(s: string, r: Option<string>): Option<string>
  {
    if r.Some? then Some(s + r.value) else None
  }

  /**
   * Macro substitution read left to right: each `$renderdir` becomes the
   * render directory (none without one), each `$objectname` the node name,
   * and every other character is kept.
   */
  function Substitute(s: string, renderDir: Option<string>, nodeName: string): Option<string>
    decreases |s|
  {
    if |s| == 0 then Some("")
    else if StartsWith(s, RenderDirMacro) then
      if renderDir.None? then None
      else PrefixedOpt(renderDir.value, Substitute(s[|RenderDirMacro|..], renderDir, nodeName))
    else if StartsWith(s, ObjectNameMacro) then
      PrefixedOpt(nodeName, Substitute(s[|ObjectNameMacro|..], renderDir, nodeName))
    else
      PrefixedOpt([s[0]], Substitute(s[1..], renderDir, nodeName))
  }

  /** The expansion the source intends: the substitution, or the render path error. */
  function IntendedExpansion(raw: string, renderDir: Option<string>, nodeName: string): Result<string>
  {
    var r := Substitute(raw, renderDir, nodeName);
    if r.Some? then Ok(r.value) else Err(RenderPathError(raw))
  }

  /** Text without a '$' is copied unchanged by the substitution. */
  lemma {:induction false} SubstitutePlain(s: string, k: nat, renderDir: Option<string>, nodeName: string)
    requires k <= |s| && forall i :: 0 <= i < k ==> s[i] != '$'
    ensures Substitute(s, renderDir, nodeName) == PrefixedOpt(s[..k], Substitute(s[k..], renderDir, nodeName))
  {
    if k > 0 {
      assert !StartsWith(s, RenderDirMacro) && !StartsWith(s, ObjectNameMacro) by {
        assert s[0] != '$';
        if |RenderDirMacro| <= |s| { assert s[..|RenderDirMacro|][0] == s[0]; }
        if |ObjectNameMacro| <= |s| { assert s[..|ObjectNameMacro|][0] == s[0]; }
      }
      SubstitutePlain(s[1..], k - 1, renderDir, nodeName);
      assert s[1..][..k - 1] == s[1..k];
      assert s[1..][k - 1..] == s[k..];
      assert [s[0]] + s[1..k] == s[..k];
      var r := Substitute(s[k..], renderDir, nodeName);
      if r.Some? {
        assert [s[0]] + (s[1..k] + r.value) == s[..k] + r.value;
      }
    } else {
      assert s[..0] == "" && s[0..] == s;
      var r := Substitute(s, renderDir, nodeName);
      if r.Some? {
        assert "" + r.value == r.value;
      }
    }
  }

  /** Up to the next '$' the substitution copies the path. */
  lemma SubstituteUpTo(raw: string, prev: nat, at: nat, renderDir: Option<string>, nodeName: string)
    requires prev <= |raw| && Find(raw, '$', prev) == Some(at)
    ensures Substitute(raw[prev..], renderDir, nodeName) ==
      PrefixedOpt(raw[prev..at], Substitute(raw[at..], renderDir, nodeName))
  {
    var s := raw[prev..];
    FindFirst(raw, '$', prev);
    SubstitutePlain(s, at - prev, renderDir, nodeName);
    assert s[..at - prev] == raw[prev..at];
    assert s[at - prev..] == raw[at..];
  }

  /** Without a '$' left the substitution copies the rest of the path. */
  lemma SubstituteRest(raw: string, prev: nat, renderDir: Option<string>, nodeName: string)
    requires prev <= |raw| && Find(raw, '$', prev).None?
    ensures Substitute(raw[prev..], renderDir, nodeName) == Some(raw[prev..])
  {
    var s := raw[prev..];
    FindFirst(raw, '$', prev);
    SubstitutePlain(s, |s|, renderDir, nodeName);
    assert s[..|s|] == s && s[|s|..] == "" && s + "" == s;
  }

  /** At a `$renderdir` the substitution puts the render directory, if there is one. */
  lemma SubstituteRender(raw: string, at: nat, renderDir: Option<string>, nodeName: string)
    requires at <= |raw| && StartsWith(raw[at..], RenderDirMacro)
    ensures Substitute(raw[at..], renderDir, nodeName) ==
      if renderDir.None? then None
      else PrefixedOpt(renderDir.value, Substitute(raw[at + |RenderDirMacro|..], renderDir, nodeName))
  {
    assert raw[at..][|RenderDirMacro|..] == raw[at + |RenderDirMacro|..];
  }

  /** At a `$objectname` the substitution puts the node name. */
  lemma SubstituteObject(raw: string, at: nat, renderDir: Option<string>, nodeName: string)
    requires at <= |raw| && StartsWith(raw[at..], ObjectNameMacro)
    ensures Substitute(raw[at..], renderDir, nodeName) ==
      PrefixedOpt(nodeName, Substitute(raw[at + |ObjectNameMacro|..], renderDir, nodeName))
  {
    MacrosExclusive(raw[at..]);
    assert raw[at..][|ObjectNameMacro|..] == raw[at + |ObjectNameMacro|..];
  }

  /** `acc` followed by the substitution, or the render path error. */
  function Completed(acc: string, raw: string, sub: Option<string>): Result<string>
  {
    if sub.Some? then Ok(acc + sub.value) else Err(RenderPathError(raw))
  }

  lemma CompletedAssoc(acc: string, a: string, b: string, raw: string, sub: Option<string>)
    ensures Completed(acc + (a + b), raw, sub) == Completed(acc, raw, PrefixedOpt(a, PrefixedOpt(b, sub)))
  {
    if sub.Some? {
      assert acc + (a + b) + sub.value == acc + (a + (b + sub.value));
    }
  }

  /**
   * With a skip of exactly the macro's length, the scan from `prev` yields
   * `acc` followed by the substitution of the rest of the path, or the
   * render path error.
   */
  lemma {:induction false} ScanSubstitutes(raw: string, prev: nat, acc: string, renderDir: Option<string>,
                                           nodeName: string)
    requires ScanOk(raw, prev, |RenderDirMacro|, |ObjectNameMacro|)
    ensures Scan(raw, prev, acc, renderDir, nodeName, |RenderDirMacro|, |ObjectNameMacro|) ==
      Completed(acc, raw, Substitute(raw[prev..], renderDir, nodeName))
    decreases |raw| - prev, 1
  {
    var rs, os := |RenderDirMacro|, |ObjectNameMacro|;
    var n := Find(raw, '$', prev);
    if n.None? {
      SubstitutesEndStep(raw, prev, acc, renderDir, nodeName);
    } else {
      var at := n.value;
      StepMacro(raw, prev, at, rs, os);
      if StartsWith(raw[at..], RenderDirMacro) {
        if renderDir.Some? {
          SubstitutesRender(raw, prev, at, acc, renderDir, nodeName);
        } else {
          SubstitutesErrorStep(raw, prev, at, acc, nodeName);
        }
      } else {
        SubstitutesObject(raw, prev, at, acc, renderDir, nodeName);
      }
    }
  }

  /** `ScanSubstitutes` at a `$renderdir` with a render directory. */
  lemma {:induction false} SubstitutesRender(raw: string, prev: nat, at: nat, acc: string, renderDir: Option<string>,
                                             nodeName: string)
    requires ScanOk(raw, prev, |RenderDirMacro|, |ObjectNameMacro|) && Find(raw, '$', prev) == Some(at)
    requires StartsWith(raw[at..], RenderDirMacro) && renderDir.Some?
    ensures Scan(raw, prev, acc, renderDir, nodeName, |RenderDirMacro|, |ObjectNameMacro|) ==
      Completed(acc, raw, Substitute(raw[prev..], renderDir, nodeName))
    decreases |raw| - prev, 0
  {
    var rs, os := |RenderDirMacro|, |ObjectNameMacro|;
    ScanRender(raw, prev, at, acc, renderDir, nodeName, rs, os);
    ScanSubstitutes(raw, at + rs, acc + (raw[prev..at] + renderDir.value), renderDir, nodeName);
    SubstitutesRenderStep(raw, prev, at, acc, renderDir, nodeName);
  }

  /** `ScanSubstitutes` at a `$objectname`. */
  lemma {:induction false} SubstitutesObject(raw: string, prev: nat, at: nat, acc: string, renderDir: Option<string>,
                                             nodeName: string)
    requires ScanOk(raw, prev, |RenderDirMacro|, |ObjectNameMacro|) && Find(raw, '$', prev) == Some(at)
    requires !StartsWith(raw[at..], RenderDirMacro)
    ensures Scan(raw, prev, acc, renderDir, nodeName, |RenderDirMacro|, |ObjectNameMacro|) ==
      Completed(acc, raw, Substitute(raw[prev..], renderDir, nodeName))
    decreases |raw| - prev, 0
  {
    var rs, os := |RenderDirMacro|, |ObjectNameMacro|;
    StepMacro(raw, prev, at, rs, os);
    ScanObject(raw, prev, at, acc, renderDir, nodeName, rs, os);
    ScanSubstitutes(raw, at + os, acc + (raw[prev..at] + nodeName), renderDir, nodeName);
    SubstitutesObjectStep(raw, prev, at, acc, renderDir, nodeName);
  }

  /** No '$' left: both give the rest of the path. */
  lemma SubstitutesEndStep(raw: string, prev: nat, acc: string, renderDir: Option<string>, nodeName: string)
    requires ScanOk(raw, prev, |RenderDirMacro|, |ObjectNameMacro|) && Find(raw, '$', prev).None?
    ensures Scan(raw, prev, acc, renderDir, nodeName, |RenderDirMacro|, |ObjectNameMacro|) ==
      Completed(acc, raw, Substitute(raw[prev..], renderDir, nodeName))
  {
    SubstituteRest(raw, prev, renderDir, nodeName);
    ScanEnd(raw, prev, acc, renderDir, nodeName, |RenderDirMacro|, |ObjectNameMacro|);
  }

  /** The `$renderdir` step of `ScanSubstitutes`, given the claim for the rest of the path. */
  lemma SubstitutesRenderStep(raw: string, prev: nat, at: nat, acc: string, renderDir: Option<string>,
                              nodeName: string)
    requires ScanOk(raw, prev, |RenderDirMacro|, |ObjectNameMacro|) && Find(raw, '$', prev) == Some(at)
    requires StartsWith(raw[at..], RenderDirMacro) && renderDir.Some?
    requires at + |RenderDirMacro| <= |raw| && ScanOk(raw, at + |RenderDirMacro|, |RenderDirMacro|, |ObjectNameMacro|)
    requires Scan(raw, prev, acc, renderDir, nodeName, |RenderDirMacro|, |ObjectNameMacro|) ==
      Scan(raw, at + |RenderDirMacro|, acc + (raw[prev..at] + renderDir.value), renderDir, nodeName,
           |RenderDirMacro|, |ObjectNameMacro|)
    requires Scan(raw, at + |RenderDirMacro|, acc + (raw[prev..at] + renderDir.value), renderDir, nodeName,
                  |RenderDirMacro|, |ObjectNameMacro|) ==
      Completed(acc + (raw[prev..at] + renderDir.value), raw, Substitute(raw[at + |RenderDirMacro|..], renderDir, nodeName))
    ensures Scan(raw, prev, acc, renderDir, nodeName, |RenderDirMacro|, |ObjectNameMacro|) ==
      Completed(acc, raw, Substitute(raw[prev..], renderDir, nodeName))
  {
    SubstituteUpTo(raw, prev, at, renderDir, nodeName);
    SubstituteRender(raw, at, renderDir, nodeName);
    CompletedAssoc(acc, raw[prev..at], renderDir.value, raw, Substitute(raw[at + |RenderDirMacro|..], renderDir, nodeName));
  }

  /** A `$renderdir` without a render directory fails both the scan and the substitution. */
  lemma SubstitutesErrorStep(raw: string, prev: nat, at: nat, acc: string, nodeName: string)
    requires ScanOk(raw, prev, |RenderDirMacro|, |ObjectNameMacro|) && Find(raw, '$', prev) == Some(at)
    requires StartsWith(raw[at..], RenderDirMacro)
    ensures Scan(raw, prev, acc, None, nodeName, |RenderDirMacro|, |ObjectNameMacro|) ==
      Completed(acc, raw, Substitute(raw[prev..], None, nodeName))
  {
    SubstituteUpTo(raw, prev, at, None, nodeName);
    SubstituteRender(raw, at, None, nodeName);
    ScanRenderError(raw, prev, at, acc, nodeName, |RenderDirMacro|, |ObjectNameMacro|);
  }

  /** The `$objectname` step of `ScanSubstitutes`, given the claim for the rest of the path. */
  lemma SubstitutesObjectStep(raw: string, prev: nat, at: nat, acc: string, renderDir: Option<string>,
                              nodeName: string)
    requires ScanOk(raw, prev, |RenderDirMacro|, |ObjectNameMacro|) && Find(raw, '$', prev) == Some(at)
    requires !StartsWith(raw[at..], RenderDirMacro) && StartsWith(raw[at..], ObjectNameMacro)
    requires at + |ObjectNameMacro| <= |raw| && ScanOk(raw, at + |ObjectNameMacro|, |RenderDirMacro|, |ObjectNameMacro|)
    requires Scan(raw, prev, acc, renderDir, nodeName, |RenderDirMacro|, |ObjectNameMacro|) ==
      Scan(raw, at + |ObjectNameMacro|, acc + (raw[prev..at] + nodeName), renderDir, nodeName,
           |RenderDirMacro|, |ObjectNameMacro|)
    requires Scan(raw, at + |ObjectNameMacro|, acc + (raw[prev..at] + nodeName), renderDir, nodeName,
                  |RenderDirMacro|, |ObjectNameMacro|) ==
      Completed(acc + (raw[prev..at] + nodeName), raw, Substitute(raw[at + |ObjectNameMacro|..], renderDir, nodeName))
    ensures Scan(raw, prev, acc, renderDir, nodeName, |RenderDirMacro|, |ObjectNameMacro|) ==
      Completed(acc, raw, Substitute(raw[prev..], renderDir, nodeName))
  {
    SubstituteUpTo(raw, prev, at, renderDir, nodeName);
    SubstituteObject(raw, at, renderDir, nodeName);
    CompletedAssoc(acc, raw[prev..at], nodeName, raw, Substitute(raw[at + |ObjectNameMacro|..], renderDir, nodeName));
  }

  /** With one-byte characters `GetRealSavePath` performs the intended substitution. */
  lemma CorrectedSkipSubstitutes(raw: string, renderDir: Option<string>, nodeName: string)
    requires ScanOk(raw, 0, LiteralSkip(RenderDirMacro, 1), LiteralSkip(ObjectNameMacro, 1))
    ensures Scan(raw, 0, "", renderDir, nodeName, LiteralSkip(RenderDirMacro, 1), LiteralSkip(ObjectNameMacro, 1)) ==
      IntendedExpansion(raw, renderDir, nodeName)
  {
    ScanSubstitutes(raw, 0, "", renderDir, nodeName);
    assert raw[0..] == raw;
    var sub := Substitute(raw, renderDir, nodeName);
    if sub.Some? {
      assert "" + sub.value == sub.value;
    }
  }

  /** A path without a '$' comes back unchanged, whatever the skips. */
  lemma NoMacroUnchanged(raw: string, renderDir: Option<string>, nodeName: string, renderSkip: nat, objectSkip: nat)
    requires forall i :: 0 <= i < |raw| ==> raw[i] != '$'
    ensures ScanOk(raw, 0, renderSkip, objectSkip)
    ensures Scan(raw, 0, "", renderDir, nodeName, renderSkip, objectSkip) == Ok(raw)
  {
    assert raw[0..] == raw && "" + raw == raw;
    FindNone(raw, '$', 0);
  }

  lemma ScanOkRender(raw: string, prev: nat, n: nat, renderSkip: nat, objectSkip: nat)
    requires Find(raw, '$', prev) == Some(n) && StartsWith(raw[n..], RenderDirMacro)
    requires 0 < renderSkip && n + renderSkip <= |raw| && ScanOk(raw, n + renderSkip, renderSkip, objectSkip)
    ensures ScanOk(raw, prev, renderSkip, objectSkip)
  {
  }

  lemma ScanOkObject(raw: string, prev: nat, n: nat, renderSkip: nat, objectSkip: nat)
    requires Find(raw, '$', prev) == Some(n) && StartsWith(raw[n..], ObjectNameMacro)
    requires 0 < objectSkip && n + objectSkip <= |raw| && ScanOk(raw, n + objectSkip, renderSkip, objectSkip)
    ensures ScanOk(raw, prev, renderSkip, objectSkip)
  {
  }

  lemma ScanEnd(raw: string, prev: nat, acc: string, renderDir: Option<string>, nodeName: string,
                renderSkip: nat, objectSkip: nat)
    requires prev <= |raw| && Find(raw, '$', prev).None?
    ensures ScanOk(raw, prev, renderSkip, objectSkip)
    ensures Scan(raw, prev, acc, renderDir, nodeName, renderSkip, objectSkip) == Ok(acc + raw[prev..])
  {
  }

  /** After text without a '$', `find` stops at the '$' that follows it. */
  lemma FindJoin(u: string, v: string, from: nat)
    requires from <= |u| && '$' !in u[from..] && |v| > 0 && v[0] == '$'
    ensures Find(u + v, '$', from) == Some(|u|)
  {
    assert (u + v)[from..|u|] == u[from..];
    FindAt(u + v, '$', from, |u|);
  }

  lemma StartsWithJoin(p: string, w: string)
    ensures StartsWith(p + w, p)
  {
    assert (p + w)[..|p|] == p;
  }

  /** How the pieces of `a + r + b + o + c` sit in it. */
  lemma Regroup(a: string, r: string, b: string, o: string, c: string)
    ensures a + r + b + o + c == a + (r + (b + o + c))
    ensures a + r + b + o + c == (a + r + b) + (o + c)
    ensures (a + r + b + o + c)[|a|..] == r + (b + o + c)
    ensures (a + r + b)[|a| + |r|..] == b
    ensures (a + r + b + o + c)[|a| + |r| + |b|..] == o + c
    ensures (a + r + b + o + c)[|a| + |r| + |b| + |o|..] == c
    ensures (a + r + b + o + c)[0..|a|] == a
    ensures (a + r + b + o + c)[|a| + |r|..|a| + |r| + |b|] == b
  {
  }

  /** A macro after text without a '$': `find` stops at it, and the rest begins with it. */
  lemma MacroAfterPlain(u: string, m: string, w: string, from: nat)
    requires from <= |u| && '$' !in u[from..] && |m| > 0 && m[0] == '$'
    ensures Find(u + (m + w), '$', from) == Some(|u|) && StartsWith((u + (m + w))[|u|..], m)
  {
    FindJoin(u, m + w, from);
    assert (u + (m + w))[|u|..] == m + w;
    StartsWithJoin(m, w);
  }

  /* In `a + r + b + o + c`, with r and o beginning with '$' and no '$' in
     a, b or c, `find` meets exactly the '$'s of r and o. */

  lemma FirstDollar(a: string, r: string, b: string, o: string, c: string)
    requires '$' !in a && |r| > 0 && r[0] == '$'
    ensures var raw := a + r + b + o + c;
      Find(raw, '$', 0) == Some(|a|) && StartsWith(raw[|a|..], r) && raw[0..|a|] == a
  {
    Regroup(a, r, b, o, c);
    assert a[0..] == a;
    MacroAfterPlain(a, r, b + o + c, 0);
  }

  lemma SecondDollar(a: string, r: string, b: string, o: string, c: string)
    requires '$' !in b && |o| > 0 && o[0] == '$'
    ensures var raw := a + r + b + o + c;
      var j := |a| + |r| + |b|;
      Find(raw, '$', |a| + |r|) == Some(j) && StartsWith(raw[j..], o) && raw[|a| + |r|..j] == b
  {
    Regroup(a, r, b, o, c);
    var head := a + r + b;
    assert |head| == |a| + |r| + |b|;
    MacroAfterPlain(head, o, c, |a| + |r|);
  }

  lemma NoThirdDollar(a: string, r: string, b: string, o: string, c: string)
    requires '$' !in c
    ensures var raw := a + r + b + o + c;
      Find(raw, '$', |a| + |r| + |b| + |o|).None? && raw[|a| + |r| + |b| + |o|..] == c
  {
    Regroup(a, r, b, o, c);
    FindNone(a + r + b + o + c, '$', |a| + |r| + |b| + |o|);
  }

  /** The pieces of `raw` and where the scan finds its '$'s. */
  ghost predicate TwoMacroLayout(raw: string, a: string, b: string, c: string)
  {
    var i, j := |a|, |a| + |RenderDirMacro| + |b|;
    j + |ObjectNameMacro| <= |raw| &&
    Find(raw, '$', 0) == Some(i) && StartsWith(raw[i..], RenderDirMacro) && raw[0..i] == a &&
    Find(raw, '$', i + |RenderDirMacro|) == Some(j) && StartsWith(raw[j..], ObjectNameMacro) &&
    raw[i + |RenderDirMacro|..j] == b &&
    Find(raw, '$', j + |ObjectNameMacro|).None? && raw[j + |ObjectNameMacro|..] == c
  }

  lemma TwoMacroLayoutHolds(a: string, b: string, c: string)
    requires '$' !in a && '$' !in b && '$' !in c
    ensures TwoMacroLayout(a + RenderDirMacro + b + ObjectNameMacro + c, a, b, c)
  {
    FirstDollar(a, RenderDirMacro, b, ObjectNameMacro, c);
    SecondDollar(a, RenderDirMacro, b, ObjectNameMacro, c);
    NoThirdDollar(a, RenderDirMacro, b, ObjectNameMacro, c);
  }

  /** The scan of such a path from just after its `$renderdir`. */
  lemma TwoMacroScanTail(raw: string, a: string, b: string, c: string, acc: string, dir: string, nodeName: string)
    requires TwoMacroLayout(raw, a, b, c)
    ensures ScanOk(raw, |a| + |RenderDirMacro|, |RenderDirMacro|, |ObjectNameMacro|) &&
      Scan(raw, |a| + |RenderDirMacro|, acc, Some(dir), nodeName, |RenderDirMacro|, |ObjectNameMacro|) ==
        Ok(acc + b + nodeName + c)
  {
    var rs, os := |RenderDirMacro|, |ObjectNameMacro|;
    var i, j := |a|, |a| + rs + |b|;
    MacrosExclusive(raw[j..]);
    ScanEnd(raw, j + os, acc + (raw[i + rs..j] + nodeName), Some(dir), nodeName, rs, os);
    ScanOkObject(raw, i + rs, j, rs, os);
    ScanObject(raw, i + rs, j, acc, Some(dir), nodeName, rs, os);
    assert acc + (raw[i + rs..j] + nodeName) + raw[j + os..] == acc + b + nodeName + c;
  }

  /** The scan of a path laid out as above. */
  lemma TwoMacroScan(raw: string, a: string, b: string, c: string, dir: string, nodeName: string)
    requires TwoMacroLayout(raw, a, b, c)
    ensures ScanOk(raw, 0, |RenderDirMacro|, |ObjectNameMacro|) &&
      Scan(raw, 0, "", Some(dir), nodeName, |RenderDirMacro|, |ObjectNameMacro|) == Ok(a + dir + b + nodeName + c)
  {
    var rs, os := |RenderDirMacro|, |ObjectNameMacro|;
    var i := |a|;
    var acc := "" + (raw[0..i] + dir);
    assert acc == a + dir;
    TwoMacroScanTail(raw, a, b, c, acc, dir, nodeName);
    ScanOkRender(raw, 0, i, rs, os);
    ScanRender(raw, 0, i, "", Some(dir), nodeName, rs, os);
  }

  /**
   * With one-byte characters a path with one `$renderdir` and one
   * `$objectname` gets the directory and the node name in their places.
   */
  lemma TwoMacroExpansion(a: string, b: string, c: string, dir: string, nodeName: string)
    requires '$' !in a && '$' !in b && '$' !in c
    ensures var raw := a + RenderDirMacro + b + ObjectNameMacro + c;
      ScanOk(raw, 0, LiteralSkip(RenderDirMacro, 1), LiteralSkip(ObjectNameMacro, 1)) &&
      Scan(raw, 0, "", Some(dir), nodeName, LiteralSkip(RenderDirMacro, 1), LiteralSkip(ObjectNameMacro, 1)) ==
        Ok(a + dir + b + nodeName + c)
  {
    TwoMacroLayoutHolds(a, b, c);
    TwoMacroScan(a + RenderDirMacro + b + ObjectNameMacro + c, a, b, c, dir, nodeName);
  }

  /** The default path is `$renderdir`, "\Shadows\", `$objectname` and "_0000.exr". */
  lemma DefaultPathPieces()
    ensures DefaultSavePath == "" + RenderDirMacro + "\\Shadows\\" + ObjectNameMacro + "_0000.exr"
    ensures '$' !in "" && '$' !in "\\Shadows\\" && '$' !in "_0000.exr"
  {
  }

  /** With one-byte characters the default path expands as intended. */
  lemma DefaultPathExpansion(dir: string, nodeName: string)
    ensures ScanOk(DefaultSavePath, 0, LiteralSkip(RenderDirMacro, 1), LiteralSkip(ObjectNameMacro, 1))
    ensures Scan(DefaultSavePath, 0, "", Some(dir), nodeName,
                 LiteralSkip(RenderDirMacro, 1), LiteralSkip(ObjectNameMacro, 1)) ==
      Ok(dir + "\\Shadows\\" + nodeName + "_0000.exr")
  {
    var b, c := "\\Shadows\\", "_0000.exr";
    DefaultPathPieces();
    TwoMacroExpansion("", b, c, dir, nodeName);
    assert "" + dir == dir;
  }

  /**
   * With two-byte characters the skip after `$renderdir` is 21: the eleven
   * characters after the macro are dropped.
   */
  lemma WideSkipDropsEleven(a: string, x: string, dir: string, nodeName: string)
    requires '$' !in a && |x| >= 11 && '$' !in x[11..]
    ensures var raw := a + RenderDirMacro + x;
      ScanOk(raw, 0, LiteralSkip(RenderDirMacro, 2), LiteralSkip(ObjectNameMacro, 2)) &&
      Scan(raw, 0, "", Some(dir), nodeName, LiteralSkip(RenderDirMacro, 2), LiteralSkip(ObjectNameMacro, 2)) ==
        Ok(a + dir + x[11..])
  {
    var raw := a + RenderDirMacro + x;
    var i := |a|;
    assert raw[0..i] == a;
    assert raw[i..][..|RenderDirMacro|] == RenderDirMacro;
    FindAt(raw, '$', 0, i);
    assert raw[i + 21..] == x[11..];
    FindNone(raw, '$', i + 21);
    var acc := "" + (raw[0..i] + dir);
    ScanEnd(raw, i + 21, acc, Some(dir), nodeName, 21, 23);
    ScanOkRender(raw, 0, i, 21, 23);
    ScanRender(raw, 0, i, "", Some(dir), nodeName, 21, 23);
    assert acc + raw[i + 21..] == a + dir + x[11..];
  }

  /** The default path is `$renderdir`, then "\Shadows\$o", then the rest. */
  lemma DefaultPathSplit()
    ensures DefaultSavePath == "" + RenderDirMacro + ("\\Shadows\\$o" + "bjectname_0000.exr")
  {
  }

  /** Eleven characters after `$renderdir` reach into `$objectname`; what is left has no '$'. */
  lemma DefaultPathTail()
    ensures ("\\Shadows\\$o" + "bjectname_0000.exr")[11..] == "bjectname_0000.exr"
    ensures '$' !in "bjectname_0000.exr"
  {
  }

  /** So on the default path the node name never appears. */
  lemma WideSkipDropsObjectName(dir: string, nodeName: string)
    ensures ScanOk(DefaultSavePath, 0, LiteralSkip(RenderDirMacro, 2), LiteralSkip(ObjectNameMacro, 2))
    ensures Scan(DefaultSavePath, 0, "", Some(dir), nodeName,
                 LiteralSkip(RenderDirMacro, 2), LiteralSkip(ObjectNameMacro, 2)) ==
      Ok(dir + "bjectname_0000.exr")
  {
    DefaultPathSplit();
    DefaultPathTail();
    WideSkipDropsEleven("", "\\Shadows\\$o" + "bjectname_0000.exr", dir, nodeName);
    assert "" + dir == dir;
  }

  // ---------------------------------------------------------------------------
  // CreateShadowGenerator
  // ---------------------------------------------------------------------------

  /** A delegate generator, created with the given flags. */
  datatype Delegate = Delegate(flags: bv32)

  /** The generator returned: the omni one holds all six slots, the other only the first. */
  datatype Generator = OmniGenerator(delegates: seq<Option<Delegate>>) | SpotGenerator(delegate: Option<Delegate>)

  /**
   * `CreateShadowGenerator`: with DelegateOn and a delegate type, an omni
   * request to an omni-capable type creates one delegate with the request's
   * flags, anything else creates six without the omni flag; the omni flag
   * selects the omni generator. `delegateType` holds the type's `CanDoOmni`.
   */
  method CreateShadowGenerator(delegateOn: bool, delegateType: Option<bool>, flags: bv32, shadOmni: bv32)
    returns (g: Generator)
    ensures g.OmniGenerator? <==> flags & shadOmni != 0
    ensures g.OmniGenerator? ==> |g.delegates| == 6
    ensures g.OmniGenerator? ==> (forall i :: 0 <= i < 6 ==> (g.delegates[i] ==
      (if !delegateOn || delegateType.None? then None
       else if delegateType.value && flags & shadOmni != 0 then (if i == 0 then Some(Delegate(flags)) else None)
       else Some(Delegate(flags & !shadOmni)))))
    ensures g.SpotGenerator? ==> (g.delegate ==
      (if !delegateOn || delegateType.None? then None else Some(Delegate(flags & !shadOmni))))
  {
    var pDelegateType: Option<bool> := None;
    if delegateOn {
      pDelegateType := delegateType;
    }
    var ppDelegates := new Option<Delegate>[6](_ => None);
    if pDelegateType.Some? {
      if pDelegateType.value && flags & shadOmni != 0 {
        ppDelegates[0] := Some(Delegate(flags));
      } else {
        for i := 0 to 6
          invariant forall k :: 0 <= k < i ==> ppDelegates[k] == Some(Delegate(flags & !shadOmni))
          invariant forall k :: i <= k < 6 ==> ppDelegates[k] == None
        {
          ppDelegates[i] := Some(Delegate(flags & !shadOmni));
        }
      }
    }
    if flags & shadOmni != 0 {
      g := OmniGenerator(ppDelegates[..]);
    } else {
      g := SpotGenerator(ppDelegates[0]);
    }
  }
}
