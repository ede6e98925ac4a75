/**
 * The build recipe of the plugin (conanfile.py): the option coupling that
 * `configure` establishes and `validate` checks, the compiler whitelist, and
 * the third-party attribution document built from the resolved dependencies
 * and the license files on disk.
 *
 * The dependency graph is given as the ordered list of reference strings
 * (`name/version`), the file system as directories with an ordered listing
 * plus the text of each regular file.
 */
module Conan {
  import opened Common

  /** `VALID_MAX_CONFIGS`: (compiler, compiler version) to the 3ds Max versions it may build. */
  const ValidMaxConfigs: map<(string, string), set<string>> :=
    map[("Visual Studio", "15") := {"2022"}, ("Visual Studio", "16") := {"2023"}]

  /** `NO_LICENSE_ALLOWLIST`: packages that are not redistributed and need no attribution. */
  const NoLicenseAllowlist: set<string> := {"thinkboxcmlibrary", "maxsdk", "opengl", "cmake"}

  /** `UNUSED_LICENSE_DENYLIST`: license files of used packages that do not apply to this build. */
  const UnusedLicenseDenylist: set<string> :=
    {"licenses/eigen/licenses/COPYING.GPL", "licenses/eigen/licenses/COPYING.LGPL",
     "licenses/freetype/licenses/GPLv2.txt"}

  /** The values the `max_version` option admits, and the one `configure` picks when it is unset. */
  const MaxVersionChoices: seq<string> := ["2022", "2023"]
  const DefaultMaxVersion: string := "2023"

  /** The dependencies whose `max_version` must follow the recipe's, in the order they are checked. */
  const CoupledDependencies: seq<string> := ["maxsdk", "thinkboxmxlibrary", "magmamx", "krakatoamxsdk"]

  /** The `max_version` option of each coupled dependency (`None` when unset). */
  datatype DependencyOptions = DependencyOptions(
    maxsdk: Option<string>, thinkboxmxlibrary: Option<string>,
    magmamx: Option<string>, krakatoamxsdk: Option<string>)
  {
    /** The four options in checking order. */
    function InOrder(): seq<Option<string>>
    {
      [maxsdk, thinkboxmxlibrary, magmamx, krakatoamxsdk]
    }
  }

  /** A build variant: the recipe's own option, its dependencies' options and the compiler setting. */
  datatype Variant = Variant(
    maxVersion: Option<string>, deps: DependencyOptions,
    compiler: string, compilerVersion: string)

  datatype ValidateError =
    | MismatchWith(dependency: string)
    | UnknownCompiler(compiler: string, compilerVersion: string)
    | NotValidFor(compiler: string, compilerVersion: string, maxVersion: string)

  /** Python's `str()` of an option value: an unset option prints as `None`. */
  function OptionText(o: Option<string>): string
  {
    if o.Some? then o.value else "None"
  }

  /** Python's `str()` of a pair of strings (without quote characters inside). */
  function TupleText(a: string, b: string): string
  {
    "('" + a + "', '" + b + "')"
  }

  /** The text of the exception `validate` raises (a missing whitelist key raises `KeyError`). */
  function ValidateMessage(e: ValidateError): string
  {
    match e
    case MismatchWith(d) => "Option 'max_version' must be the same as " + d
    case UnknownCompiler(c, v) => TupleText(c, v)
    case NotValidFor(c, v, m) => TupleText(c, v) + " is not a valid configuration for 3ds Max " + m
  }

  /** The compiler check that runs once every coupled option agrees. */
  function CompilerCheck(v: Variant): Option<ValidateError>
  {
    var key := (v.compiler, v.compilerVersion);
    if key !in ValidMaxConfigs then Some(UnknownCompiler(v.compiler, v.compilerVersion))
    else if OptionText(v.maxVersion) !in ValidMaxConfigs[key] then
      Some(NotValidFor(v.compiler, v.compilerVersion, OptionText(v.maxVersion)))
    else None
  }

  /** Every coupled dependency carries the recipe's own `max_version`. */
  predicate Coupled(v: Variant)
  {
    v.deps.maxsdk == v.maxVersion && v.deps.thinkboxmxlibrary == v.maxVersion &&
    v.deps.magmamx == v.maxVersion && v.deps.krakatoamxsdk == v.maxVersion
  }

  lemma CoupledInOrder(v: Variant)
    ensures Coupled(v) <==> forall k :: 0 <= k < 4 ==> v.deps.InOrder()[k] == v.maxVersion
  {
    var o := v.deps.InOrder();
    assert o[0] == v.deps.maxsdk && o[1] == v.deps.thinkboxmxlibrary;
    assert o[2] == v.deps.magmamx && o[3] == v.deps.krakatoamxsdk;
  }

  /** `validate`: `None` when the variant is accepted, else the first error raised. */
  function Validate(v: Variant): (r: Option<ValidateError>)
    ensures r.None? <==>
      Coupled(v) &&
      (v.compiler, v.compilerVersion) in ValidMaxConfigs &&
      OptionText(v.maxVersion) in ValidMaxConfigs[(v.compiler, v.compilerVersion)]
  {
    if v.maxVersion != v.deps.maxsdk then Some(MismatchWith("maxsdk"))
    else if v.maxVersion != v.deps.thinkboxmxlibrary then Some(MismatchWith("thinkboxmxlibrary"))
    else if v.maxVersion != v.deps.magmamx then Some(MismatchWith("magmamx"))
    else if v.maxVersion != v.deps.krakatoamxsdk then Some(MismatchWith("krakatoamxsdk"))
    else CompilerCheck(v)
  }

  /**
   * The coupled options are compared in a fixed order: the error names the
   * k-th dependency exactly when it is the first whose option differs.
   */
  lemma ValidateReportsFirstMismatch(v: Variant, k: nat)
    requires k < 4
    ensures Validate(v) == Some(MismatchWith(CoupledDependencies[k])) <==>
      v.deps.InOrder()[k] != v.maxVersion &&
      forall j :: 0 <= j < k ==> v.deps.InOrder()[j] == v.maxVersion
  {
    var o := v.deps.InOrder();
    assert o[0] == v.deps.maxsdk && o[1] == v.deps.thinkboxmxlibrary;
    assert o[2] == v.deps.magmamx && o[3] == v.deps.krakatoamxsdk;
    var n := CoupledDependencies;
    assert n[0] == "maxsdk" && n[1] == "thinkboxmxlibrary" && n[2] == "magmamx" && n[3] == "krakatoamxsdk";
  }

  /** An inconsistent coupled option is reported whatever the compiler is. */
  lemma MismatchBeatsCompiler(v: Variant, compiler: string, compilerVersion: string)
    requires !Coupled(v)
    ensures Validate(v).Some? && Validate(v).value.MismatchWith?
    ensures Validate(v) == Validate(v.(compiler := compiler, compilerVersion := compilerVersion))
  {
  }

  /**
   * With the options coupled, a compiler pair missing from the whitelist fails
   * on the lookup, and a listed pair fails exactly when it does not admit the
   * 3ds Max version.
   */
  lemma CompilerLookup(v: Variant)
    requires Coupled(v)
    ensures (v.compiler, v.compilerVersion) !in ValidMaxConfigs ==>
      Validate(v) == Some(UnknownCompiler(v.compiler, v.compilerVersion))
    ensures (v.compiler, v.compilerVersion) in ValidMaxConfigs ==>
      (Validate(v) == Some(NotValidFor(v.compiler, v.compilerVersion, OptionText(v.maxVersion))) <==>
       OptionText(v.maxVersion) !in ValidMaxConfigs[(v.compiler, v.compilerVersion)])
  {
  }

  /** The variant `configure` leaves behind. */
  function Configured(v: Variant): Variant
  {
    var m := if v.maxVersion.None? then Some(DefaultMaxVersion) else v.maxVersion;
    v.(maxVersion := m, deps := DependencyOptions(m, m, m, m))
  }

  /**
   * After `configure` the recipe's option is set and every coupled check of
   * `validate` passes, so only the compiler check can still fail.
   */
  lemma ConfigureThenValidate(v: Variant)
    ensures Configured(v).maxVersion.Some?
    ensures v.maxVersion.None? ==> Configured(v).maxVersion == Some(DefaultMaxVersion)
    ensures v.maxVersion.Some? ==> Configured(v).maxVersion == v.maxVersion
    ensures Validate(Configured(v)) == CompilerCheck(Configured(v))
  {
  }

  /** The two supported toolchains build exactly their own 3ds Max version. */
  lemma WhitelistPairs(m: string)
    ensures Validate(Configured(Variant(Some(m), DependencyOptions(None, None, None, None), "Visual Studio", "15"))).None?
      <==> m == "2022"
    ensures Validate(Configured(Variant(Some(m), DependencyOptions(None, None, None, None), "Visual Studio", "16"))).None?
      <==> m == "2023"
  {
  }

  /** The recipe object: `configure` assigns its option fields in place. */
  class Recipe {
    var maxVersion: Option<string>
    var deps: DependencyOptions
    var compiler: string
    var compilerVersion: string

    constructor (maxVersion: Option<string>, deps: DependencyOptions, compiler: string, compilerVersion: string)
      ensures Snapshot() == Variant(maxVersion, deps, compiler, compilerVersion)
    {
      this.maxVersion := maxVersion;
      this.deps := deps;
      this.compiler := compiler;
      this.compilerVersion := compilerVersion;
    }

    function Snapshot(): Variant
      reads this
    {
      Variant(maxVersion, deps, compiler, compilerVersion)
    }

    /** `configure`: default the option, then copy it to the four coupled dependencies. */
    method Configure()
      modifies this
      ensures Snapshot() == Configured(old(Snapshot()))
    {
      if maxVersion == None {
        maxVersion := Some(DefaultMaxVersion);
      }
      deps := deps.(maxsdk := maxVersion);
      deps := deps.(thinkboxmxlibrary := maxVersion);
      deps := deps.(magmamx := maxVersion);
      deps := deps.(krakatoamxsdk := maxVersion);
    }
  }

  // ---------------------------------------------------------------------------
  // Attribution document
  // ---------------------------------------------------------------------------

  /** Directories with their listing (in `os.listdir` order) and the text of each regular file. */
  datatype FileSystem = FileSystem(dirs: map<string, seq<string>>, files: map<string, string>)

  datatype Dependency = Dependency(name: string, version: string)

  /** What has been written to `attributions.txt`, and the exception that stopped the walk, if any. */
  datatype Written = Written(doc: string, error: Option<string>)

  /** Writing `w1`, then, unless it raised, `w2`. */
  function AndThen(w1: Written, w2: Written): Written
  {
    if w1.error.Some? then w1 else Written(w1.doc + w2.doc, w2.error)
  }

  lemma AndThenAssoc(x: Written, y: Written, z: Written)
    ensures AndThen(AndThen(x, y), z) == AndThen(x, AndThen(y, z))
  {
    if x.error.None? && y.error.None? {
      assert (x.doc + y.doc) + z.doc == x.doc + (y.doc + z.doc);
    }
  }

  /** `posixpath.join(a, b)`. */
  function PosixJoin(a: string, b: string): string
  {
    if |b| > 0 && b[0] == '/' then b
    else if |a| == 0 || a[|a| - 1] == '/' then a + b
    else a + "/" + b
  }

  function LicenseDir(name: string): string
  {
    PosixJoin(PosixJoin("licenses", name), "licenses")
  }

  /** Unpacking `ref.split('/')` into `name, version`. */
  function ParseRef(ref: string): (r: Result<Dependency>)
    ensures r.Ok? <==> Count(ref, '/') == 1
    ensures r.Ok? ==> r.value.name + "/" + r.value.version == ref && '/' !in r.value.name
  {
    var parts := Split(ref, '/');
    SplitCount(ref, '/');
    if |parts| == 2 then
      SplitJoin(ref, '/');
      assert Join(parts, '/') == parts[0] + "/" + Join(parts[1..], '/');
      Ok(Dependency(parts[0], parts[1]))
    else if |parts| < 2 then Err("not enough values to unpack (expected 2, got 1)")
    else Err("too many values to unpack (expected 2)")
  }

  function Header(d: Dependency): string
  {
    "######## " + d.name + " " + d.version + " ########\n\n"
  }

  function MissingLicenseMessage(d: Dependency): string
  {
    "Could not find license files for package " + d.name + " " + d.version + "."
  }

  /** The text one listed license file contributes: its lines verbatim and a newline, or nothing when denied. */
  function LicenseFileStep(dir: string, file: string, fs: FileSystem): Written
  {
    var path := PosixJoin(dir, file);
    if path in UnusedLicenseDenylist then Written("", None)
    else if path in fs.files then Written(fs.files[path] + "\n", None)
    else Written("", Some("cannot open " + path))
  }

  /** The license texts of the files of a directory, in listing order. */
  function LicenseTexts(dir: string, listing: seq<string>, fs: FileSystem): Written
    decreases |listing|
  {
    if |listing| == 0 then Written("", None)
    else AndThen(LicenseFileStep(dir, listing[0], fs), LicenseTexts(dir, listing[1..], fs))
  }

  /** What one dependency contributes: nothing when allow-listed, else its header and license texts. */
  function DependencyBlock(d: Dependency, fs: FileSystem): Written
  {
    if d.name in NoLicenseAllowlist then Written("", None)
    else
      var dir := LicenseDir(d.name);
      if dir in fs.dirs then AndThen(Written(Header(d), None), LicenseTexts(dir, fs.dirs[dir], fs))
      else if dir in fs.files then Written(Header(d), Some("not a directory: " + dir))
      else Written(Header(d), Some(MissingLicenseMessage(d)))
  }

  function RefStep(ref: string, fs: FileSystem): Written
  {
    var p := ParseRef(ref);
    if p.Err? then Written("", Some(p.error)) else DependencyBlock(p.value, fs)
  }

  /** `generate_attributions_doc`: the document for the dependencies in order. */
  function Attributions(refs: seq<string>, fs: FileSystem): Written
    decreases |refs|
  {
    if |refs| == 0 then Written("", None) else AndThen(RefStep(refs[0], fs), Attributions(refs[1..], fs))
  }

  /** The document for two runs of dependencies is the first's followed by the second's. */
  lemma {:induction false} AttributionsAppend(a: seq<string>, b: seq<string>, fs: FileSystem)
    ensures Attributions(a + b, fs) == AndThen(Attributions(a, fs), Attributions(b, fs))
    decreases |a|
  {
    if |a| > 0 {
      assert (a + b)[1..] == a[1..] + b;
      AttributionsAppend(a[1..], b, fs);
      AndThenAssoc(RefStep(a[0], fs), Attributions(a[1..], fs), Attributions(b, fs));
    } else {
      assert a + b == b;
    }
  }

  lemma {:induction false} LicenseTextsAppend(dir: string, a: seq<string>, b: seq<string>, fs: FileSystem)
    ensures LicenseTexts(dir, a + b, fs) == AndThen(LicenseTexts(dir, a, fs), LicenseTexts(dir, b, fs))
    decreases |a|
  {
    if |a| > 0 {
      assert (a + b)[1..] == a[1..] + b;
      LicenseTextsAppend(dir, a[1..], b, fs);
      AndThenAssoc(LicenseFileStep(dir, a[0], fs), LicenseTexts(dir, a[1..], fs), LicenseTexts(dir, b, fs));
    } else {
      assert a + b == b;
    }
  }

  /** An allow-listed package adds nothing, wherever it stands and whether or not its license directory exists. */
  lemma AllowlistedAddsNothing(a: seq<string>, ref: string, b: seq<string>, fs: FileSystem)
    requires ParseRef(ref).Ok? && ParseRef(ref).value.name in NoLicenseAllowlist
    ensures Attributions(a + [ref] + b, fs) == Attributions(a + b, fs)
  {
    AttributionsAppend(a + [ref], b, fs);
    AttributionsAppend(a, [ref], fs);
    AttributionsAppend(a, b, fs);
    assert Attributions([ref], fs) == Written("", None);
    var x := Attributions(a, fs);
    if x.error.None? {
      assert x.doc + "" == x.doc;
    }
  }

  /**
   * A package that is not allow-listed and has no license directory stops the
   * walk: everything written before it and its own header stay in the file,
   * and the error names the package and its version.
   */
  lemma MissingLicenseDirIsFatal(a: seq<string>, ref: string, b: seq<string>, fs: FileSystem)
    requires ParseRef(ref).Ok?
    requires ParseRef(ref).value.name !in NoLicenseAllowlist
    requires LicenseDir(ParseRef(ref).value.name) !in fs.dirs
    requires LicenseDir(ParseRef(ref).value.name) !in fs.files
    ensures Attributions(a + [ref] + b, fs) ==
      AndThen(Attributions(a, fs),
              Written(Header(ParseRef(ref).value), Some(MissingLicenseMessage(ParseRef(ref).value))))
  {
    AttributionsAppend(a + [ref], b, fs);
    AttributionsAppend(a, [ref], fs);
    var d := ParseRef(ref).value;
    assert Attributions([ref], fs) == Written(Header(d), Some(MissingLicenseMessage(d)));
  }

  /** A denied license file is skipped as if it were not listed. */
  lemma DeniedFileSkipped(dir: string, a: seq<string>, file: string, b: seq<string>, fs: FileSystem)
    requires PosixJoin(dir, file) in UnusedLicenseDenylist
    ensures LicenseTexts(dir, a + [file] + b, fs) == LicenseTexts(dir, a + b, fs)
  {
    LicenseTextsAppend(dir, a + [file], b, fs);
    LicenseTextsAppend(dir, a, [file], fs);
    LicenseTextsAppend(dir, a, b, fs);
    var x := LicenseTexts(dir, a, fs);
    if x.error.None? {
      assert x.doc + "" == x.doc;
    }
  }

  /** A readable file that is not denied is copied verbatim, followed by a newline. */
  lemma ListedFileCopied(dir: string, file: string, fs: FileSystem)
    requires PosixJoin(dir, file) !in UnusedLicenseDenylist && PosixJoin(dir, file) in fs.files
    ensures LicenseTexts(dir, [file], fs) == Written(fs.files[PosixJoin(dir, file)] + "\n", None)
  {
    var w := LicenseFileStep(dir, file, fs);
    assert LicenseTexts(dir, [file], fs) == AndThen(w, Written("", None));
    assert w.doc + "" == w.doc;
  }

  lemma AndThenEmpty(w: Written)
    ensures AndThen(w, Written("", None)) == w
  {
    if w.error.None? {
      assert w.doc + "" == w.doc;
    }
  }

  /** The document for a prefix one dependency longer. */
  lemma AttributionsSnoc(refs: seq<string>, i: nat, fs: FileSystem)
    requires i < |refs|
    ensures Attributions(refs[..i + 1], fs) == AndThen(Attributions(refs[..i], fs), RefStep(refs[i], fs))
  {
    assert refs[..i + 1] == refs[..i] + [refs[i]];
    AttributionsAppend(refs[..i], [refs[i]], fs);
    AndThenEmpty(RefStep(refs[i], fs));
  }

  /** Once a prefix has raised, the remaining dependencies are never reached. */
  lemma AttributionsStop(refs: seq<string>, i: nat, fs: FileSystem)
    requires i <= |refs| && Attributions(refs[..i], fs).error.Some?
    ensures Attributions(refs, fs) == Attributions(refs[..i], fs)
  {
    assert refs[..i] + refs[i..] == refs;
    AttributionsAppend(refs[..i], refs[i..], fs);
  }

  lemma LicenseTextsSnoc(dir: string, listing: seq<string>, j: nat, fs: FileSystem)
    requires j < |listing|
    ensures LicenseTexts(dir, listing[..j + 1], fs) ==
      AndThen(LicenseTexts(dir, listing[..j], fs), LicenseFileStep(dir, listing[j], fs))
  {
    assert listing[..j + 1] == listing[..j] + [listing[j]];
    LicenseTextsAppend(dir, listing[..j], [listing[j]], fs);
    AndThenEmpty(LicenseFileStep(dir, listing[j], fs));
  }

  lemma LicenseTextsStop(dir: string, listing: seq<string>, j: nat, fs: FileSystem)
    requires j <= |listing| && LicenseTexts(dir, listing[..j], fs).error.Some?
    ensures LicenseTexts(dir, listing, fs) == LicenseTexts(dir, listing[..j], fs)
  {
    assert listing[..j] + listing[j..] == listing;
    LicenseTextsAppend(dir, listing[..j], listing[j..], fs);
  }

  /** The inner loop: the texts of a license directory appended to `doc0`. */
  method WriteLicenseTexts(dir: string, listing: seq<string>, fs: FileSystem, doc0: string)
    returns (doc: string, error: Option<string>)
    ensures Written(doc, error) == AndThen(Written(doc0, None), LicenseTexts(dir, listing, fs))
  {
    doc := doc0;
    error := None;
    ghost var acc := "";
    var j := 0;
    while j < |listing|
      invariant 0 <= j <= |listing|
      invariant LicenseTexts(dir, listing[..j], fs) == Written(acc, None)
      invariant doc == doc0 + acc
    {
      LicenseTextsSnoc(dir, listing, j, fs);
      var path := PosixJoin(dir, listing[j]);
      if path !in UnusedLicenseDenylist {
        if path !in fs.files {
          error := Some("cannot open " + path);
          LicenseTextsStop(dir, listing, j + 1, fs);
          return;
        }
        doc := doc + (fs.files[path] + "\n");
        acc := acc + (fs.files[path] + "\n");
      } else {
        assert acc + "" == acc;
      }
      j := j + 1;
    }
    assert listing[..j] == listing;
  }

  /** One turn of the outer loop: the block of one dependency appended to `doc0`. */
  method WriteDependency(ref: string, fs: FileSystem, doc0: string) returns (doc: string, error: Option<string>)
    ensures Written(doc, error) == AndThen(Written(doc0, None), RefStep(ref, fs))
  {
    var p := ParseRef(ref);
    if p.Err? {
      assert doc0 + "" == doc0;
      return doc0, Some(p.error);
    }
    var d := p.value;
    if d.name in NoLicenseAllowlist {
      assert doc0 + "" == doc0;
      return doc0, None;
    }
    doc := doc0 + Header(d);
    var dir := LicenseDir(d.name);
    if dir !in fs.dirs {
      error := Some(if dir in fs.files then "not a directory: " + dir else MissingLicenseMessage(d));
      return;
    }
    doc, error := WriteLicenseTexts(dir, fs.dirs[dir], fs, doc);
    AndThenAssoc(Written(doc0, None), Written(Header(d), None), LicenseTexts(dir, fs.dirs[dir], fs));
  }

  /**
   * The recipe's loop over the dependencies and over each license directory's
   * listing, appending to the document as it goes.
   */
  method GenerateAttributionsDoc(refs: seq<string>, fs: FileSystem) returns (doc: string, error: Option<string>)
    ensures Written(doc, error) == Attributions(refs, fs)
  {
    doc := "";
    error := None;
    var i := 0;
    while i < |refs|
      invariant 0 <= i <= |refs|
      invariant Written(doc, None) == Attributions(refs[..i], fs)
      invariant error.None?
    {
      AttributionsSnoc(refs, i, fs);
      doc, error := WriteDependency(refs[i], fs, doc);
      if error.Some? {
        AttributionsStop(refs, i + 1, fs);
        return;
      }
      i := i + 1;
    }
    assert refs[..i] == refs;
  }
}
