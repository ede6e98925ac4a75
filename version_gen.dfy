/**
 * The version-file generator (version_gen.py): a `major.minor.patch` string
 * is split on '.' and substituted into two fixed templates, a C header and
 * a Windows resource script. The file writes are modelled as returning the
 * rendered text; each template is the concatenation of its lines.
 */
module VersionGen {
  import opened Common

  /** The values `str.format` substitutes into the templates. */
  datatype Env = Env(version: string, major: string, minor: string, patch: string)

  // ---------------------------------------------------------------------------
  // HEADER_FILE_TEMPLATE
  // ---------------------------------------------------------------------------

  const Banner: string := "/////////////////////////////////////////////////////\n"

  /** One `#define NAME value` line. */
  function Define(name: string, value: string): string
  {
    "#define " + name + " " + value + "\n"
  }

  const DescriptionLine: string := Define("FRANTIC_DESCRIPTION", "\"Thinkbox Krakatoa for 3ds Max\"")

  /** The lines of `HEADER_FILE_TEMPLATE` with its placeholders filled in. */
  function HeaderLines(e: Env): seq<string>
  {
    ["\n", "#pragma once\n", Banner, "// AWS Thinkbox auto generated version include file.\n", Banner, "\n",
     Define("FRANTIC_VERSION", "\"" + e.version + "\""),
     Define("FRANTIC_MAJOR_VERSION", e.major),
     Define("FRANTIC_MINOR_VERSION", e.minor),
     Define("FRANTIC_PATCH_NUMBER", e.patch),
     DescriptionLine]
  }

  // ---------------------------------------------------------------------------
  // RC_FILE_TEMPLATE
  // ---------------------------------------------------------------------------

  function Triple(e: Env, sep: string): string
  {
    e.major + sep + e.minor + sep + e.patch
  }

  /** One `VALUE "key", "value"` line of the string table. */
  function ValueLine(key: string, value: string): string
  {
    "\t\t\tVALUE \"" + key + "\", \"" + value + "\"\n"
  }

  /** The lines of `RC_FILE_TEMPLATE` with its placeholders filled in. */
  function ResourceLines(e: Env): seq<string>
  {
    ["\n", "VS_VERSION_INFO VERSIONINFO\n",
     " FILEVERSION " + Triple(e, ",") + "\n",
     " PRODUCTVERSION " + Triple(e, ",") + "\n",
     " FILEFLAGSMASK 0x17L\n", "#ifdef _DEBUG\n", " FILEFLAGS 0x1L\n", "#else\n", " FILEFLAGS 0x0L\n",
     "#endif\n", " FILEOS 0x4L\n", " FILETYPE 0x2L\n", " FILESUBTYPE 0x0L\n", "BEGIN\n",
     "\tBLOCK \"StringFileInfo\"\n", "\tBEGIN\n", "\t\tBLOCK \"040904b0\"\n", "\t\tBEGIN\n",
     ValueLine("Comments", "Thinkbox KrakatoaMX"),
     ValueLine("CompanyName", "Thinkbox Software"),
     ValueLine("FileDescription", "KrakatoaMX Dynamic Link Library"),
     ValueLine("FileVersion", Triple(e, ".")),
     ValueLine("InternalName", "KrakatoaMX"),
     ValueLine("LegalCopyright", "Copyright (C) 2022"),
     ValueLine("OriginalFilename", "MaxKrakatoa.dlr"),
     ValueLine("ProductName", "KrakatoaMX"),
     ValueLine("ProductVersion", Triple(e, ".")),
     "\t\tEND\n", "\tEND\n", "\tBLOCK \"VarFileInfo\"\n", "\tBEGIN\n",
     "\t\tVALUE \"Translation\", 0x409, 1200\n", "\tEND\n", "END\n"]
  }

  // ---------------------------------------------------------------------------
  // write_version_header / write_version_resource
  // ---------------------------------------------------------------------------

  /** `major, minor, patch = version.split('.')`: the unpacking fails unless there are exactly three parts. */
  function SplitVersion(version: string): (r: Result<Env>)
    ensures r.Ok? <==> Count(version, '.') == 2
    ensures r.Ok? ==> r.value.version == version
    ensures r.Ok? ==> [r.value.major, r.value.minor, r.value.patch] == Split(version, '.')
  {
    var parts := Split(version, '.');
    SplitCount(version, '.');
    if |parts| == 3 then Ok(Env(version, parts[0], parts[1], parts[2]))
    else if |parts| < 3 then Err("not enough values to unpack (expected 3, got " + (if |parts| == 1 then "1" else "2") + ")")
    else Err("too many values to unpack (expected 3)")
  }

  /** With three parts, the parts joined by '.' give back the version string, and none contains a '.'. */
  lemma VersionRoundTrip(version: string)
    requires SplitVersion(version).Ok?
    ensures var e := SplitVersion(version).value;
      Triple(e, ".") == version && '.' !in e.major && '.' !in e.minor && '.' !in e.patch
  {
    var parts := Split(version, '.');
    SplitJoin(version, '.');
    assert parts[1..][1..] == [parts[2]];
    assert Join(parts[1..], '.') == parts[1] + "." + Join(parts[1..][1..], '.');
    assert Join(parts, '.') == parts[0] + "." + Join(parts[1..], '.');
  }

  /** `write_version_header`: the text written to the header file. */
  function RenderHeader(version: string): (r: Result<string>)
    ensures r.Ok? <==> Count(version, '.') == 2
  {
    var e := SplitVersion(version);
    if e.Err? then Err(e.error) else Ok(Concat(HeaderLines(e.value)))
  }

  /** `write_version_resource`: the text written to the resource script. */
  function RenderResource(version: string): (r: Result<string>)
    ensures r.Ok? <==> Count(version, '.') == 2
  {
    var e := SplitVersion(version);
    if e.Err? then Err(e.error) else Ok(Concat(ResourceLines(e.value)))
  }

  /**
   * The header defines FRANTIC_VERSION as the whole input and the three
   * numbered macros as the three '.'-separated parts in order; the
   * description line is fixed.
   */
  lemma HeaderDefines(version: string)
    requires RenderHeader(version).Ok?
    ensures var h := RenderHeader(version).value;
      var e := SplitVersion(version).value;
      Contains(h, Define("FRANTIC_VERSION", "\"" + version + "\"")) &&
      Contains(h, Define("FRANTIC_MAJOR_VERSION", e.major)) &&
      Contains(h, Define("FRANTIC_MINOR_VERSION", e.minor)) &&
      Contains(h, Define("FRANTIC_PATCH_NUMBER", e.patch)) &&
      Contains(h, DescriptionLine) &&
      e.major + "." + e.minor + "." + e.patch == version
  {
    var e := SplitVersion(version).value;
    VersionRoundTrip(version);
    var L := HeaderLines(e);
    ConcatContains(L, 6);
    ConcatContains(L, 7);
    ConcatContains(L, 8);
    ConcatContains(L, 9);
    ConcatContains(L, 10);
  }

  /**
   * FILEVERSION and PRODUCTVERSION carry `major,minor,patch`, and the
   * FileVersion and ProductVersion strings carry `major.minor.patch`, which is
   * the input version itself.
   */
  lemma ResourceVersions(version: string)
    requires RenderResource(version).Ok?
    ensures var rc := RenderResource(version).value;
      var e := SplitVersion(version).value;
      Contains(rc, " FILEVERSION " + Triple(e, ",") + "\n") &&
      Contains(rc, " PRODUCTVERSION " + Triple(e, ",") + "\n") &&
      Contains(rc, ValueLine("FileVersion", version)) &&
      Contains(rc, ValueLine("ProductVersion", version))
  {
    var e := SplitVersion(version).value;
    VersionRoundTrip(version);
    var L := ResourceLines(e);
    ConcatContains(L, 2);
    ConcatContains(L, 3);
    ConcatContains(L, 21);
    ConcatContains(L, 26);
  }

  /** The company, internal and product names are the same whatever the version. */
  lemma ResourceFixedMetadata(version: string)
    requires RenderResource(version).Ok?
    ensures var rc := RenderResource(version).value;
      Contains(rc, ValueLine("CompanyName", "Thinkbox Software")) &&
      Contains(rc, ValueLine("InternalName", "KrakatoaMX")) &&
      Contains(rc, ValueLine("ProductName", "KrakatoaMX"))
  {
    var L := ResourceLines(SplitVersion(version).value);
    ConcatContains(L, 19);
    ConcatContains(L, 22);
    ConcatContains(L, 25);
  }

  /** Only the four substituted lines of the header depend on the version. */
  lemma HeaderOnlyVersionLinesVary(v1: string, v2: string, k: nat)
    requires RenderHeader(v1).Ok? && RenderHeader(v2).Ok?
    requires k < 11 && !(6 <= k <= 9)
    ensures HeaderLines(SplitVersion(v1).value)[k] == HeaderLines(SplitVersion(v2).value)[k]
  {
  }
}
