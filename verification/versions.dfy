/** Version resolution: the constraint normaliser, the per-language search orders with their
    hard-coded fallbacks, and the base-image rewrite that uses them. */
module Versions {
  import opened Results
  import opened Strings
  import opened Patterns
  import opened Project

  import opened Constraints

  // ---------------------------------------------------------------------------------------
  // Per-language detectors

  const DefaultNodeVersion := "18"
  const DefaultPythonVersion := "3.9"
  const DefaultGoVersion := "1.21"
  const DefaultJavaVersion := "17"

  /** `getLatestPHPVersion`: a fixed value standing in for a registry lookup. */
  function LatestPHPVersion(): string {
    "8.3"
  }

  /** The part of `package.json` the Node version detector parses. */
  datatype NodePackageJson = NodePackageJson(enginesNode: string)

  /** The part of `composer.json` the PHP version detector parses. */
  datatype ComposerJson = ComposerJson(
    require: map<string, string>,
    requireDev: map<string, string>,
    platformPhp: string)

  /** Reference definition of a search order: the first non-empty candidate, else the fallback. */
  function FirstNonEmpty(candidates: seq<string>, fallback: string): (r: string)
    ensures r == fallback || r in candidates
    ensures (forall i :: 0 <= i < |candidates| ==> candidates[i] == "") ==> r == fallback
    ensures fallback != "" ==> r != ""
    ensures (exists i :: 0 <= i < |candidates| && candidates[i] != "") ==>
      exists i :: (0 <= i < |candidates| && candidates[i] != "" && r == candidates[i]
        && forall j :: 0 <= j < i ==> candidates[j] == "")
    decreases |candidates|
  {
    if candidates == [] then fallback
    else if candidates[0] != "" then candidates[0]
    else
      var r := FirstNonEmpty(candidates[1..], fallback);
      assert forall i :: 0 <= i < |candidates| - 1 ==> candidates[1..][i] == candidates[i + 1];
      assert (exists i :: 0 <= i < |candidates| && candidates[i] != "") ==>
        exists i :: (1 <= i < |candidates| && candidates[i] != "" && r == candidates[i]
          && forall j :: 0 <= j < i ==> candidates[j] == "")
      by {
        if exists i :: 0 <= i < |candidates| && candidates[i] != "" {
          var k :| 0 <= k < |candidates| && candidates[k] != "";
          assert candidates[1..][k - 1] != "";
          var i :| 0 <= i < |candidates| - 1 && candidates[1..][i] != "" && r == candidates[1..][i]
            && forall j :: 0 <= j < i ==> candidates[1..][j] == "";
          assert forall j :: 0 <= j < i + 1 ==> candidates[j] == "" by {
            forall j | 0 <= j < i + 1 ensures candidates[j] == "" {
              if j > 0 { assert candidates[j] == candidates[1..][j - 1]; }
            }
          }
        }
      }
      r
  }

  /** `detectNodeVersion`: the normalised `engines.node` constraint, else the major-only default. */
  function DetectNodeVersion(pkg: Result<NodePackageJson>): (r: Result<string>)
    ensures pkg.Failure? ==> r == Failure(pkg.error)
    ensures pkg.Success? ==> r == Success(
      FirstNonEmpty([ParseVersionConstraint(pkg.value.enginesNode)], DefaultNodeVersion))
  {
    match pkg
    case Failure(e) => Failure(e)
    case Success(p) =>
      if p.enginesNode != "" then
        var version := ParseVersionConstraint(p.enginesNode);
        if version != "" then Success(version) else Success(DefaultNodeVersion)
      else Success(DefaultNodeVersion)
  }

  /** `detectPHPVersion`: `require["php"]`, then `config.platform.php`, then the latest version. */
  function DetectPHPVersion(composer: Result<ComposerJson>): (r: Result<string>)
    ensures composer.Failure? ==> r == Failure(composer.error)
    ensures composer.Success? ==> r == Success(FirstNonEmpty(
      [ if "php" in composer.value.require then ParseVersionConstraint(composer.value.require["php"]) else "",
        ParseVersionConstraint(composer.value.platformPhp) ],
      LatestPHPVersion()))
  {
    match composer
    case Failure(e) => Failure(e)
    case Success(c) =>
      FirstNonEmptyOfTwo(if "php" in c.require then ParseVersionConstraint(c.require["php"]) else "",
                         ParseVersionConstraint(c.platformPhp), LatestPHPVersion());
      if "php" in c.require && ParseVersionConstraint(c.require["php"]) != "" then
        Success(ParseVersionConstraint(c.require["php"]))
      else if c.platformPhp != "" && ParseVersionConstraint(c.platformPhp) != "" then
        Success(ParseVersionConstraint(c.platformPhp))
      else
        Success(LatestPHPVersion())
  }

  /** With two candidates: the first if it is non-empty, else the second, else the fallback. */
  lemma FirstNonEmptyOfTwo(a: string, b: string, fallback: string)
    ensures FirstNonEmpty([a, b], fallback) == if a != "" then a else if b != "" then b else fallback
  {
    assert [a, b][1..] == [b];
    assert [b][1..] == [];
  }

  /** Reference definition of a search over optional files: the first file that exists and
      holds a match, else the fallback. */
  function FirstFound(searches: seq<Option<string>>, fallback: string): (r: string)
    ensures r == fallback || Some(r) in searches
    ensures (forall i :: 0 <= i < |searches| ==> searches[i].None?) ==> r == fallback
    ensures (exists i :: 0 <= i < |searches| && searches[i].Some?) ==>
      exists i :: (0 <= i < |searches| && searches[i] == Some(r)
        && forall j :: 0 <= j < i ==> searches[j].None?)
    decreases |searches|
  {
    if searches == [] then fallback
    else if searches[0].Some? then searches[0].value
    else
      var r := FirstFound(searches[1..], fallback);
      assert (exists i :: 0 <= i < |searches| && searches[i].Some?) ==>
        exists i :: (1 <= i < |searches| && searches[i] == Some(r)
          && forall j :: 0 <= j < i ==> searches[j].None?)
      by {
        if exists i :: 0 <= i < |searches| && searches[i].Some? {
          var k :| 0 <= k < |searches| && searches[k].Some?;
          assert searches[1..][k - 1].Some?;
          var i :| 0 <= i < |searches| - 1 && searches[1..][i] == Some(r)
            && forall j :: 0 <= j < i ==> searches[1..][j].None?;
          assert forall j :: 0 <= j < i + 1 ==> searches[j].None? by {
            forall j | 0 <= j < i + 1 ensures searches[j].None? {
              if j > 0 { assert searches[j] == searches[1..][j - 1]; }
            }
          }
          assert searches[i + 1] == searches[1..][i];
        }
      }
      r
  }

  /** Searching a file that may be missing (a missing file is skipped, not an error). */
  function SearchFile(file: Option<string>, at: (string, nat) -> Option<string>): Option<string> {
    match file
    case None => None
    case Some(content) => FindFirst(content, at)
  }

  /** `detectPythonVersion`: `pyproject.toml`, then `Pipfile`, then `runtime.txt`, else 3.9.
      The result always has the `major.minor` shape. */
  function DetectPythonVersion(pyproject: Option<string>, pipfile: Option<string>, runtime: Option<string>): (r: string)
    ensures r == FirstFound([SearchFile(pyproject, PyprojectPythonAt), SearchFile(pipfile, PipfilePythonAt),
                             SearchFile(runtime, RuntimePythonAt)], DefaultPythonVersion)
    ensures IsMajorMinor(r)
  {
    var fromPyproject := SearchFile(pyproject, PyprojectPythonAt);
    var fromPipfile := SearchFile(pipfile, PipfilePythonAt);
    var fromRuntime := SearchFile(runtime, RuntimePythonAt);
    PythonSearchesMajorMinor(pyproject, pipfile, runtime);
    FirstFoundOfThree(fromPyproject, fromPipfile, fromRuntime, DefaultPythonVersion);
    if fromPyproject.Some? then fromPyproject.value
    else if fromPipfile.Some? then fromPipfile.value
    else if fromRuntime.Some? then fromRuntime.value
    else DefaultPythonVersion
  }

  lemma FirstFoundOfThree(x: Option<string>, y: Option<string>, z: Option<string>, fallback: string)
    ensures FirstFound([x, y, z], fallback)
      == if x.Some? then x.value else if y.Some? then y.value else if z.Some? then z.value else fallback
  {
    assert [x, y, z][1..] == [y, z];
    assert [y, z][1..] == [z];
    assert [z][1..] == [];
    assert FirstFound([z], fallback) == if z.Some? then z.value else fallback;
    assert FirstFound([y, z], fallback) == if y.Some? then y.value else FirstFound([z], fallback);
  }

  /** Every Python search, and the fallback, yields the `major.minor` shape. */
  lemma PythonSearchesMajorMinor(pyproject: Option<string>, pipfile: Option<string>, runtime: Option<string>)
    ensures SearchFile(pyproject, PyprojectPythonAt).Some? ==> IsMajorMinor(SearchFile(pyproject, PyprojectPythonAt).value)
    ensures SearchFile(pipfile, PipfilePythonAt).Some? ==> IsMajorMinor(SearchFile(pipfile, PipfilePythonAt).value)
    ensures SearchFile(runtime, RuntimePythonAt).Some? ==> IsMajorMinor(SearchFile(runtime, RuntimePythonAt).value)
    ensures IsMajorMinor(DefaultPythonVersion)
  {
    if pyproject.Some? { FoundMajorMinor(pyproject.value, PyprojectPythonAt); }
    if pipfile.Some? { FoundMajorMinor(pipfile.value, PipfilePythonAt); }
    if runtime.Some? { FoundMajorMinor(runtime.value, RuntimePythonAt); }
    assert IsMajorMinor(DefaultPythonVersion) by {
      assert DefaultPythonVersion[..1] == "3" && DefaultPythonVersion[2..] == "9";
    }
  }

  /** `detectGoVersion`: the first go directive of `go.mod`, else 1.21. */
  function DetectGoVersion(goMod: Result<string>): (r: Result<string>)
    ensures goMod.Failure? ==> r == Failure(goMod.error)
    ensures goMod.Success? ==>
      r == Success(FirstFound([FindFirst(goMod.value, GoDirectiveAt)], DefaultGoVersion))
    ensures r.Success? ==> IsMajorMinor(r.value)
  {
    assert IsMajorMinor(DefaultGoVersion) by { assert DefaultGoVersion[1] == '.'; }
    match goMod
    case Failure(e) => Failure(e)
    case Success(content) =>
      FoundMajorMinor(content, GoDirectiveAt);
      match FindFirst(content, GoDirectiveAt)
      case Some(v) => Success(v)
      case None => Success(DefaultGoVersion)
  }

  /** `detectJavaVersion`: `pom.xml`, then `build.gradle`, else 17. The result is a major
      version only. */
  function DetectJavaVersion(pom: Option<string>, gradle: Option<string>): (r: string)
    ensures r == FirstFound([SearchFile(pom, PomJavaAt), SearchFile(gradle, GradleJavaAt)], DefaultJavaVersion)
    ensures IsMajor(r)
  {
    var fromPom := SearchFile(pom, PomJavaAt);
    var fromGradle := SearchFile(gradle, GradleJavaAt);
    if fromPom.Some? then fromPom.value
    else if fromGradle.Some? then fromGradle.value
    else DefaultJavaVersion
  }

  // ---------------------------------------------------------------------------------------
  // Base image rewrite

  /** Everything the detectors read from the working directory. */
  datatype VersionSources = VersionSources(
    packageJson: Result<NodePackageJson>,
    composerJson: Result<ComposerJson>,
    goMod: Result<string>,
    pyprojectToml: Option<string>,
    pipfile: Option<string>,
    runtimeTxt: Option<string>,
    pomXml: Option<string>,
    buildGradle: Option<string>)

  /** The image name around the version, for the language labels the rewrite recognises. */
  function ImageFormat(language: string): Option<(string, string)> {
    if language == "Node.js" then Some(("node:", "-alpine"))
    else if language == "Python" then Some(("python:", "-slim"))
    else if language == "Go" then Some(("golang:", "-alpine"))
    else if language == "Java" then Some(("openjdk:", "-slim"))
    else if language == "PHP" then Some(("php:", "-fpm"))
    else None
  }

  function FormatImage(language: string, version: string): string
    requires ImageFormat(language).Some?
  {
    ImageFormat(language).value.0 + version + ImageFormat(language).value.1
  }

  /** Inverse of `FormatImage`: the version an image name carries for a language. */
  function ImageVersion(language: string, image: string): Option<string> {
    match ImageFormat(language)
    case None => None
    case Some((prefix, suffix)) =>
      if |prefix| + |suffix| <= |image| && image[..|prefix|] == prefix
         && image[|image| - |suffix|..] == suffix
      then Some(image[|prefix|..|image| - |suffix|])
      else None
  }

  /** The version can be read back from the formatted image name. */
  lemma ImageVersionOfFormat(language: string, version: string)
    requires ImageFormat(language).Some?
    ensures ImageVersion(language, FormatImage(language, version)) == Some(version)
  {
    var (prefix, suffix) := ImageFormat(language).value;
    var image := prefix + version + suffix;
    assert image[..|prefix|] == prefix;
    assert image[|image| - |suffix|..] == suffix;
    assert image[|prefix|..|image| - |suffix|] == version;
  }

  /** The detector a language label selects. Only the Node.js, Go and PHP detectors can fail,
      on their manifest's error; Python and Go versions are `major.minor`, Java's a major. */
  function DetectVersion(language: string, src: VersionSources): (r: Result<string>)
    requires ImageFormat(language).Some?
    ensures r.Failure? <==>
      || (language == "Node.js" && src.packageJson.Failure?)
      || (language == "Go" && src.goMod.Failure?)
      || (language == "PHP" && src.composerJson.Failure?)
    ensures r.Success? && (language == "Python" || language == "Go") ==> IsMajorMinor(r.value)
    ensures r.Success? && language == "Java" ==> IsMajor(r.value)
  {
    if language == "Node.js" then DetectNodeVersion(src.packageJson)
    else if language == "Python" then Success(DetectPythonVersion(src.pyprojectToml, src.pipfile, src.runtimeTxt))
    else if language == "Go" then DetectGoVersion(src.goMod)
    else if language == "Java" then Success(DetectJavaVersion(src.pomXml, src.buildGradle))
    else DetectPHPVersion(src.composerJson)
  }

  /** A successful detection never yields the empty version. */
  lemma DetectedVersionNonEmpty(language: string, src: VersionSources)
    requires ImageFormat(language).Some?
    ensures DetectVersion(language, src).Success? ==> DetectVersion(language, src).value != ""
  {
    if language == "Python" {
      var v := DetectPythonVersion(src.pyprojectToml, src.pipfile, src.runtimeTxt);
      assert IsMajorMinor(v);
    } else if language == "Go" {
      assert DetectGoVersion(src.goMod).Success? ==> IsMajorMinor(DetectGoVersion(src.goMod).value);
    } else if language == "Java" {
      assert IsMajor(DetectJavaVersion(src.pomXml, src.buildGradle));
    }
  }

  /** `UpdateBaseImage`: only the base image can change, and only for the five language labels
      the rewrite recognises and only when their detector succeeds; the image then names the
      detected version. The Go function's error result is always nil and is not modelled. */
  function UpdateBaseImage(p: ProjectType, src: VersionSources): (r: ProjectType)
    ensures r.(baseImage := p.baseImage) == p
    ensures ImageFormat(p.language).None? ==> r == p
    ensures ImageFormat(p.language).Some? && DetectVersion(p.language, src).Failure? ==> r == p
    ensures ImageFormat(p.language).Some? && DetectVersion(p.language, src).Success? ==>
      ImageVersion(p.language, r.baseImage) == Some(DetectVersion(p.language, src).value)
  {
    match ImageFormat(p.language)
    case None => p
    case Some(_) =>
      match DetectVersion(p.language, src)
      case Failure(_) => p
      case Success(version) =>
        DetectedVersionNonEmpty(p.language, src);
        ImageVersionOfFormat(p.language, version);
        if version != "" then p.(baseImage := FormatImage(p.language, version)) else p
  }

  /** Rewriting twice with the same sources is rewriting once. */
  lemma UpdateBaseImageIdempotent(p: ProjectType, src: VersionSources)
    ensures UpdateBaseImage(UpdateBaseImage(p, src), src) == UpdateBaseImage(p, src)
  {
  }

  /** The analyzer's lower-case language tokens are not labels the rewrite recognises. */
  lemma AnalyzerTokensKeepImage(p: ProjectType, src: VersionSources)
    requires p.language in {"", "nodejs", "python", "go", "java", "php", "ruby"}
    ensures UpdateBaseImage(p, src) == p
  {
  }
}
