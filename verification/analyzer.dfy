/** Project analysis: the directory listing is walked in order, every indicator file sets the
    language and default base image, and the ecosystem's classifier refines the framework and
    default port from the already-parsed manifest. */
module Analyzer {
  import opened Results
  import opened Strings
  import opened Project

  /** The `package.json` fields the framework detector reads, together with the order in which
      Go's map range visits the merged dependency keys (an order Go leaves unspecified). */
  datatype PackageJson = PackageJson(
    dependencies: map<string, string>,
    devDependencies: map<string, string>,
    scripts: map<string, string>,
    rangeOrder: seq<string>)

  /** The `require` map of `composer.json`, together with the order in which Go's map range
      visits its keys. */
  datatype ComposerRequire = ComposerRequire(require: map<string, string>, rangeOrder: seq<string>)

  /** What reading and parsing each manifest gives: a parsed value or the read/parse error. */
  datatype Manifests = Manifests(
    packageJson: Result<PackageJson>,
    requirementsTxt: Result<string>,
    goMod: Result<string>,
    composerJson: Result<ComposerRequire>,
    gemfile: Result<string>)

  /** `order` visits every key of `keys` exactly once, as a Go map range does. */
  predicate Enumerates(order: seq<string>, keys: set<string>) {
    && (forall i, j :: 0 <= i < j < |order| ==> order[i] != order[j])
    && (forall k :: k in order ==> k in keys)
    && (forall k :: k in keys ==> k in order)
  }

  predicate WellFormed(m: Manifests) {
    && (m.packageJson.Success? ==>
          Enumerates(m.packageJson.value.rangeOrder, Merged(m.packageJson.value).Keys))
    && (m.composerJson.Success? ==>
          Enumerates(m.composerJson.value.rangeOrder, m.composerJson.value.require.Keys))
  }

  /** A framework classification: the framework name and the default port it seeds. */
  datatype Detected = Detected(framework: string, port: string)

  /** A classifier hit sets the framework and replaces the ports; a miss leaves both alone. */
  function Apply(p: ProjectType, d: Option<Detected>): (r: ProjectType)
    ensures r.language == p.language && r.baseImage == p.baseImage && r.database == p.database
    ensures r.dependencies == p.dependencies
  {
    match d
    case Some(f) => p.(framework := f.framework, ports := [f.port])
    case None => p
  }

  /** One row of a framework catalog: the marker that identifies the framework. */
  datatype Marker = Marker(key: string, framework: string, port: string)

  /** Reference definition of first-match classification: the first catalog row whose marker
      `hit` accepts. */
  function FirstMatching(catalog: seq<Marker>, hit: string -> bool): (r: Option<Detected>)
    ensures r.Some? ==> exists i :: (0 <= i < |catalog| && hit(catalog[i].key)
      && r.value == Detected(catalog[i].framework, catalog[i].port)
      && forall j :: 0 <= j < i ==> !hit(catalog[j].key))
    ensures r.None? ==> forall i :: 0 <= i < |catalog| ==> !hit(catalog[i].key)
    decreases |catalog|
  {
    if catalog == [] then None
    else if hit(catalog[0].key) then Some(Detected(catalog[0].framework, catalog[0].port))
    else
      var r := FirstMatching(catalog[1..], hit);
      assert r.Some? ==> exists i :: (1 <= i < |catalog| && hit(catalog[i].key)
        && r.value == Detected(catalog[i].framework, catalog[i].port)
        && forall j :: 0 <= j < i ==> !hit(catalog[j].key))
      by {
        if r.Some? {
          var i :| 0 <= i < |catalog| - 1 && hit(catalog[1..][i].key)
            && r.value == Detected(catalog[1..][i].framework, catalog[1..][i].port)
            && forall j :: 0 <= j < i ==> !hit(catalog[1..][j].key);
          assert forall j :: 0 <= j < i + 1 ==> !hit(catalog[j].key) by {
            forall j | 0 <= j < i + 1 ensures !hit(catalog[j].key) {
              if j > 0 { assert catalog[j] == catalog[1..][j - 1]; }
            }
          }
        }
      }
      r
  }

  /** Reference definition of last-match classification: the classification of the last item
      that classifies at all. */
  function LastMatching<T>(items: seq<string>, classify: string -> Option<T>): (r: Option<T>)
    ensures r.Some? ==> exists i :: (0 <= i < |items| && classify(items[i]) == r
      && forall j :: i < j < |items| ==> classify(items[j]).None?)
    ensures r.None? ==> forall i :: 0 <= i < |items| ==> classify(items[i]).None?
    decreases |items|
  {
    if items == [] then None
    else
      var last := classify(items[|items| - 1]);
      if last.Some? then last
      else
        var r := LastMatching(items[..|items| - 1], classify);
        assert forall i :: 0 <= i < |items| - 1 ==> items[..|items| - 1][i] == items[i];
        r
  }

  /** The loop shape shared by the Python and PHP classifiers: every item is classified in
      turn and every hit overwrites framework and ports. */
  function ScanAll(p: ProjectType, items: seq<string>, classify: string -> Option<Detected>): ProjectType
    decreases |items|
  {
    if items == [] then p else ScanAll(Apply(p, classify(items[0])), items[1..], classify)
  }

  /** Scanning item by item amounts to applying the last match: a later hit overrides an
      earlier one, and a miss changes nothing. */
  lemma {:induction false} ScanIsLastMatch(p: ProjectType, items: seq<string>, classify: string -> Option<Detected>)
    ensures ScanAll(p, items, classify) == Apply(p, LastMatching(items, classify))
    decreases |items|
  {
    if items != [] {
      ScanIsLastMatch(Apply(p, classify(items[0])), items[1..], classify);
      LastMatchingCons(items[0], items[1..], classify);
      assert [items[0]] + items[1..] == items;
    }
  }

  /** The last match of `[x] + rest` is the last match of `rest` when there is one, else
      the classification of `x`. */
  lemma {:induction false} LastMatchingCons<T>(x: string, rest: seq<string>, classify: string -> Option<T>)
    ensures LastMatching([x] + rest, classify)
      == if LastMatching(rest, classify).Some? then LastMatching(rest, classify) else classify(x)
    decreases |rest|
  {
    var items := [x] + rest;
    if rest != [] {
      assert items[|items| - 1] == rest[|rest| - 1];
      assert items[..|items| - 1] == [x] + rest[..|rest| - 1];
      LastMatchingCons(x, rest[..|rest| - 1], classify);
    } else {
      assert items[..|items| - 1] == [];
    }
  }

  // ---------------------------------------------------------------------------------------
  // Node.js

  /** Node catalog in the order the switch tries it. */
  const NodeCatalog: seq<Marker> := [
    Marker("next", "nextjs", "3000"),
    Marker("react", "react", "3000"),
    Marker("@angular/core", "angular", "4200"),
    Marker("express", "express", "3000"),
    Marker("@nestjs/core", "nestjs", "3000")]

  /** Dependencies and devDependencies merged; a devDependency wins on a key clash. */
  function Merged(pkg: PackageJson): (deps: map<string, string>)
    ensures deps.Keys == pkg.dependencies.Keys + pkg.devDependencies.Keys
    ensures forall k :: k in pkg.devDependencies ==> deps[k] == pkg.devDependencies[k]
    ensures forall k :: k in pkg.dependencies && k !in pkg.devDependencies ==> deps[k] == pkg.dependencies[k]
  {
    pkg.dependencies + pkg.devDependencies
  }

  /** `deps[name] != ""`: a missing key reads as the empty version, which never matches. */
  predicate DeclaresVersion(deps: map<string, string>, name: string) {
    name in deps && deps[name] != ""
  }

  /** The switch of the Node classifier: first-match classification over the Node catalog. */
  function NodeSwitch(deps: map<string, string>): (r: Option<Detected>)
    ensures r == FirstMatching(NodeCatalog, k => DeclaresVersion(deps, k))
  {
    assert NodeCatalog[1..][1..][1..][1..][1..] == [];
    if DeclaresVersion(deps, "next") then Some(Detected("nextjs", "3000"))
    else if DeclaresVersion(deps, "react") then Some(Detected("react", "3000"))
    else if DeclaresVersion(deps, "@angular/core") then Some(Detected("angular", "4200"))
    else if DeclaresVersion(deps, "express") then Some(Detected("express", "3000"))
    else if DeclaresVersion(deps, "@nestjs/core") then Some(Detected("nestjs", "3000"))
    else None
  }

  /** The Node classifier: first-match framework, and the merged dependency keys, each once. */
  function DetectNodeFramework(p: ProjectType, manifest: Result<PackageJson>): (r: Result<ProjectType>)
    requires manifest.Success? ==> Enumerates(manifest.value.rangeOrder, Merged(manifest.value).Keys)
    ensures manifest.Failure? ==> r == Failure(manifest.error)
    ensures manifest.Success? ==> r.Success?
    ensures manifest.Success? ==> (r.value
      == Apply(p, FirstMatching(NodeCatalog, k => DeclaresVersion(Merged(manifest.value), k)))
           .(dependencies := r.value.dependencies))
    ensures manifest.Success? ==> r.value.dependencies == manifest.value.rangeOrder
    ensures manifest.Success? ==> forall k :: k in r.value.dependencies <==> k in Merged(manifest.value)
    ensures manifest.Success? ==> forall i, j :: 0 <= i < j < |r.value.dependencies| ==>
      r.value.dependencies[i] != r.value.dependencies[j]
  {
    match manifest
    case Failure(e) => Failure(e)
    case Success(pkg) =>
      Success(Apply(p, NodeSwitch(Merged(pkg))).(dependencies := pkg.rangeOrder))
  }

  // ---------------------------------------------------------------------------------------
  // Python

  const PythonCatalog: seq<Marker> := [
    Marker("django", "django", "8000"),
    Marker("flask", "flask", "5000"),
    Marker("fastapi", "fastapi", "8000")]

  /** The switch applied to one requirements line, after trimming and lower-casing it: within
      the line, first-match classification over the Python catalog by prefix. */
  function PythonLineSwitch(line: string): (r: Option<Detected>)
    ensures r == FirstMatching(PythonCatalog, k => HasPrefix(ToLower(TrimSpace(line)), k))
  {
    assert PythonCatalog[1..][1..][1..] == [];
    var req := ToLower(TrimSpace(line));
    if HasPrefix(req, "django") then Some(Detected("django", "8000"))
    else if HasPrefix(req, "flask") then Some(Detected("flask", "5000"))
    else if HasPrefix(req, "fastapi") then Some(Detected("fastapi", "8000"))
    else None
  }

  /** The Python classifier: `Dependencies` is the file split at newlines, and the framework
      is that of the last line that names one. */
  function DetectPythonFramework(p: ProjectType, manifest: Result<string>): (r: Result<ProjectType>)
    ensures manifest.Failure? ==> r == Failure(manifest.error)
    ensures manifest.Success? ==> r.Success?
    ensures manifest.Success? ==> r.value.dependencies == Split(manifest.value, '\n')
    ensures manifest.Success? ==> Join(r.value.dependencies, '\n') == manifest.value
    ensures manifest.Success? ==> (r.value
      == Apply(p, LastMatching(Split(manifest.value, '\n'), PythonLineSwitch))
           .(dependencies := r.value.dependencies))
  {
    match manifest
    case Failure(e) => Failure(e)
    case Success(content) =>
      var requirements := Split(content, '\n');
      var q := p.(dependencies := requirements);
      ScanIsLastMatch(q, requirements, PythonLineSwitch);
      Success(ScanAll(q, requirements, PythonLineSwitch))
  }

  // ---------------------------------------------------------------------------------------
  // Go

  const GoCatalog: seq<Marker> := [
    Marker("github.com/gin-gonic/gin", "gin", "8080"),
    Marker("github.com/gofiber/fiber", "fiber", "3000"),
    Marker("github.com/labstack/echo", "echo", "1323")]

  /** The switch of the Go classifier: first-match classification over the Go catalog by
      substring. */
  function GoSwitch(content: string): (r: Option<Detected>)
    ensures r == FirstMatching(GoCatalog, k => Contains(content, k))
  {
    assert GoCatalog[1..][1..][1..] == [];
    if Contains(content, "github.com/gin-gonic/gin") then Some(Detected("gin", "8080"))
    else if Contains(content, "github.com/gofiber/fiber") then Some(Detected("fiber", "3000"))
    else if Contains(content, "github.com/labstack/echo") then Some(Detected("echo", "1323"))
    else None
  }

  /** The Go classifier: priority gin, fiber, echo by module path occurring in `go.mod`;
      with no match framework and ports stay as they were. */
  function DetectGoFramework(p: ProjectType, manifest: Result<string>): (r: Result<ProjectType>)
    ensures manifest.Failure? ==> r == Failure(manifest.error)
    ensures manifest.Success? ==>
      r == Success(Apply(p, FirstMatching(GoCatalog, k => Contains(manifest.value, k))))
  {
    match manifest
    case Failure(e) => Failure(e)
    case Success(content) =>
      Success(Apply(p, GoSwitch(content)))
  }

  // ---------------------------------------------------------------------------------------
  // PHP

  /** The switch applied to one `require` key: a key classifies exactly when it names laravel
      or symfony, laravel taking precedence, and always on port 8000. */
  function PhpKeySwitch(dep: string): (r: Option<Detected>)
    ensures r.Some? <==> Contains(dep, "laravel") || Contains(dep, "symfony")
    ensures r.Some? ==> r.value.port == "8000"
    ensures r.Some? ==> (r.value.framework == "laravel" <==> Contains(dep, "laravel"))
    ensures r.Some? ==> (r.value.framework == "symfony" <==> !Contains(dep, "laravel"))
  {
    if Contains(dep, "laravel") then Some(Detected("laravel", "8000"))
    else if Contains(dep, "symfony") then Some(Detected("symfony", "8000"))
    else None
  }

  /** The PHP classifier: the last `require` key, in range order, naming laravel or symfony
      decides the framework. */
  function DetectPHPFramework(p: ProjectType, manifest: Result<ComposerRequire>): (r: Result<ProjectType>)
    ensures manifest.Failure? ==> r == Failure(manifest.error)
    ensures manifest.Success? ==>
      r == Success(Apply(p, LastMatching(manifest.value.rangeOrder, PhpKeySwitch)))
  {
    match manifest
    case Failure(e) => Failure(e)
    case Success(composer) =>
      ScanIsLastMatch(p, composer.rangeOrder, PhpKeySwitch);
      Success(ScanAll(p, composer.rangeOrder, PhpKeySwitch))
  }

  /** Whatever the range order, the ports become ["8000"] exactly when some `require` key
      names laravel or symfony; otherwise framework and ports are untouched. */
  lemma PhpPortsIndependentOfOrder(p: ProjectType, composer: ComposerRequire)
    requires Enumerates(composer.rangeOrder, composer.require.Keys)
    ensures var r := DetectPHPFramework(p, Success(composer)).value;
      && ((exists k :: k in composer.require && (Contains(k, "laravel") || Contains(k, "symfony")))
            ==> r.ports == ["8000"] && r.framework in {"laravel", "symfony"})
      && ((forall k :: k in composer.require ==> !Contains(k, "laravel") && !Contains(k, "symfony"))
            ==> r == p)
  {
    var order := composer.rangeOrder;
    var m := LastMatching(order, PhpKeySwitch);
    var r := DetectPHPFramework(p, Success(composer)).value;
    assert r == Apply(p, m);
    if exists k :: k in composer.require && (Contains(k, "laravel") || Contains(k, "symfony")) {
      var k :| k in composer.require && (Contains(k, "laravel") || Contains(k, "symfony"));
      assert k in order;
      var i :| 0 <= i < |order| && order[i] == k;
      assert m.Some?;
      var j :| 0 <= j < |order| && PhpKeySwitch(order[j]) == m;
      assert m.value.port == "8000" && r.ports == [m.value.port];
    } else {
      forall i | 0 <= i < |order| ensures PhpKeySwitch(order[i]).None? {
        assert order[i] in composer.require;
      }
    }
  }


  /** With both a laravel and a symfony package required, the range order decides. */
  lemma PhpFrameworkDependsOnOrder(p: ProjectType)
    ensures var keys := map["laravel/framework" := "^10.0", "symfony/console" := "^6.0"];
      && DetectPHPFramework(p, Success(ComposerRequire(keys, ["laravel/framework", "symfony/console"]))).value.framework == "symfony"
      && DetectPHPFramework(p, Success(ComposerRequire(keys, ["symfony/console", "laravel/framework"]))).value.framework == "laravel"
  {
    SymfonyKey();
    LaravelKey();
  }

  lemma SymfonyKey()
    ensures PhpKeySwitch("symfony/console") == Some(Detected("symfony", "8000"))
  {
    SymfonyKeyLacksLaravel();
    SymfonyKeyNamesSymfony();
  }

  lemma SymfonyKeyLacksLaravel()
    ensures !Contains("symfony/console", "laravel")
  {
    MissingCharNotContained("symfony/console", "laravel", 'v');
  }

  lemma SymfonyKeyNamesSymfony()
    ensures Contains("symfony/console", "symfony")
  {
    ContainsInfix("", "symfony", "/console");
    assert "" + "symfony" + "/console" == "symfony/console";
  }

  lemma LaravelKey()
    ensures PhpKeySwitch("laravel/framework") == Some(Detected("laravel", "8000"))
  {
    ContainsInfix("", "laravel", "/framework");
    assert "" + "laravel" + "/framework" == "laravel/framework";
  }

  // ---------------------------------------------------------------------------------------
  // Ruby

  /** The Ruby classifier: "rails" anywhere in the Gemfile. */
  function DetectRubyFramework(p: ProjectType, manifest: Result<string>): (r: Result<ProjectType>)
    ensures manifest.Failure? ==> r == Failure(manifest.error)
    ensures manifest.Success? && Contains(manifest.value, "rails") ==>
      r == Success(p.(framework := "rails", ports := ["3000"]))
    ensures manifest.Success? && !Contains(manifest.value, "rails") ==> r == Success(p)
  {
    match manifest
    case Failure(e) => Failure(e)
    case Success(content) =>
      if Contains(content, "rails") then Success(Apply(p, Some(Detected("rails", "3000"))))
      else Success(p)
  }

  // ---------------------------------------------------------------------------------------
  // The directory walk

  /** An indicator file and what it says about the project. */
  datatype Indicator = Indicator(file: string, language: string, baseImage: string)

  const Indicators: seq<Indicator> := [
    Indicator("package.json", "nodejs", "node:18-alpine"),
    Indicator("requirements.txt", "python", "python:3.9-slim"),
    Indicator("go.mod", "go", "golang:1.21-alpine"),
    Indicator("pom.xml", "java", "openjdk:17-slim"),
    Indicator("composer.json", "php", "php:8.2-fpm"),
    Indicator("Gemfile", "ruby", "ruby:3.2-alpine")]

  /** The indicator table row for a file name, if any. */
  function IndicatorFor(name: string): (r: Option<Indicator>)
    ensures r.Some? <==> exists i :: 0 <= i < |Indicators| && Indicators[i].file == name
    ensures r.Some? ==> r.value in Indicators && r.value.file == name
  {
    if name == "package.json" then Some(Indicators[0])
    else if name == "requirements.txt" then Some(Indicators[1])
    else if name == "go.mod" then Some(Indicators[2])
    else if name == "pom.xml" then Some(Indicators[3])
    else if name == "composer.json" then Some(Indicators[4])
    else if name == "Gemfile" then Some(Indicators[5])
    else None
  }

  predicate IsIndicator(name: string) {
    IndicatorFor(name).Some?
  }

  /** The indicator `name` is present and its classifier cannot read or parse its manifest. */
  predicate ManifestFails(name: string, m: Manifests) {
    || (name == "package.json" && m.packageJson.Failure?)
    || (name == "requirements.txt" && m.requirementsTxt.Failure?)
    || (name == "go.mod" && m.goMod.Failure?)
    || (name == "composer.json" && m.composerJson.Failure?)
    || (name == "Gemfile" && m.gemfile.Failure?)
  }

  /** The read or parse error of the manifest behind a failing indicator. */
  function ManifestError(name: string, m: Manifests): string
    requires ManifestFails(name, m)
  {
    if name == "package.json" then m.packageJson.error
    else if name == "requirements.txt" then m.requirementsTxt.error
    else if name == "go.mod" then m.goMod.error
    else if name == "composer.json" then m.composerJson.error
    else m.gemfile.error
  }

  /** What the classifier of `name` finds in a readable manifest, by the reference definitions
      of first and last match: a framework catalog hit or nothing. A name without a
      classifier, and an unreadable manifest, find nothing. */
  function Finding(name: string, m: Manifests): Option<Detected> {
    if name == "package.json" && m.packageJson.Success? then
      FirstMatching(NodeCatalog, k => DeclaresVersion(Merged(m.packageJson.value), k))
    else if name == "requirements.txt" && m.requirementsTxt.Success? then
      LastMatching(Split(m.requirementsTxt.value, '\n'), PythonLineSwitch)
    else if name == "go.mod" && m.goMod.Success? then
      FirstMatching(GoCatalog, k => Contains(m.goMod.value, k))
    else if name == "composer.json" && m.composerJson.Success? then
      LastMatching(m.composerJson.value.rangeOrder, PhpKeySwitch)
    else if name == "Gemfile" && m.gemfile.Success? && Contains(m.gemfile.value, "rails") then
      Some(Detected("rails", "3000"))
    else None
  }

  /** The framework an entry sets, if it sets one: `pom.xml` always sets "spring-boot", the
      other indicators set the framework their classifier finds. */
  function FrameworkSet(name: string, m: Manifests): Option<string> {
    if name == "pom.xml" then Some("spring-boot")
    else match Finding(name, m)
      case Some(d) => Some(d.framework)
      case None => None
  }

  /** The ports an entry sets, if it sets them: the one default port of the framework found. */
  function PortsSet(name: string, m: Manifests): Option<seq<string>> {
    match Finding(name, m)
    case Some(d) => Some([d.port])
    case None => None
  }

  /** The dependency list an entry sets, if it sets one: the range order of the merged Node
      dependencies, or the lines of `requirements.txt`. */
  function DependenciesSet(name: string, m: Manifests): Option<seq<string>> {
    if name == "package.json" && m.packageJson.Success? then Some(m.packageJson.value.rangeOrder)
    else if name == "requirements.txt" && m.requirementsTxt.Success? then
      Some(Split(m.requirementsTxt.value, '\n'))
    else None
  }

  /** The value set, or `default` when nothing is set. */
  function Otherwise<T>(o: Option<T>, default: T): T {
    match o
    case Some(x) => x
    case None => default
  }

  /** One iteration of the walk: an indicator overwrites language and base image and runs
      its classifier; any other name changes nothing. */
  function Step(p: ProjectType, name: string, m: Manifests): (r: Result<ProjectType>)
    requires WellFormed(m)
    ensures r.Failure? <==> ManifestFails(name, m)
    ensures r.Failure? ==> r.error == ManifestError(name, m)
    ensures r.Success? && IsIndicator(name) ==>
      r.value.language == IndicatorFor(name).value.language
      && r.value.baseImage == IndicatorFor(name).value.baseImage
    ensures r.Success? && !IsIndicator(name) ==> r.value == p
    ensures r.Success? ==> r.value.database == p.database
    ensures r.Success? ==> r.value.framework == Otherwise(FrameworkSet(name, m), p.framework)
    ensures r.Success? ==> r.value.ports == Otherwise(PortsSet(name, m), p.ports)
    ensures r.Success? ==> r.value.dependencies == Otherwise(DependenciesSet(name, m), p.dependencies)
  {
    match IndicatorFor(name)
    case None => Success(p)
    case Some(ind) =>
      var q := p.(language := ind.language, baseImage := ind.baseImage);
      ClassifySettles(q, name, m);
      Classify(q, name, m)
  }

  /** The classifier an indicator file runs; it leaves language, base image and database as
      they are, and fails with the error of the manifest it cannot read. */
  function Classify(p: ProjectType, name: string, m: Manifests): (r: Result<ProjectType>)
    requires WellFormed(m)
    ensures name == "package.json" ==> r == DetectNodeFramework(p, m.packageJson)
    ensures name == "requirements.txt" ==> r == DetectPythonFramework(p, m.requirementsTxt)
    ensures name == "go.mod" ==> r == DetectGoFramework(p, m.goMod)
    ensures name == "pom.xml" ==> r == Success(p.(framework := "spring-boot"))
    ensures name == "composer.json" ==> r == DetectPHPFramework(p, m.composerJson)
    ensures name == "Gemfile" ==> r == DetectRubyFramework(p, m.gemfile)
    ensures !IsIndicator(name) ==> r == Success(p)
    ensures r.Failure? <==> ManifestFails(name, m)
    ensures r.Failure? ==> r.error == ManifestError(name, m)
    ensures r.Success? ==>
      r.value.language == p.language && r.value.baseImage == p.baseImage && r.value.database == p.database
  {
    if name == "package.json" then DetectNodeFramework(p, m.packageJson)
    else if name == "requirements.txt" then DetectPythonFramework(p, m.requirementsTxt)
    else if name == "go.mod" then DetectGoFramework(p, m.goMod)
    else if name == "pom.xml" then Success(p.(framework := "spring-boot"))
    else if name == "composer.json" then DetectPHPFramework(p, m.composerJson)
    else if name == "Gemfile" then DetectRubyFramework(p, m.gemfile)
    else Success(p)
  }

  /** What a successful classifier run settles: framework, ports and dependencies are those the
      entry sets, and otherwise stay as they were. */
  lemma ClassifySettles(p: ProjectType, name: string, m: Manifests)
    requires WellFormed(m)
    ensures var r := Classify(p, name, m);
      r.Success? ==>
        && r.value.framework == Otherwise(FrameworkSet(name, m), p.framework)
        && r.value.ports == Otherwise(PortsSet(name, m), p.ports)
        && r.value.dependencies == Otherwise(DependenciesSet(name, m), p.dependencies)
  {
    if name == "package.json" {
      if m.packageJson.Success? { NodeSettles(p, m); }
    } else if name == "requirements.txt" {
      if m.requirementsTxt.Success? { PythonSettles(p, m); }
    } else if name == "go.mod" {
      if m.goMod.Success? { GoSettles(p, m); }
    } else if name == "composer.json" {
      if m.composerJson.Success? { PhpSettles(p, m); }
    } else if name == "Gemfile" {
      if m.gemfile.Success? { RubySettles(p, m); }
    } else if name != "pom.xml" {
      assert Finding(name, m) == None && DependenciesSet(name, m) == None;
    }
  }

  lemma NodeSettles(p: ProjectType, m: Manifests)
    requires WellFormed(m)
    requires m.packageJson.Success?
    ensures var r := DetectNodeFramework(p, m.packageJson).value;
      && r.framework == Otherwise(FrameworkSet("package.json", m), p.framework)
      && r.ports == Otherwise(PortsSet("package.json", m), p.ports)
      && r.dependencies == Otherwise(DependenciesSet("package.json", m), p.dependencies)
  {
    var r := DetectNodeFramework(p, m.packageJson).value;
    var d := FirstMatching(NodeCatalog, k => DeclaresVersion(Merged(m.packageJson.value), k));
    assert r.framework == Apply(p, d).framework && r.ports == Apply(p, d).ports;
    assert Finding("package.json", m) == d;
    FindingSettles(p, r, d, "package.json", m);
  }

  lemma PythonSettles(p: ProjectType, m: Manifests)
    requires m.requirementsTxt.Success?
    ensures var r := DetectPythonFramework(p, m.requirementsTxt).value;
      && r.framework == Otherwise(FrameworkSet("requirements.txt", m), p.framework)
      && r.ports == Otherwise(PortsSet("requirements.txt", m), p.ports)
      && r.dependencies == Otherwise(DependenciesSet("requirements.txt", m), p.dependencies)
  {
    var r := DetectPythonFramework(p, m.requirementsTxt).value;
    var d := PythonApplies(p, m.requirementsTxt.value);
    PythonFinding(m);
    FindingSettles(p, r, d, "requirements.txt", m);
  }

  lemma PythonApplies(p: ProjectType, content: string) returns (d: Option<Detected>)
    ensures d == LastMatching(Split(content, '\n'), PythonLineSwitch)
    ensures var r := DetectPythonFramework(p, Success(content)).value;
      r.framework == Apply(p, d).framework && r.ports == Apply(p, d).ports
  {
    d := LastMatching(Split(content, '\n'), PythonLineSwitch);
  }

  lemma PythonFinding(m: Manifests)
    requires m.requirementsTxt.Success?
    ensures Finding("requirements.txt", m)
      == LastMatching(Split(m.requirementsTxt.value, '\n'), PythonLineSwitch)
    ensures DependenciesSet("requirements.txt", m) == Some(Split(m.requirementsTxt.value, '\n'))
  {
  }

  lemma GoSettles(p: ProjectType, m: Manifests)
    requires m.goMod.Success?
    ensures var r := DetectGoFramework(p, m.goMod).value;
      && r.framework == Otherwise(FrameworkSet("go.mod", m), p.framework)
      && r.ports == Otherwise(PortsSet("go.mod", m), p.ports)
      && r.dependencies == Otherwise(DependenciesSet("go.mod", m), p.dependencies)
  {
    var r := DetectGoFramework(p, m.goMod).value;
    var d := FirstMatching(GoCatalog, k => Contains(m.goMod.value, k));
    assert Finding("go.mod", m) == d && DependenciesSet("go.mod", m) == None;
    FindingSettles(p, r, d, "go.mod", m);
  }

  lemma PhpSettles(p: ProjectType, m: Manifests)
    requires m.composerJson.Success?
    ensures var r := DetectPHPFramework(p, m.composerJson).value;
      && r.framework == Otherwise(FrameworkSet("composer.json", m), p.framework)
      && r.ports == Otherwise(PortsSet("composer.json", m), p.ports)
      && r.dependencies == Otherwise(DependenciesSet("composer.json", m), p.dependencies)
  {
    var r := DetectPHPFramework(p, m.composerJson).value;
    var d := LastMatching(m.composerJson.value.rangeOrder, PhpKeySwitch);
    assert Finding("composer.json", m) == d && DependenciesSet("composer.json", m) == None;
    FindingSettles(p, r, d, "composer.json", m);
  }

  lemma RubySettles(p: ProjectType, m: Manifests)
    requires m.gemfile.Success?
    ensures var r := DetectRubyFramework(p, m.gemfile).value;
      && r.framework == Otherwise(FrameworkSet("Gemfile", m), p.framework)
      && r.ports == Otherwise(PortsSet("Gemfile", m), p.ports)
      && r.dependencies == Otherwise(DependenciesSet("Gemfile", m), p.dependencies)
  {
    var r := DetectRubyFramework(p, m.gemfile).value;
    var d := if Contains(m.gemfile.value, "rails") then Some(Detected("rails", "3000")) else None;
    assert Finding("Gemfile", m) == d && DependenciesSet("Gemfile", m) == None;
    FindingSettles(p, r, d, "Gemfile", m);
  }

  /** A classifier result that applies the finding of `name` has the framework and ports the
      entry sets. */
  lemma FindingSettles(p: ProjectType, r: ProjectType, d: Option<Detected>, name: string, m: Manifests)
    requires name != "pom.xml" && Finding(name, m) == d
    requires r.framework == Apply(p, d).framework && r.ports == Apply(p, d).ports
    ensures r.framework == Otherwise(FrameworkSet(name, m), p.framework)
    ensures r.ports == Otherwise(PortsSet(name, m), p.ports)
  {
  }

  /** The loop over the directory entries; the first classifier error aborts it, so a failed
      walk carries the error of the first entry whose manifest cannot be read. */
  function Walk(p: ProjectType, names: seq<string>, m: Manifests): (r: Result<ProjectType>)
    requires WellFormed(m)
    ensures r.Failure? ==> exists i :: (0 <= i < |names| && ManifestFails(names[i], m)
      && r.error == ManifestError(names[i], m)
      && forall j :: 0 <= j < i ==> !ManifestFails(names[j], m))
    decreases |names|
  {
    if names == [] then Success(p)
    else
      match Step(p, names[0], m)
      case Failure(e) => Failure(e)
      case Success(q) =>
        var r := Walk(q, names[1..], m);
        assert r.Failure? ==> exists i :: (1 <= i < |names| && ManifestFails(names[i], m)
          && r.error == ManifestError(names[i], m)
          && forall j :: 0 <= j < i ==> !ManifestFails(names[j], m))
        by {
          if r.Failure? {
            var i :| 0 <= i < |names| - 1 && ManifestFails(names[1..][i], m)
              && r.error == ManifestError(names[1..][i], m)
              && forall j :: 0 <= j < i ==> !ManifestFails(names[1..][j], m);
            assert forall j :: 0 <= j < i + 1 ==> !ManifestFails(names[j], m) by {
              forall j | 0 <= j < i + 1 ensures !ManifestFails(names[j], m) {
                if j > 0 { assert names[j] == names[1..][j - 1]; }
              }
            }
            assert names[i + 1] == names[1..][i];
          }
        }
        r
  }

  /** `AnalyzeProject` over a listing (or the error reading the directory). */
  function AnalyzeProject(listing: Result<seq<string>>, m: Manifests): (r: Result<ProjectType>)
    requires WellFormed(m)
    ensures listing.Failure? ==> r == Failure(listing.error)
    ensures listing.Success? ==>
      (r.Failure? <==> exists n :: n in listing.value && ManifestFails(n, m))
    ensures listing.Success? && r.Failure? ==> exists i :: (0 <= i < |listing.value|
      && ManifestFails(listing.value[i], m) && r.error == ManifestError(listing.value[i], m)
      && forall j :: 0 <= j < i ==> !ManifestFails(listing.value[j], m))
    ensures r.Success? ==> match LastMatching(listing.value, IndicatorFor)
      case None => r.value.language == "" && r.value.baseImage == ""
      case Some(ind) => r.value.language == ind.language && r.value.baseImage == ind.baseImage
    ensures r.Success? ==>
      r.value.framework == Otherwise(LastMatching(listing.value, n => FrameworkSet(n, m)), "")
    ensures r.Success? ==>
      r.value.ports == Otherwise(LastMatching(listing.value, n => PortsSet(n, m)), [])
    ensures r.Success? ==>
      r.value.dependencies == Otherwise(LastMatching(listing.value, n => DependenciesSet(n, m)), [])
    ensures r.Success? ==> r.value.database == ""
  {
    match listing
    case Failure(e) => Failure(e)
    case Success(names) =>
      WalkFailsIff(EmptyProject, names, m);
      WalkLastIndicator(EmptyProject, names, m);
      WalkSettles(EmptyProject, names, m);
      Walk(EmptyProject, names, m)
  }

  /** The walk fails exactly when some indicator's manifest cannot be read or parsed. */
  lemma {:induction false} WalkFailsIff(p: ProjectType, names: seq<string>, m: Manifests)
    requires WellFormed(m)
    ensures Walk(p, names, m).Failure? <==> exists n :: n in names && ManifestFails(n, m)
    decreases |names|
  {
    if names != [] {
      assert forall n :: n in names <==> n == names[0] || n in names[1..] by {
        assert names == [names[0]] + names[1..];
      }
      match Step(p, names[0], m)
      case Failure(_) =>
      case Success(q) => WalkFailsIff(q, names[1..], m);
    }
  }

  /** Language and base image come from the last indicator of the listing, and the walk
      leaves the database choice alone. */
  lemma {:induction false} WalkLastIndicator(p: ProjectType, names: seq<string>, m: Manifests)
    requires WellFormed(m)
    ensures Walk(p, names, m).Success? ==> Walk(p, names, m).value.database == p.database
    ensures Walk(p, names, m).Success? ==> match LastMatching(names, IndicatorFor)
      case None => (Walk(p, names, m).value.language == p.language
                   && Walk(p, names, m).value.baseImage == p.baseImage)
      case Some(ind) => (Walk(p, names, m).value.language == ind.language
                   && Walk(p, names, m).value.baseImage == ind.baseImage)
    decreases |names|
  {
    if names != [] {
      match Step(p, names[0], m)
      case Failure(_) =>
      case Success(q) =>
        assert Walk(p, names, m) == Walk(q, names[1..], m);
        WalkLastIndicator(q, names[1..], m);
        LastMatchingCons(names[0], names[1..], IndicatorFor);
        assert [names[0]] + names[1..] == names;
    }
  }

  /** A field that every step either sets to what the entry sets or leaves alone ends the
      walk holding what the last setting entry set, or its starting value if none sets it. */
  lemma {:induction false} WalkSettlesField<T>(p: ProjectType, names: seq<string>, m: Manifests,
                                              field: ProjectType -> T, sets: string -> Option<T>)
    requires WellFormed(m)
    requires forall q, n :: Step(q, n, m).Success? ==>
      field(Step(q, n, m).value) == Otherwise(sets(n), field(q))
    ensures Walk(p, names, m).Success? ==>
      field(Walk(p, names, m).value) == Otherwise(LastMatching(names, sets), field(p))
    decreases |names|
  {
    if names != [] {
      match Step(p, names[0], m)
      case Failure(_) =>
      case Success(q) =>
        assert field(q) == Otherwise(sets(names[0]), field(p));
        assert Walk(p, names, m) == Walk(q, names[1..], m);
        WalkSettlesField(q, names[1..], m, field, sets);
        LastMatchingCons(names[0], names[1..], sets);
        assert [names[0]] + names[1..] == names;
    }
  }

  /** Framework, ports and dependencies after the walk are those set by the last entry that
      sets them; there is no early exit once a framework is found. */
  lemma WalkSettles(p: ProjectType, names: seq<string>, m: Manifests)
    requires WellFormed(m)
    ensures var r := Walk(p, names, m);
      r.Success? ==>
        && r.value.framework == Otherwise(LastMatching(names, n => FrameworkSet(n, m)), p.framework)
        && r.value.ports == Otherwise(LastMatching(names, n => PortsSet(n, m)), p.ports)
        && r.value.dependencies
             == Otherwise(LastMatching(names, n => DependenciesSet(n, m)), p.dependencies)
  {
    WalkSettlesField(p, names, m, (q: ProjectType) => q.framework, n => FrameworkSet(n, m));
    WalkSettlesField(p, names, m, (q: ProjectType) => q.ports, n => PortsSet(n, m));
    WalkSettlesField(p, names, m, (q: ProjectType) => q.dependencies, n => DependenciesSet(n, m));
  }

  /** A listing without any of the six indicator names gives the empty descriptor. */
  lemma {:induction false} NoIndicatorGivesEmpty(names: seq<string>, m: Manifests)
    requires WellFormed(m)
    requires forall i :: 0 <= i < |names| ==> !IsIndicator(names[i])
    ensures AnalyzeProject(Success(names), m) == Success(EmptyProject)
  {
    WalkWithoutIndicators(EmptyProject, names, m);
  }

  lemma {:induction false} WalkWithoutIndicators(p: ProjectType, names: seq<string>, m: Manifests)
    requires WellFormed(m)
    requires forall i :: 0 <= i < |names| ==> !IsIndicator(names[i])
    ensures Walk(p, names, m) == Success(p)
    decreases |names|
  {
    if names != [] {
      assert !IsIndicator(names[0]);
      WalkWithoutIndicators(p, names[1..], m);
    }
  }

  /** Every language the analysis can report. */
  lemma AnalyzedLanguages(listing: Result<seq<string>>, m: Manifests)
    requires WellFormed(m)
    ensures AnalyzeProject(listing, m).Success? ==>
      AnalyzeProject(listing, m).value.language in {"", "nodejs", "python", "go", "java", "php", "ruby"}
  {
    if listing.Success? {
      assert AnalyzeProject(listing, m) == Walk(EmptyProject, listing.value, m);
      WalkLastIndicator(EmptyProject, listing.value, m);
      IndicatorLanguages(listing.value);
    }
  }

  lemma IndicatorLanguages(names: seq<string>)
    ensures var last := LastMatching(names, IndicatorFor);
      last.Some? ==> last.value.language in {"nodejs", "python", "go", "java", "php", "ruby"}
  {
    var last := LastMatching(names, IndicatorFor);
    if last.Some? {
      var i :| 0 <= i < |names| && IndicatorFor(names[i]) == last;
    }
  }

  /** A later indicator whose classifier finds nothing keeps the earlier framework and ports,
      while still taking over the language. `os.ReadDir` lists `go.mod` before `package.json`,
      so a Go module importing gin next to a `package.json` without a catalogued framework is
      reported as a Node.js project with framework gin on port 8080. */
  lemma EarlierFrameworkSurvives(pkg: PackageJson, goMod: string, m: Manifests)
    requires WellFormed(m)
    requires m.packageJson == Success(pkg) && m.goMod == Success(goMod)
    requires Contains(goMod, "github.com/gin-gonic/gin")
    requires forall i :: 0 <= i < |NodeCatalog| ==> !DeclaresVersion(Merged(pkg), NodeCatalog[i].key)
    ensures var r := AnalyzeProject(Success(["go.mod", "package.json"]), m);
      r.Success? && r.value.language == "nodejs" && r.value.framework == "gin"
      && r.value.ports == ["8080"]
  {
    var r := GinThenNode(pkg, goMod, m);
    assert AnalyzeProject(Success(["go.mod", "package.json"]), m) == Success(r);
  }

  lemma GinThenNode(pkg: PackageJson, goMod: string, m: Manifests) returns (r: ProjectType)
    requires WellFormed(m)
    requires m.packageJson == Success(pkg) && m.goMod == Success(goMod)
    requires Contains(goMod, "github.com/gin-gonic/gin")
    requires forall i :: 0 <= i < |NodeCatalog| ==> !DeclaresVersion(Merged(pkg), NodeCatalog[i].key)
    ensures Walk(EmptyProject, ["go.mod", "package.json"], m) == Success(r)
    ensures r.language == "nodejs" && r.framework == "gin" && r.ports == ["8080"]
  {
    var p1 := GinStep(goMod, m);
    NoNodeFramework(pkg);
    var p2 := Step(p1.value, "package.json", m);
    NodeIndicator();
    assert p2.Success? && p2.value.language == "nodejs";
    assert ["go.mod", "package.json"][1..] == ["package.json"];
    assert Walk(EmptyProject, ["go.mod", "package.json"], m) == Walk(p1.value, ["package.json"], m);
    r := p2.value;
  }

  lemma GinStep(goMod: string, m: Manifests) returns (p1: Result<ProjectType>)
    requires WellFormed(m)
    requires m.goMod == Success(goMod)
    requires Contains(goMod, "github.com/gin-gonic/gin")
    ensures p1 == Step(EmptyProject, "go.mod", m)
    ensures p1.Success? && p1.value.framework == "gin" && p1.value.ports == ["8080"]
  {
    p1 := Step(EmptyProject, "go.mod", m);
    GinFound(goMod);
  }

  lemma NodeIndicator()
    ensures IndicatorFor("package.json") == Some(Indicator("package.json", "nodejs", "node:18-alpine"))
  {
  }

  lemma GinFound(goMod: string)
    requires Contains(goMod, "github.com/gin-gonic/gin")
    ensures FirstMatching(GoCatalog, k => Contains(goMod, k)) == Some(Detected("gin", "8080"))
  {
    var r := GoSwitch(goMod);
  }

  lemma NoNodeFramework(pkg: PackageJson)
    requires forall i :: 0 <= i < |NodeCatalog| ==> !DeclaresVersion(Merged(pkg), NodeCatalog[i].key)
    ensures FirstMatching(NodeCatalog, k => DeclaresVersion(Merged(pkg), k)) == None
  {
  }

  /** A directory holding only a `go.mod` with a go directive and no framework import. */
  lemma GoModOnlyScenario(m: Manifests)
    requires WellFormed(m)
    requires m.goMod == Success("module x\n\ngo 1.21\n")
    ensures AnalyzeProject(Success(["go.mod"]), m)
      == Success(ProjectType("go", "", "golang:1.21-alpine", [], [], ""))
  {
    PlainGoModHasNoFramework();
    GoModOnlyWalk(m);
  }

  lemma PlainGoModHasNoFramework()
    ensures GoSwitch("module x\n\ngo 1.21\n") == None
  {
    var content := "module x\n\ngo 1.21\n";
    TooLongNotContained(content, "github.com/gin-gonic/gin");
    TooLongNotContained(content, "github.com/gofiber/fiber");
    TooLongNotContained(content, "github.com/labstack/echo");
  }

  /** A lone `go.mod` whose imports name no framework yields the bare Go descriptor. */
  lemma GoModOnlyWalk(m: Manifests)
    requires WellFormed(m)
    requires m.goMod.Success? && GoSwitch(m.goMod.value) == None
    ensures AnalyzeProject(Success(["go.mod"]), m)
      == Success(ProjectType("go", "", "golang:1.21-alpine", [], [], ""))
  {
    var q := EmptyProject.(language := "go", baseImage := "golang:1.21-alpine");
    assert DetectGoFramework(q, m.goMod) == Success(q);
    assert Classify(q, "go.mod", m) == Success(q);
    assert Step(EmptyProject, "go.mod", m) == Success(q);
    assert Walk(EmptyProject, ["go.mod"], m) == Walk(q, [], m);
  }
}
