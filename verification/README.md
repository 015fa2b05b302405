# dockerizer-cli: detection and generation core in Dafny

This project models the part of dockerizer-cli that decides what to containerise and how:

- **Analysis.** A directory listing and its manifests (`package.json`, `requirements.txt`, `go.mod`,
  `pom.xml`, `composer.json`, `Gemfile`) become a project descriptor: language token, framework,
  base image, dependencies and ports.
- **Version resolution.** Constraint texts such as `>=18.0.0` or `^8.1` are normalised to a
  `major.minor` tag. Each language has its own search order and fallback, and the result is used
  to rewrite the base image.
- **Dockerfile generation.** The validation chain decides whether anything is written at all. The
  template branch of each supported language is modelled as a list of Dockerfile instructions.
- **Compose generation.** The service map, networks and volumes of `docker-compose.yml` are built
  as a value, together with the nginx site that the laravel branch writes.
- **Port override.** The one piece of logic kept from the interactive command is the custom-port
  check, which replaces the first port.

Modules:

- `Results`: `Option` and `Result`.
- `Strings`: the `strings` package functions used by the core: `TrimSpace`, `TrimPrefix`,
  `HasPrefix`, `Contains`, `ToLower` and `Split`. `Join` is not called by the core; it is the
  specification helper that states what `Split` returns.
- `Patterns`: the version regular expressions, written as scanners.
- `Project`: the descriptor.
- `Analyzer`, `Constraints` and `Versions`: analysis and version resolution.
- `Dockerfile` and `Compose`: the two generators.
- `Ports`: `strconv.Atoi` and the range check.
- `Pipeline`: properties that connect the stages.

Inputs and outputs that sit outside the core become values:

- Every read and parse of a manifest is a `Result` input. Failure stands for a file that cannot
  be read or parsed.
- Optional files that the version detectors read without reporting errors are `Option` inputs.
- The directory listing is a sequence of names. `os.ReadDir` returns them sorted by name and
  without duplicates; the analysis contracts hold for every order, and the scenario lemmas use
  the sorted one.
- Where Go ranges over a map, the iteration order is a sequence parameter. Its only requirement
  is that it lists each key exactly once.
- A generated Dockerfile is an `Outcome`:
  - `NotCreated(error)`: validation failed.
  - `Removed(error)`: the file was created, then removed.
  - `Written(lines)`: the file was written.
- A generated compose file is a `ComposeOutput` value.

Where the descriptions of the program and its code disagree, the model follows the code:

- `parseVersionConstraint` is not idempotent. `=>1.2` gives `>1.2`, and a second pass gives
  `1.2` (`Constraints.ReversedOperatorResidue`).
- An empty `Database` adds no database service, even for a framework with a database mapping
  (`Compose.NoDatabaseWithoutRequest`).
- The analysis emits lower-case tokens such as `go` and `nodejs`, while the Dockerfile generator
  accepts only `Go`, `Node.js`, `PHP` and `Python`. So a descriptor produced by the analysis alone
  is never rendered (`Pipeline.AnalyzedProjectNotDockerized`), and the base-image rewrite ignores
  it (`Versions.AnalyzerTokensKeepImage`).
- The analyzer's descriptor declares no `Database` field, but the compose generator reads one and
  the interactive command writes one. The model's descriptor carries it, and the analysis leaves
  it empty.

## Model

| member | source | states |
|---|---|---|
| Strings.TrimPrefix | internal/analyzer/version_detector.go:161 | the prefix is removed exactly when the text starts with it; otherwise the text is unchanged |
| Strings.TrimSpace | internal/analyzer/version_detector.go:158 | the result has white space at neither end; already-trimmed text comes back unchanged |
| Strings.TrimSpaceRemovesEdgeSpace | internal/analyzer/version_detector.go:158 | the input is the trimmed text with only white space before and after it, so nothing inside is removed |
| Strings.ToLower | internal/analyzer/analyzer.go:143 | same length; every character is lower-cased one by one (ASCII letters shift by 32, the Kelvin sign and dotted capital I map to k and i, everything else is kept) |
| Strings.Split | internal/analyzer/version_detector.go:166 | at least one part; no part holds the separator; joining the parts with the separator gives back the input; there are two or more parts exactly when the separator occurs |
| Strings.SplitAtFirst | internal/analyzer/version_detector.go:166 | a separator-free piece followed by the separator is split off as the first part |
| Strings.ContainsIffOccurs | internal/analyzer/analyzer.go:169 | substring search holds exactly when the substring occurs at some position |
| Patterns.FindFirst | internal/analyzer/version_detector.go:127 | the leftmost match: the position found matches and no earlier position does; with no result, no position matches |
| Patterns.GoDirectiveFound | internal/analyzer/version_detector.go:126-129 | in `go <major>.<minor>…` the go-directive pattern extracts exactly `major.minor`, whatever follows the digits |
| Patterns.GoDirectiveAtIff | internal/analyzer/version_detector.go:126 | the go-directive scanner returns `v` at a position exactly when `go\s+(\d+\.\d+)` matches there with the leftmost-first capture `v` |
| Patterns.AssignedVersionAtIff | internal/analyzer/version_detector.go:93-101 | the pyproject and Pipfile scanners (key, `\s*=\s*`, a quote, then `\d+\.\d+`) return `v` at a position exactly when that pattern matches there capturing `v` |
| Patterns.RuntimePythonAtIff | internal/analyzer/version_detector.go:109 | the runtime.txt scanner returns `v` at a position exactly when `python-(\d+\.\d+)` matches there capturing `v` |
| Patterns.PomJavaAtIff | internal/analyzer/version_detector.go:138 | the pom.xml scanner returns `v` at a position exactly when `<java.version>(\d+)</java.version>` matches there capturing `v` |
| Patterns.GradleJavaAtIff | internal/analyzer/version_detector.go:146 | the build.gradle scanner returns `v` at a position exactly when `sourceCompatibility\s*=\s*['"](\d+)['"]` matches there capturing `v` |
| Constraints.ParseVersionConstraint | internal/analyzer/version_detector.go:156-171 | the result is empty exactly when the trimmed, operator-stripped text has no dot; otherwise it is the prefix of that text up to the second dot (or its end), holding exactly one dot |
| Constraints.ParseKeepsMajorMinor | internal/analyzer/version_detector.go:156-171 | a `digits.digits` input comes back unchanged |
| Constraints.ParseIdempotentOnBareResult | internal/analyzer/version_detector.go:156-171 | a second pass leaves a result alone when the result does not start with an operator or white space |
| Constraints.ReversedOperatorResidue | internal/analyzer/version_detector.go:159-163 | each operator is stripped at most once, in the fixed order: `=>v` leaves `>v`, and only a second pass yields `v` |
| Constraints.PessimisticOperatorStripped | internal/analyzer/version_detector.go:159-163 | `~>v` is normalised to `v`, because `~` and then `>` are stripped in turn |
| Constraints.StripSkips | internal/analyzer/version_detector.go:160-162 | operators the text does not start with are skipped without effect |
| Versions.FirstNonEmpty | internal/analyzer/version_detector.go:47-55 | when some candidate is non-empty the result is the first non-empty one, all before it being empty; the fallback when every candidate is empty; never empty when the fallback is not |
| Versions.DetectNodeVersion | internal/analyzer/version_detector.go:35-56 | a manifest error is passed on; otherwise the parsed `engines.node` if it is non-empty, else "18" |
| Versions.DetectPHPVersion | internal/analyzer/version_detector.go:58-88 | a manifest error is passed on; otherwise the parsed `require.php`, then the parsed `config.platform.php`, else "8.3" |
| Versions.FirstFound | internal/analyzer/version_detector.go:90-117 | when some search found something the result is what the first successful search found, all before it having found nothing; the fallback when none did |
| Versions.DetectPythonVersion | internal/analyzer/version_detector.go:90-117 | pyproject.toml, then Pipfile, then runtime.txt, else "3.9"; always a `major.minor` token |
| Versions.FirstFoundOfThree | internal/analyzer/version_detector.go:90-117 | with three searches the first hit wins, in order |
| Versions.DetectGoVersion | internal/analyzer/version_detector.go:119-133 | a read error is passed on; otherwise the first go directive, else "1.21"; always a `major.minor` token |
| Versions.DetectJavaVersion | internal/analyzer/version_detector.go:135-154 | pom.xml, then build.gradle, else "17"; always a run of digits |
| Versions.ImageVersionOfFormat | internal/analyzer/version_detector.go:185-214 | the version can be read back from each formatted image name (`node:%s-alpine`, `python:%s-slim`, `golang:%s-alpine`, `openjdk:%s-slim`, `php:%s-fpm`) |
| Versions.DetectVersion | internal/analyzer/version_detector.go:185-214 | the detector of a recognised label fails exactly for Node.js, Go and PHP with an unreadable manifest (Python and Java never fail); Python and Go versions are `major.minor` tokens, Java versions a run of digits |
| Versions.DetectedVersionNonEmpty | internal/analyzer/version_detector.go:188-213 | no detector reports success with an empty version, so a detector's success always triggers the rewrite |
| Versions.UpdateBaseImage | internal/analyzer/version_detector.go:181-218 | only the base image can change, only for the five recognised labels, and only when their detector succeeds; the new image then carries the detected version |
| Versions.UpdateBaseImageIdempotent | internal/analyzer/version_detector.go:181-218 | rewriting twice from the same files gives the same descriptor as rewriting once |
| Versions.AnalyzerTokensKeepImage | internal/analyzer/version_detector.go:185-215 | every language token the analysis emits, and the empty one, leaves the descriptor unchanged |
| Analyzer.FirstMatching | internal/analyzer/analyzer.go:106-122 | the first catalog row whose key matches decides; rows before it do not match; no result means no row matches |
| Analyzer.LastMatching | internal/analyzer/analyzer.go:142-155 | the last item that classifies decides; no later item classifies; no result means no item classifies |
| Analyzer.ScanIsLastMatch | internal/analyzer/analyzer.go:142-155 | overwriting framework and ports on every hit while scanning equals applying the last hit once |
| Analyzer.Merged | internal/analyzer/analyzer.go:98-104 | the merged keys are the union of both maps; devDependencies win on a clash |
| Analyzer.NodeSwitch | internal/analyzer/analyzer.go:106-122 | the Node switch is first-match over the catalog next, react, @angular/core, express, @nestjs/core, where a key matches when it is declared with a non-empty version |
| Analyzer.DetectNodeFramework | internal/analyzer/analyzer.go:85-130 | a manifest error is passed on; otherwise framework and ports come from the first matching catalog row, and the dependencies list every merged key exactly once |
| Analyzer.PythonLineSwitch | internal/analyzer/analyzer.go:143-154 | each requirement line is trimmed and lower-cased, then matched first-match by prefix against django, flask and fastapi in that order |
| Analyzer.DetectPythonFramework | internal/analyzer/analyzer.go:132-158 | a read error is passed on; otherwise the dependencies are the raw newline split, which joins back to the file, and the last matching line decides |
| Analyzer.GoSwitch | internal/analyzer/analyzer.go:168-180 | the Go switch is first-match by substring over gin, fiber and echo, in that order |
| Analyzer.DetectGoFramework | internal/analyzer/analyzer.go:160-181 | a read error is passed on; otherwise gin, then fiber, then echo, by substring, and framework and ports are left alone on no match |
| Analyzer.PhpKeySwitch | internal/analyzer/analyzer.go:198-205 | a require key classifies exactly when it contains laravel or symfony; laravel wins when it contains both; either way the port is 8000 |
| Analyzer.DetectPHPFramework | internal/analyzer/analyzer.go:183-209 | a manifest error is passed on; otherwise the last require key (in range order) that names laravel or symfony decides |
| Analyzer.PhpPortsIndependentOfOrder | internal/analyzer/analyzer.go:197-206 | with any laravel or symfony key the ports become ["8000"] in every range order; with none the descriptor is unchanged |
| Analyzer.PhpFrameworkDependsOnOrder | internal/analyzer/analyzer.go:197-206 | with both kinds of key, the two range orders give different frameworks |
| Analyzer.DetectRubyFramework | internal/analyzer/analyzer.go:211-225 | a read error is passed on; "rails" anywhere in the Gemfile gives rails on port 3000; otherwise nothing changes |
| Analyzer.IndicatorFor | internal/analyzer/analyzer.go:40-78 | a file name is an indicator exactly when it is one of the six table rows, and then it maps to that row |
| Analyzer.Classify | internal/analyzer/analyzer.go:40-78 | each indicator name runs its own classifier (pom.xml only sets spring-boot), any other name changes nothing; it fails exactly when that manifest fails, with that manifest's error, and keeps language, base image and database |
| Analyzer.ClassifySettles | internal/analyzer/analyzer.go:40-78 | a successful classifier sets framework, ports and dependencies to what the reference first/last-match definitions find in the manifest, and otherwise keeps them |
| Analyzer.Step | internal/analyzer/analyzer.go:37-80 | a directory entry fails exactly when it is an indicator whose manifest fails, with that error; an indicator overwrites language and base image; framework, ports and dependencies become what the entry sets or stay; any other name changes nothing |
| Analyzer.Walk | internal/analyzer/analyzer.go:37-80 | the first entry whose manifest fails aborts the loop: a failed walk carries that entry's error and no earlier entry fails |
| Analyzer.AnalyzeProject | internal/analyzer/analyzer.go:28-83 | a listing error is passed on; the analysis fails exactly when some listed indicator's manifest fails, with the error of the first such entry; language and base image come from the last indicator, or stay empty; framework, ports and dependencies come from the last entry that sets each, or stay empty; the database is never set |
| Analyzer.WalkFailsIff | internal/analyzer/analyzer.go:43-77 | the walk fails exactly when some entry is an indicator with a failing manifest |
| Analyzer.WalkLastIndicator | internal/analyzer/analyzer.go:37-80 | there is no early exit: the last indicator's language and base image survive |
| Analyzer.WalkSettlesField | internal/analyzer/analyzer.go:37-80 | a field that every step sets to what the entry sets, or leaves alone, ends the walk as the last entry set it, or as it started |
| Analyzer.WalkSettles | internal/analyzer/analyzer.go:37-80 | framework, ports and dependencies after the walk are those of the last entry that sets each; a later indicator without a finding does not clear an earlier one |
| Analyzer.NoIndicatorGivesEmpty | internal/analyzer/analyzer.go:29-82 | a listing without indicators yields the all-empty descriptor |
| Analyzer.AnalyzedLanguages | internal/analyzer/analyzer.go:41-74 | the analysed language is one of "", nodejs, python, go, java, php, ruby |
| Analyzer.EarlierFrameworkSurvives | internal/analyzer/analyzer.go:31-80 | in the name order `os.ReadDir` lists them, a go.mod importing gin and then a package.json without a catalogued framework give language nodejs but framework gin on port 8080 |
| Analyzer.GoModOnlyScenario | internal/analyzer/analyzer.go:54-59 | a lone go.mod with no framework import gives the bare Go descriptor |
| Dockerfile.GenerateDockerfile | internal/generator/dockerfile.go:158-210 | nothing is created exactly when validation rejects; each rejection carries the first failing check's error; a removed file is due to failed execution or empty output; a written file is non-empty and is the rendered template |
| Dockerfile.RefusalMessages | internal/generator/dockerfile.go:160-179 | the texts of the three validation errors, naming the refused language or framework |
| Dockerfile.AnalyzerTokensRejected | internal/generator/dockerfile.go:165-174 | every lower-case analysis token fails the supported-language check |
| Dockerfile.Render | internal/generator/dockerfile.go:12-155 | template execution aborts exactly for laravel without ports; it renders nothing exactly for a language outside the four template branches |
| Dockerfile.AcceptedRendersTwoStages | internal/generator/dockerfile.go:194-206 | an accepted descriptor is removed exactly when it is laravel without ports; anything written is a builder stage then one runtime stage with that language's hard-coded images |
| Dockerfile.NodeViews | internal/generator/dockerfile.go:12-54 | the Node branch exposes nothing; it has a node:18-alpine builder and runtime; its RUN scripts are npm install plus the framework's build and install steps |
| Dockerfile.NodeStartCommand | internal/generator/dockerfile.go:42-54 | the last instruction is the framework's start command; other frameworks copy the whole /app from the builder and run node index.js |
| Dockerfile.LaravelViews | internal/generator/dockerfile.go:56-108 | the laravel branch has a composer:latest builder and a php:8.2-fpm runtime, and exposes exactly the first port |
| Dockerfile.LaravelExposesFirstPort | internal/generator/dockerfile.go:89-104 | laravel with ports is written and exposes `Ports[0]`; without ports it is removed after failed execution |
| Dockerfile.LaravelWithoutPorts | internal/generator/dockerfile.go:194-198 | indexing an empty port list fails execution and the file is removed |
| Dockerfile.PythonViews | internal/generator/dockerfile.go:110-135 | python:3.9-slim builder and runtime; django and fastapi expose 8000, flask exposes 5000, anything else exposes nothing |
| Dockerfile.PythonStartCommand | internal/generator/dockerfile.go:124-135 | the last instruction is the framework's start command, or `python app.py` |
| Dockerfile.GoExposes | internal/generator/dockerfile.go:151-153 | one EXPOSE per port, in order |
| Dockerfile.ExposesOfPorts | internal/generator/dockerfile.go:151-153 | the EXPOSE lines of the range, read back, are exactly the port list |
| Dockerfile.GoViews | internal/generator/dockerfile.go:137-155 | golang:1.21-alpine builder, alpine:latest runtime, exposed ports equal to the port list |
| Dockerfile.GoExposesEveryPort | internal/generator/dockerfile.go:137-155 | a Go descriptor is always written; it exposes exactly its ports in order (none for no ports) and ends with `./main` |
| Dockerfile.OutputIgnoresOtherFields | internal/generator/dockerfile.go:12-155 | base image, dependencies and database play no part in the outcome |
| Compose.DefaultDBConfig | internal/generator/compose.go:184-225 | a configured database always has a known engine |
| Compose.DatabaseTable | internal/generator/compose.go:184-225 | which frameworks get a database, with the engine, version, port and database name of each |
| Compose.CreateDatabaseServiceZero | internal/generator/compose.go:227-294 | the zero service comes back exactly for an engine outside postgres, mysql and mongodb |
| Compose.DatabaseServiceShape | internal/generator/compose.go:227-294 | a known engine's service runs `<image>:<version>`, publishes `<Port>:<engine port>` and mounts `<engine>-data` |
| Compose.DatabaseServiceRuntime | internal/generator/compose.go:227-294 | a database service is health-checked every 10s with a 5s timeout and 5 retries, is on app-network, restarts unless stopped and has no dependencies |
| Compose.ZeroServiceUnreachable | internal/generator/compose.go:291-292 | the zero service is never produced for an engine from the table |
| Compose.AddDependencyEffect | internal/generator/compose.go:158-173 | adding a service adds one key, appends its name to the app's dependencies and leaves the other services alone |
| Compose.ComposeFrame | internal/generator/compose.go:77-96 | version 3.8, exactly the bridge network app-network, and an app built from ./Dockerfile with .env, on app-network, restarting unless stopped |
| Compose.AppAfterDependencies | internal/generator/compose.go:151-173 | the app's dependencies are the requested database's engine, then redis |
| Compose.AppPortsAndVolumes | internal/generator/compose.go:98-149 | laravel mounts the project into the app and publishes nothing; other frameworks publish exactly the project ports and mount nothing |
| Compose.ServiceKeys | internal/generator/compose.go:99-174 | the services are exactly app, nginx for laravel, the requested database's engine, and redis when a cache is needed |
| Compose.ServicePresence | internal/generator/compose.go:99-174 | per name: nginx exactly for laravel, redis exactly for laravel/rails/django/nestjs, each engine exactly for its frameworks when a database is requested |
| Compose.CacheFrameworksHaveDatabase | internal/generator/compose.go:314-319 | every framework that gets a cache (laravel, rails, django, nestjs) also has a database mapping |
| Compose.RedisServiceShape | internal/generator/compose.go:296-312 | the cache service mounts exactly one volume, the named volume redis-data, is on app-network, is health-checked and restarts unless stopped |
| Compose.RequestedEngine | internal/generator/compose.go:154-158 | the engine of a requested database, by framework |
| Compose.DependenciesResolve | internal/generator/compose.go:104-173 | every dependency of the app names a service of the same file; nginx depends on app; the database comes before redis |
| Compose.NginxKept | internal/generator/compose.go:104-113 | later stages do not touch the nginx service |
| Compose.WithDatabaseShape | internal/generator/compose.go:154-166 | after the database stage, the keys gain the engine and the app depends on it |
| Compose.ServiceValueAt | internal/generator/compose.go:77-174 | each name holds the service of its kind |
| Compose.ServiceValues | internal/generator/compose.go:77-174 | every service of the result is the one its name stands for |
| Compose.ServicesOnNetworkAndChecked | internal/generator/compose.go:227-312 | every service is on app-network; every service but app and nginx is health-checked (10s, 5s, 5 retries) and restarts unless stopped |
| Compose.TopLevelVolumes | internal/generator/compose.go:154-165 | the top-level volumes are exactly `<engine>-data` with the local driver when a database is added, so at most one |
| Compose.DatabaseValueIrrelevant | internal/generator/compose.go:154-158 | only whether `Database` is empty matters, not its value |
| Compose.NoDatabaseWithoutRequest | internal/generator/compose.go:154-166 | an empty `Database` means no database service and no volume |
| Compose.ComposeIgnoresLanguage | internal/generator/compose.go:77-182 | language, base image and dependencies play no part in the topology |
| Compose.NginxSiteResolves | internal/generator/compose.go:115-146 | the nginx site is written exactly for laravel; its upstream is a service of the same file on port 9000, and nginx publishes 80:80 |
| Compose.CacheVolumeMissing | internal/generator/compose.go:154-165 | no top-level volume is ever called redis-data |
| Compose.RedisVolumeUndeclared | internal/generator/compose.go:296-302 | as written, every framework with redis mounts an undeclared named volume |
| Compose.DjangoExample | internal/generator/compose.go:168-174 | a django project with a database produces a file whose redis volume is undeclared |
| Compose.CorrectionOnlyAddsCacheVolume | internal/generator/compose.go:159 | the correction changes nothing but the volume keys, and only by adding redis-data |
| Compose.CorrectedVolumesDeclared | internal/generator/compose.go:159 | with the correction, every named volume any service mounts is declared |
| Compose.MountedSources | internal/generator/compose.go:100-109 | app and nginx mount paths under the project directory; redis mounts redis-data; the database mounts `<engine>-data` |
| Ports.DecimalRoundTrip | cmd/main.go:89 | reading back the decimal text of a number gives the number |
| Ports.Atoi | cmd/main.go:89 | with a leading minus, plus or no sign, the conversion succeeds exactly for a non-empty run of decimal digits whose signed value fits in 64 bits, and returns that value |
| Ports.ValidatePort | cmd/main.go:88-97 | an accepted port converts to the same value and lies in 1..65535; the not-a-number message appears exactly when conversion fails, the range message otherwise |
| Ports.ValidatePortIff | cmd/main.go:88-97 | the prompt accepts exactly an optional plus sign and digits worth 1 to 65535, and returns their value |
| Ports.ValidatorMessages | cmd/main.go:89-96 | a minus sign is never accepted; a number too large for 64 bits gets the not-a-number message; one that fits but exceeds 65535 gets the range message |
| Ports.EveryPortAccepted | cmd/main.go:88-97 | every port in 1..65535 is accepted in plain decimal |
| Ports.OverridePrimaryPort | cmd/main.go:74-104 | the override succeeds exactly for port text; it then replaces `Ports[0]` verbatim and changes nothing else |
| Ports.OverrideKeepsTyping | cmd/main.go:104 | `+80` and `080` are accepted and kept as typed |
| Pipeline.AnalyzedProjectNotDockerized | internal/generator/dockerfile.go:160-174 | no analysed descriptor is rendered; each is refused as undetected or unsupported |
| Pipeline.AnalyzedProjectWithoutDatabase | internal/generator/compose.go:154 | the analysis alone never leads to a database service or volume |
| Pipeline.BaseImageRefinementInvisible | internal/analyzer/version_detector.go:181-218 | the base-image rewrite changes neither generated file |
| Pipeline.OverriddenPortReachesOutputs | cmd/main.go:104 | an overridden port becomes the app's first published port (except for laravel), and the first EXPOSE of a Go Dockerfile |

## Left out

- File-system effects are not modelled: reading the directory and manifests, creating, writing and removing files, creating directories. Listings and manifests are inputs, and the generators' file errors (`os.Create`, `Stat`, `MkdirAll`, `WriteFile`) have no counterpart.
- JSON and YAML parsing and serialisation are not modelled. The parsed manifest fields are inputs, and `ComposeConfig` is produced as a value, not as bytes.
- The Go text/template engine is not modelled. Whitespace, comments and line continuations of the template are not modelled. Each RUN script is one `Script` value whose text is given by `ScriptText`.
- Dockerfile.GenerateDockerfile: a failed execution is reported as `ExecutionFailed`, whose message keeps the index error but not the template-position prefix that text/template adds.
- The "empty output" branch of `GenerateDockerfile` is modelled but unreachable: every supported language renders instructions.
- The nginx configuration text is represented by its path, listen port, document root and upstream (`NginxSite`), not by its literal text.
- Go map iteration order is a parameter: the `require` keys of composer.json and the merged Node dependencies. Go's randomised order is not modelled.
- Dependency order in `Analyzer.DetectNodeFramework` is the iteration order, so it is specified only as "each merged key exactly once".
- `UpdateBaseImage` reads its files from the working directory. The model takes the read results as `VersionSources`, and the always-nil error result is not modelled.
- Ports.Atoi assumes a 64-bit `int`. The exact `strconv.NumError` texts are shortened to "invalid syntax" and "value out of range", because the prompt replaces them anyway.
- The interactive command's prompts, framework selection, database selection, database port prompt, configuration loading and CLI wiring are UI and I/O, and are not modelled. Only the custom-port check and its assignment to `Ports[0]` are modelled.
- Strings.ToLower: lower-cases only the code points whose lower case is ASCII (A-Z, the Kelvin sign and dotted capital I) and keeps every other character, whereas Go lowers all Unicode upper-case letters; the result is only compared against the ASCII prefixes django, flask and fastapi (analyzer.go:145-152), so the prefix tests give the same answers.
- Compose.GenerateCompose, Compose.CreateDatabaseService, Compose.RedisService and Compose.NeedsCache have no contracts of their own; they are specified by lemmas (ServiceKeys, ServicePresence, ServiceValues, DependenciesResolve, TopLevelVolumes, NginxSiteResolves; DatabaseServiceShape, CreateDatabaseServiceZero; RedisServiceShape; CacheFrameworksHaveDatabase), because contracts on them make every proof about the service map costlier.
- Analyzer.AnalyzeProject: the listing is not required to be sorted by name or free of duplicates, as `os.ReadDir` guarantees (internal/analyzer/analyzer.go:31); every contract holds for any order, so it also covers the orders the program never produces.
- `DetectDependencies` is a stub that returns nothing, and is not modelled.
- Compose's `Deploy` field and `Build.Args` are never set by the generator. They exist in the datatypes only.

## Findings

| source | as written | input that shows it | evidently intended | confidence | as-written member | corrected member |
|---|---|---|---|---|---|---|
| internal/generator/compose.go:168-174 | redis mounts the named volume `redis-data:/data` (line 301), but only `<engine>-data` is declared under the top-level volumes (line 159) | `ProjectType{Language: "Python", Framework: "django", Ports: ["8000"], Database: "postgres"}`: the file declares only postgres-data, while redis mounts redis-data | declare `redis-data` (driver local) whenever the redis service is added, so that compose accepts the file | medium, not executed | Compose.RedisVolumeUndeclared | Compose.CorrectedVolumesDeclared |
