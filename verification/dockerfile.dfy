/** `GenerateDockerfile`: validation of the project descriptor, then the multi-stage template
    rendered as a list of instructions. Comments and blank lines of the template carry no
    instruction and are not represented. */
module Dockerfile {
  import opened Results
  import opened Project

  /** One Dockerfile instruction. `From` with a stage name is `FROM <image> AS <stage>`;
      `Copy` with a stage is `COPY --from=<stage> <sources> <dest>`; `Cmd` is the exec form. */
  datatype Instruction =
    | From(image: string, stage: Option<string>)
    | Workdir(path: string)
    | Copy(fromStage: Option<string>, sources: seq<string>, dest: string)
    | Run(script: Script)
    | Env(name: string, value: string)
    | Expose(port: string)
    | Cmd(argv: seq<string>)

  const Builder: Option<string> := Some("builder")

  /** The shell scripts of the `RUN` instructions. */
  datatype Script =
    | NpmInstall | NpmBuild | NpmBuildProd | NpmInstallProduction | NpmInstallServe
    | ComposerInstall | AptInstall | AptClean | PhpExtensions | LaravelPermissions
    | PipInstall | GoModDownload | GoBuild | CaCertificates

  /** The text of each script, as the template spells it. */
  function ScriptText(s: Script): string {
    match s
    case NpmInstall => "npm install"
    case NpmBuild => "npm run build"
    case NpmBuildProd => "npm run build --prod"
    case NpmInstallProduction => "npm install --production"
    case NpmInstallServe => "npm install -g serve"
    case ComposerInstall => "composer install --no-dev --optimize-autoloader"
    case AptInstall => "apt-get update && apt-get install -y git curl libpng-dev libonig-dev libxml2-dev zip unzip"
    case AptClean => "apt-get clean && rm -rf /var/lib/apt/lists/*"
    case PhpExtensions => "docker-php-ext-install pdo_mysql mbstring exif pcntl bcmath gd"
    case LaravelPermissions => "chown -R www-data:www-data storage bootstrap/cache vendor"
    case PipInstall => "pip install --user -r requirements.txt"
    case GoModDownload => "go mod download"
    case GoBuild => "CGO_ENABLED=0 GOOS=linux go build -a -installsuffix cgo -o main ."
    case CaCertificates => "apk --no-cache add ca-certificates"
  }

  // ---------------------------------------------------------------------------------------
  // Independent views of an instruction list

  /** The ports of the `EXPOSE` instructions, in order. */
  function ExposedPorts(lines: seq<Instruction>): seq<string>
    decreases |lines|
  {
    if lines == [] then []
    else (if lines[0].Expose? then [lines[0].port] else []) + ExposedPorts(lines[1..])
  }

  /** The `FROM` instructions as (image, stage) pairs, in order. */
  function Stages(lines: seq<Instruction>): seq<(string, Option<string>)>
    decreases |lines|
  {
    if lines == [] then []
    else (if lines[0].From? then [(lines[0].image, lines[0].stage)] else []) + Stages(lines[1..])
  }

  /** The scripts of the `RUN` instructions, in order. */
  function RunCommands(lines: seq<Instruction>): seq<Script>
    decreases |lines|
  {
    if lines == [] then []
    else (if lines[0].Run? then [lines[0].script] else []) + RunCommands(lines[1..])
  }

  /** The views of a one-instruction list. */
  lemma ViewsOfSingle(x: Instruction)
    ensures ExposedPorts([x]) == if x.Expose? then [x.port] else []
    ensures Stages([x]) == if x.From? then [(x.image, x.stage)] else []
    ensures RunCommands([x]) == if x.Run? then [x.script] else []
  {
    assert [x][1..] == [];
  }

  /** The views of a two-instruction list. */
  lemma ViewsOfPair(x: Instruction, y: Instruction)
    ensures ExposedPorts([x, y]) == ExposedPorts([x]) + ExposedPorts([y])
    ensures Stages([x, y]) == Stages([x]) + Stages([y])
    ensures RunCommands([x, y]) == RunCommands([x]) + RunCommands([y])
  {
    assert [x, y][1..] == [y];
    assert [x][1..] == [];
  }

  lemma {:induction false} ExposedOfAppend(a: seq<Instruction>, b: seq<Instruction>)
    ensures ExposedPorts(a + b) == ExposedPorts(a) + ExposedPorts(b)
    decreases |a|
  {
    if a != [] {
      assert (a + b)[1..] == a[1..] + b;
      ExposedOfAppend(a[1..], b);
    } else {
      assert a + b == b;
    }
  }

  lemma {:induction false} StagesOfAppend(a: seq<Instruction>, b: seq<Instruction>)
    ensures Stages(a + b) == Stages(a) + Stages(b)
    decreases |a|
  {
    if a != [] {
      assert (a + b)[1..] == a[1..] + b;
      StagesOfAppend(a[1..], b);
    } else {
      assert a + b == b;
    }
  }

  lemma {:induction false} RunsOfAppend(a: seq<Instruction>, b: seq<Instruction>)
    ensures RunCommands(a + b) == RunCommands(a) + RunCommands(b)
    decreases |a|
  {
    if a != [] {
      assert (a + b)[1..] == a[1..] + b;
      RunsOfAppend(a[1..], b);
    } else {
      assert a + b == b;
    }
  }

  // ---------------------------------------------------------------------------------------
  // The template, one branch per language

  /** The Node.js branch: a build `RUN` for the three bundling frameworks, their runtime
      copies, and their start command. */
  function NodeTemplate(framework: string): seq<Instruction> {
    NodeBuilder() + NodeBuildRun(framework) + NodeRuntimeStage()
    + NodeRuntime(framework) + [Cmd(NodeCommand(framework))]
  }

  function NodeRuntimeStage(): seq<Instruction> {
    [From("node:18-alpine", None), Workdir("/app")]
  }

  function NodeBuilder(): seq<Instruction> {
    [ From("node:18-alpine", Builder), Workdir("/app"), Copy(None, ["package*.json"], "./"),
      Run(NpmInstall), Copy(None, ["."], ".") ]
  }

  function NodeBuildRun(framework: string): seq<Instruction> {
    if framework == "nextjs" then [Run(NpmBuild)]
    else if framework == "react" then [Run(NpmBuild)]
    else if framework == "angular" then [Run(NpmBuildProd)]
    else []
  }

  function NodeRuntime(framework: string): seq<Instruction> {
    if framework == "nextjs" then
      [ Copy(Builder, ["/app/.next"], "./.next"), Copy(Builder, ["/app/public"], "./public"),
        Copy(Builder, ["/app/package*.json"], "./"), Copy(Builder, ["/app/node_modules"], "./node_modules") ]
    else if framework == "react" then
      [ Copy(Builder, ["/app/build"], "./build"), Copy(Builder, ["/app/package*.json"], "./"),
        Run(NpmInstallProduction) ]
    else if framework == "angular" then
      [ Copy(Builder, ["/app/dist"], "./dist"), Run(NpmInstallServe) ]
    else
      [ Copy(Builder, ["/app"], ".") ]
  }

  function NodeCommand(framework: string): seq<string> {
    if framework == "nextjs" then ["npm", "start"]
    else if framework == "react" then ["npm", "start"]
    else if framework == "angular" then ["serve", "-s", "dist"]
    else ["node", "index.js"]
  }

  /** The PHP branch. For laravel it exposes the first project port, which the template
      engine cannot index when the port list is empty; any other framework exposes 9000. */
  function PhpTemplate(framework: string, ports: seq<string>): Option<seq<Instruction>> {
    var common := PhpBuilder() + PhpRuntime();
    if framework == "laravel" then
      if |ports| == 0 then None
      else Some(common + LaravelSetup() + PhpTail(ports[0]))
    else Some(common + PhpTail("9000"))
  }

  function PhpTail(port: string): seq<Instruction> {
    [Expose(port), Cmd(["php-fpm"])]
  }

  function LaravelSetup(): seq<Instruction> {
    [ Run(LaravelPermissions),
      Env("APP_ENV", "production"), Env("APP_DEBUG", "false") ]
  }

  function PhpBuilder(): seq<Instruction> {
    [ From("composer:latest", Builder), Workdir("/app"),
      Copy(None, ["composer.json", "composer.lock"], "./"),
      Run(ComposerInstall) ]
  }

  function PhpRuntime(): seq<Instruction> {
    [ From("php:8.2-fpm", None), Workdir("/var/www/html"),
      Run(AptInstall),
      Run(AptClean),
      Run(PhpExtensions),
      Copy(Builder, ["/app/vendor"], "./vendor"), Copy(None, ["."], ".") ]
  }

  /** The Python branch: the port and command of the three web frameworks, else `app.py`. */
  function PythonTemplate(framework: string): seq<Instruction> {
    PythonStages() + PythonTail(framework)
  }

  function PythonStages(): seq<Instruction> {
    [ From("python:3.9-slim", Builder), Workdir("/app"), Copy(None, ["requirements.txt"], "."),
      Run(PipInstall),
      From("python:3.9-slim", None), Workdir("/app"), Copy(Builder, ["/root/.local"], "/root/.local"),
      Copy(None, ["."], "."), Env("PATH", "/root/.local/bin:$PATH") ]
  }

  function PythonTail(framework: string): seq<Instruction> {
    if framework == "django" then
      [Expose("8000"), Cmd(["python", "manage.py", "runserver", "0.0.0.0:8000"])]
    else if framework == "flask" then
      [Expose("5000"), Cmd(["flask", "run", "--host=0.0.0.0"])]
    else if framework == "fastapi" then
      [Expose("8000"), Cmd(["uvicorn", "main:app", "--host", "0.0.0.0", "--port", "8000"])]
    else
      [Cmd(["python", "app.py"])]
  }

  /** The Go branch: a static build, an alpine runtime, one `EXPOSE` per project port. */
  function GoTemplate(ports: seq<string>): seq<Instruction> {
    GoStages() + GoExposes(ports) + [Cmd(["./main"])]
  }

  function GoStages(): seq<Instruction> {
    [ From("golang:1.21-alpine", Builder), Workdir("/app"), Copy(None, ["go.*"], "./"),
      Run(GoModDownload), Copy(None, ["."], "."),
      Run(GoBuild),
      From("alpine:latest", None), Run(CaCertificates), Workdir("/root/"),
      Copy(Builder, ["/app/main"], ".") ]
  }

  /** `{{ range .Ports }}EXPOSE {{ . }}{{ end }}`. */
  function GoExposes(ports: seq<string>): (r: seq<Instruction>)
    ensures |r| == |ports|
    ensures forall i :: 0 <= i < |ports| ==> r[i] == Expose(ports[i])
  {
    seq(|ports|, i requires 0 <= i < |ports| => Expose(ports[i]))
  }

  /** Template execution on (Language, Framework, Ports): the rendered instructions, or
      `None` when execution aborts. A language outside the four branches renders nothing. */
  function Render(language: string, framework: string, ports: seq<string>): (r: Option<seq<Instruction>>)
    ensures r.None? <==> language == "PHP" && framework == "laravel" && ports == []
    ensures r.Some? ==> (r.value == [] <==> language !in SupportedLanguages)
  {
    if language == "Node.js" then Some(NodeTemplate(framework))
    else if language == "PHP" then PhpTemplate(framework, ports)
    else if language == "Python" then Some(PythonTemplate(framework))
    else if language == "Go" then Some(GoTemplate(ports))
    else Some([])
  }

  // ---------------------------------------------------------------------------------------
  // Validation and the file outcome

  const SupportedLanguages: set<string> := {"Node.js", "PHP", "Python", "Go"}

  /** Why no Dockerfile is left behind. */
  datatype GenerateError =
    | LanguageNotDetected
    | UnsupportedLanguage(language: string)
    | UnsupportedPhpFramework(framework: string)
    | ExecutionFailed
    | EmptyDockerfile

  /** The error text of each case. Execution can only abort on `index .Ports 0` with no
      ports, so that is the cause reported. */
  function ErrorMessage(e: GenerateError): string {
    match e
    case LanguageNotDetected => "language not detected"
    case UnsupportedLanguage(language) => "unsupported language: " + language
    case UnsupportedPhpFramework(framework) => "unsupported PHP framework: " + framework
    case ExecutionFailed => "failed to generate Dockerfile: error calling index: index out of range: 0"
    case EmptyDockerfile => "generated Dockerfile is empty, template conditions not met"
  }

  /** The outcome for the output file: never created (validation failed), created and then
      removed (execution failed or produced nothing), or written. */
  datatype Outcome = Written(lines: seq<Instruction>) | NotCreated(error: GenerateError) | Removed(error: GenerateError)

  /** The descriptors the validation chain lets through. */
  predicate Accepted(p: ProjectType) {
    p.language in SupportedLanguages && (p.language == "PHP" ==> p.framework == "laravel")
  }

  /** `GenerateDockerfile`. Validation rejects exactly the descriptors outside `Accepted`,
      with the first failing check's error; accepted ones are rendered, and the file is
      removed when execution fails or yields nothing. */
  function GenerateDockerfile(p: ProjectType): (r: Outcome)
    ensures r.NotCreated? <==> !Accepted(p)
    ensures p.language == "" ==> r == NotCreated(LanguageNotDetected)
    ensures p.language != "" && p.language !in SupportedLanguages ==> r == NotCreated(UnsupportedLanguage(p.language))
    ensures p.language == "PHP" && p.framework != "laravel" ==> r == NotCreated(UnsupportedPhpFramework(p.framework))
    ensures r.Removed? ==> r.error in {ExecutionFailed, EmptyDockerfile}
    ensures r.Written? ==> r.lines != [] && Render(p.language, p.framework, p.ports) == Some(r.lines)
  {
    if p.language == "" then NotCreated(LanguageNotDetected)
    else if p.language !in SupportedLanguages then NotCreated(UnsupportedLanguage(p.language))
    else if p.language == "PHP" && p.framework != "laravel" then NotCreated(UnsupportedPhpFramework(p.framework))
    else
      match Render(p.language, p.framework, p.ports)
      case None => Removed(ExecutionFailed)
      case Some(lines) => if lines == [] then Removed(EmptyDockerfile) else Written(lines)
  }

  // ---------------------------------------------------------------------------------------
  // Properties

  /** The language tokens the directory analysis emits are all rejected, before any other
      check. */
  lemma AnalyzerTokensRejected(p: ProjectType)
    requires p.language in {"nodejs", "python", "go", "java", "php", "ruby"}
    ensures GenerateDockerfile(p) == NotCreated(UnsupportedLanguage(p.language))
  {
  }

  /** The text each refusal reports: the first failing validation check names the language
      or framework it refused. */
  lemma RefusalMessages(p: ProjectType)
    ensures p.language == "" ==> ErrorMessage(GenerateDockerfile(p).error) == "language not detected"
    ensures p.language != "" && p.language !in SupportedLanguages ==>
      ErrorMessage(GenerateDockerfile(p).error) == "unsupported language: " + p.language
    ensures p.language == "PHP" && p.framework != "laravel" ==>
      ErrorMessage(GenerateDockerfile(p).error) == "unsupported PHP framework: " + p.framework
  {
  }

  /** The builder and runtime images each branch hard-codes. */
  function StageImages(language: string): (string, string) {
    if language == "Node.js" then ("node:18-alpine", "node:18-alpine")
    else if language == "PHP" then ("composer:latest", "php:8.2-fpm")
    else if language == "Python" then ("python:3.9-slim", "python:3.9-slim")
    else ("golang:1.21-alpine", "alpine:latest")
  }

  /** A builder stage followed by one runtime stage, with the images of `language`. */
  predicate TwoStages(lines: seq<Instruction>, language: string) {
    Stages(lines) == [(StageImages(language).0, Builder), (StageImages(language).1, None)]
  }

  /** An accepted descriptor is written unless it is laravel without ports; what is written
      is a builder stage and then one runtime stage with that language's images, so it is
      never empty. */
  lemma AcceptedRendersTwoStages(p: ProjectType)
    requires Accepted(p)
    ensures GenerateDockerfile(p).Removed? <==> p.language == "PHP" && |p.ports| == 0
    ensures GenerateDockerfile(p).Written? ==> TwoStages(GenerateDockerfile(p).lines, p.language)
  {
    if p.language == "PHP" {
      if |p.ports| > 0 {
        LaravelWritten(p);
        LaravelViews(p.ports);
      } else {
        LaravelWithoutPorts(p);
      }
    } else {
      WrittenInTwoStages(p);
    }
  }

  lemma WrittenInTwoStages(p: ProjectType)
    requires p.language in {"Node.js", "Python", "Go"}
    ensures GenerateDockerfile(p).Written? && TwoStages(GenerateDockerfile(p).lines, p.language)
  {
    if p.language == "Node.js" {
      NodeWritten(p);
      NodeViews(p.framework);
    } else if p.language == "Python" {
      PythonWritten(p);
      PythonViews(p.framework);
    } else {
      GoWritten(p);
      GoViews(p.ports);
    }
  }

  lemma NodeWritten(p: ProjectType)
    requires p.language == "Node.js"
    ensures GenerateDockerfile(p) == Written(NodeTemplate(p.framework))
  {
    assert NodeTemplate(p.framework)[0] == From("node:18-alpine", Builder);
  }

  lemma LaravelWritten(p: ProjectType)
    requires p.language == "PHP" && p.framework == "laravel" && |p.ports| > 0
    ensures GenerateDockerfile(p) == Written(LaravelHead() + PhpTail(p.ports[0]))
  {
    LaravelViews(p.ports);
    assert (LaravelHead() + PhpTail(p.ports[0]))[0] == From("composer:latest", Builder);
  }

  lemma PythonWritten(p: ProjectType)
    requires p.language == "Python"
    ensures GenerateDockerfile(p) == Written(PythonTemplate(p.framework))
  {
    assert PythonTemplate(p.framework)[0] == From("python:3.9-slim", Builder);
  }

  lemma GoWritten(p: ProjectType)
    requires p.language == "Go"
    ensures GenerateDockerfile(p) == Written(GoTemplate(p.ports))
  {
    assert GoTemplate(p.ports)[0] == From("golang:1.21-alpine", Builder);
  }

  /** The views of the framework-dependent Node.js pieces. */
  lemma NodePieceViews(framework: string)
    ensures Stages(NodeBuildRun(framework)) == [] && ExposedPorts(NodeBuildRun(framework)) == []
    ensures Stages(NodeRuntime(framework)) == [] && ExposedPorts(NodeRuntime(framework)) == []
    ensures Stages([Cmd(NodeCommand(framework))]) == [] && ExposedPorts([Cmd(NodeCommand(framework))]) == []
    ensures RunCommands([Cmd(NodeCommand(framework))]) == []
    ensures RunCommands(NodeBuildRun(framework)) + RunCommands(NodeRuntime(framework))
      == if framework == "nextjs" then [NpmBuild]
         else if framework == "react" then [NpmBuild, NpmInstallProduction]
         else if framework == "angular" then [NpmBuildProd, NpmInstallServe]
         else []
  {
    ViewsOfSingle(Cmd(NodeCommand(framework)));
    if framework == "nextjs" {
      NextjsPieceViews();
    } else if framework == "react" {
      ReactPieceViews();
    } else if framework == "angular" {
      AngularPieceViews();
    } else {
      assert NodeBuildRun(framework) == [] && NodeRuntime(framework) == [Copy(Builder, ["/app"], ".")];
      ViewsOfSingle(Copy(Builder, ["/app"], "."));
    }
  }

  lemma NextjsPieceViews()
    ensures Stages(NodeBuildRun("nextjs")) == [] && ExposedPorts(NodeBuildRun("nextjs")) == []
    ensures Stages(NodeRuntime("nextjs")) == [] && ExposedPorts(NodeRuntime("nextjs")) == []
    ensures RunCommands(NodeBuildRun("nextjs")) + RunCommands(NodeRuntime("nextjs")) == [NpmBuild]
  {
  }

  lemma ReactPieceViews()
    ensures Stages(NodeBuildRun("react")) == [] && ExposedPorts(NodeBuildRun("react")) == []
    ensures Stages(NodeRuntime("react")) == [] && ExposedPorts(NodeRuntime("react")) == []
    ensures RunCommands(NodeBuildRun("react")) + RunCommands(NodeRuntime("react")) == [NpmBuild, NpmInstallProduction]
  {
  }

  lemma AngularPieceViews()
    ensures Stages(NodeBuildRun("angular")) == [] && ExposedPorts(NodeBuildRun("angular")) == []
    ensures Stages(NodeRuntime("angular")) == [] && ExposedPorts(NodeRuntime("angular")) == []
    ensures RunCommands(NodeBuildRun("angular")) + RunCommands(NodeRuntime("angular")) == [NpmBuildProd, NpmInstallServe]
  {
  }

  lemma NodeFixedViews()
    ensures Stages(NodeBuilder()) == [("node:18-alpine", Builder)] && ExposedPorts(NodeBuilder()) == []
    ensures RunCommands(NodeBuilder()) == [NpmInstall]
    ensures Stages(NodeRuntimeStage()) == [("node:18-alpine", None)] && ExposedPorts(NodeRuntimeStage()) == []
    ensures RunCommands(NodeRuntimeStage()) == []
  {
  }

  lemma NodeStagesView(framework: string)
    ensures TwoStages(NodeTemplate(framework), "Node.js")
  {
    var a := NodeBuilder();
    var b := NodeBuildRun(framework);
    var c := NodeRuntimeStage();
    var d := NodeRuntime(framework);
    var e := [Cmd(NodeCommand(framework))];
    NodeFixedViews();
    NodePieceViews(framework);
    StagesOfAppend(a, b);
    StagesOfAppend(a + b, c);
    StagesOfAppend(a + b + c, d);
    StagesOfAppend(a + b + c + d, e);
  }

  lemma NodeExposedView(framework: string)
    ensures ExposedPorts(NodeTemplate(framework)) == []
  {
    var a := NodeBuilder();
    var b := NodeBuildRun(framework);
    var c := NodeRuntimeStage();
    var d := NodeRuntime(framework);
    var e := [Cmd(NodeCommand(framework))];
    NodeFixedViews();
    NodePieceViews(framework);
    ExposedOfAppend(a, b);
    ExposedOfAppend(a + b, c);
    ExposedOfAppend(a + b + c, d);
    ExposedOfAppend(a + b + c + d, e);
  }

  lemma NodeRunsView(framework: string)
    ensures RunCommands(NodeTemplate(framework))
      == [NpmInstall] + RunCommands(NodeBuildRun(framework)) + RunCommands(NodeRuntime(framework))
  {
    var a := NodeBuilder();
    var b := NodeBuildRun(framework);
    var c := NodeRuntimeStage();
    var d := NodeRuntime(framework);
    var e := [Cmd(NodeCommand(framework))];
    NodeFixedViews();
    NodePieceViews(framework);
    RunsOfAppend(a, b);
    RunsOfAppend(a + b, c);
    RunsOfAppend(a + b + c, d);
    RunsOfAppend(a + b + c + d, e);
  }

  /** The Node.js branch: never an `EXPOSE`, and a build step exactly for nextjs, react and
      angular, with the runtime installs of react and angular after it. */
  lemma NodeViews(framework: string)
    ensures TwoStages(NodeTemplate(framework), "Node.js")
    ensures ExposedPorts(NodeTemplate(framework)) == []
    ensures RunCommands(NodeTemplate(framework))
      == if framework == "nextjs" then [NpmInstall, NpmBuild]
         else if framework == "react" then [NpmInstall, NpmBuild, NpmInstallProduction]
         else if framework == "angular" then [NpmInstall, NpmBuildProd, NpmInstallServe]
         else [NpmInstall]
  {
    NodeStagesView(framework);
    NodeExposedView(framework);
    NodeRunsView(framework);
    NodePieceViews(framework);
    if framework == "nextjs" {
      assert [NpmInstall] + [NpmBuild] == [NpmInstall, NpmBuild];
    } else if framework == "react" {
      assert [NpmInstall] + [NpmBuild, NpmInstallProduction]
        == [NpmInstall, NpmBuild, NpmInstallProduction];
    } else if framework == "angular" {
      assert [NpmInstall] + [NpmBuildProd, NpmInstallServe]
        == [NpmInstall, NpmBuildProd, NpmInstallServe];
    } else {
      assert [NpmInstall] + [] == [NpmInstall];
    }
  }

  /** The Node.js start command: `npm start` for nextjs and react, `serve` for angular, and
      `node index.js` after copying the whole build otherwise. */
  lemma NodeStartCommand(framework: string)
    ensures Last(NodeTemplate(framework))
      == if framework == "nextjs" || framework == "react" then Cmd(["npm", "start"])
         else if framework == "angular" then Cmd(["serve", "-s", "dist"])
         else Cmd(["node", "index.js"])
    ensures framework !in {"nextjs", "react", "angular"} ==>
      NodeTemplate(framework)[|NodeTemplate(framework)| - 2] == Copy(Builder, ["/app"], ".")
  {
    var front := NodeBuilder() + NodeBuildRun(framework) + NodeRuntimeStage();
    if framework !in {"nextjs", "react", "angular"} {
      assert NodeTemplate(framework) == front + [Copy(Builder, ["/app"], "."), Cmd(["node", "index.js"])];
    }
  }

  /** The last instruction of a non-empty list. */
  function Last(lines: seq<Instruction>): Instruction
    requires lines != []
  {
    lines[|lines| - 1]
  }

  lemma PhpFixedViews()
    ensures Stages(PhpBuilder()) == [("composer:latest", Builder)] && ExposedPorts(PhpBuilder()) == []
    ensures Stages(PhpRuntime()) == [("php:8.2-fpm", None)] && ExposedPorts(PhpRuntime()) == []
    ensures Stages(LaravelSetup()) == [] && ExposedPorts(LaravelSetup()) == []
  {
  }

  lemma PhpTailViews(port: string)
    ensures Stages(PhpTail(port)) == [] && ExposedPorts(PhpTail(port)) == [port]
  {
    ViewsOfPair(Expose(port), Cmd(["php-fpm"]));
    ViewsOfSingle(Expose(port));
    ViewsOfSingle(Cmd(["php-fpm"]));
  }

  /** The part of the laravel branch before its port. */
  function LaravelHead(): seq<Instruction> {
    PhpBuilder() + PhpRuntime() + LaravelSetup()
  }

  lemma LaravelHeadStages()
    ensures Stages(LaravelHead()) == [("composer:latest", Builder), ("php:8.2-fpm", None)]
  {
    PhpFixedViews();
    StagesOfAppend(PhpBuilder(), PhpRuntime());
    StagesOfAppend(PhpBuilder() + PhpRuntime(), LaravelSetup());
  }

  lemma LaravelHeadExposed()
    ensures ExposedPorts(LaravelHead()) == []
  {
    PhpFixedViews();
    ExposedOfAppend(PhpBuilder(), PhpRuntime());
    ExposedOfAppend(PhpBuilder() + PhpRuntime(), LaravelSetup());
  }

  lemma LaravelViews(ports: seq<string>)
    requires |ports| > 0
    ensures PhpTemplate("laravel", ports) == Some(LaravelHead() + PhpTail(ports[0]))
    ensures TwoStages(LaravelHead() + PhpTail(ports[0]), "PHP")
    ensures ExposedPorts(LaravelHead() + PhpTail(ports[0])) == [ports[0]]
  {
    LaravelHeadStages();
    LaravelHeadExposed();
    PhpTailViews(ports[0]);
    StagesOfAppend(LaravelHead(), PhpTail(ports[0]));
    ExposedOfAppend(LaravelHead(), PhpTail(ports[0]));
  }

  /** For laravel the first project port is exposed; with no ports the file is removed with
      the template error. */
  lemma LaravelExposesFirstPort(p: ProjectType)
    requires p.language == "PHP" && p.framework == "laravel"
    ensures |p.ports| > 0 ==>
      GenerateDockerfile(p).Written? && ExposedPorts(GenerateDockerfile(p).lines) == [p.ports[0]]
    ensures |p.ports| == 0 ==> GenerateDockerfile(p) == Removed(ExecutionFailed)
  {
    if |p.ports| > 0 {
      LaravelWritten(p);
      LaravelViews(p.ports);
    } else {
      LaravelWithoutPorts(p);
    }
  }

  lemma LaravelWithoutPorts(p: ProjectType)
    requires p.language == "PHP" && p.framework == "laravel" && |p.ports| == 0
    ensures GenerateDockerfile(p) == Removed(ExecutionFailed)
  {
  }

  lemma PythonStageViews()
    ensures Stages(PythonStages()) == [("python:3.9-slim", Builder), ("python:3.9-slim", None)]
    ensures ExposedPorts(PythonStages()) == []
  {
  }

  lemma PythonTailViews(framework: string)
    ensures Stages(PythonTail(framework)) == []
    ensures ExposedPorts(PythonTail(framework))
      == if framework in {"django", "fastapi"} then ["8000"] else if framework == "flask" then ["5000"] else []
  {
    var t := PythonTail(framework);
    if |t| == 2 {
      ViewsOfPair(t[0], t[1]);
      ViewsOfSingle(t[0]);
      ViewsOfSingle(t[1]);
    } else {
      ViewsOfSingle(t[0]);
    }
  }

  /** The Python port table: 8000 for django and fastapi, 5000 for flask, none otherwise. */
  lemma PythonViews(framework: string)
    ensures TwoStages(PythonTemplate(framework), "Python")
    ensures ExposedPorts(PythonTemplate(framework))
      == if framework in {"django", "fastapi"} then ["8000"] else if framework == "flask" then ["5000"] else []
  {
    PythonStageViews();
    PythonTailViews(framework);
    StagesOfAppend(PythonStages(), PythonTail(framework));
    ExposedOfAppend(PythonStages(), PythonTail(framework));
  }

  /** The Python start command sits last and serves on the exposed port. */
  lemma PythonStartCommand(framework: string)
    ensures Last(PythonTemplate(framework))
      == if framework == "django" then Cmd(["python", "manage.py", "runserver", "0.0.0.0:8000"])
         else if framework == "flask" then Cmd(["flask", "run", "--host=0.0.0.0"])
         else if framework == "fastapi" then Cmd(["uvicorn", "main:app", "--host", "0.0.0.0", "--port", "8000"])
         else Cmd(["python", "app.py"])
  {
  }

  lemma {:induction false} ExposesOfPorts(ports: seq<string>)
    ensures ExposedPorts(GoExposes(ports)) == ports
    ensures Stages(GoExposes(ports)) == []
    decreases |ports|
  {
    if ports != [] {
      assert GoExposes(ports)[1..] == GoExposes(ports[1..]);
      ExposesOfPorts(ports[1..]);
    }
  }

  lemma GoStageViews()
    ensures Stages(GoStages()) == [("golang:1.21-alpine", Builder), ("alpine:latest", None)]
    ensures ExposedPorts(GoStages()) == []
  {
  }

  lemma GoViews(ports: seq<string>)
    ensures TwoStages(GoTemplate(ports), "Go")
    ensures ExposedPorts(GoTemplate(ports)) == ports
  {
    var body := GoStages() + GoExposes(ports);
    GoStageViews();
    ExposesOfPorts(ports);
    StagesOfAppend(GoStages(), GoExposes(ports));
    ExposedOfAppend(GoStages(), GoExposes(ports));
    StagesOfAppend(body, [Cmd(["./main"])]);
    ExposedOfAppend(body, [Cmd(["./main"])]);
  }

  /** The Go branch exposes the project ports one by one and in order, runs on
      alpine:latest, and ends with `CMD ["./main"]`. */
  lemma GoExposesEveryPort(p: ProjectType)
    requires p.language == "Go"
    ensures GenerateDockerfile(p).Written?
    ensures ExposedPorts(GenerateDockerfile(p).lines) == p.ports
    ensures Stages(GenerateDockerfile(p).lines) == [("golang:1.21-alpine", Builder), ("alpine:latest", None)]
    ensures Last(GenerateDockerfile(p).lines) == Cmd(["./main"])
  {
    GoWritten(p);
    GoViews(p.ports);
  }

  /** Only Language, Framework and Ports reach the output: the base image, dependencies and
      database of the descriptor play no part. */
  lemma OutputIgnoresOtherFields(p: ProjectType, baseImage: string, dependencies: seq<string>, database: string)
    ensures GenerateDockerfile(p.(baseImage := baseImage, dependencies := dependencies, database := database))
      == GenerateDockerfile(p)
  {
  }
}
