/** How the stages fit together: the descriptor the directory analysis produces, the base-image
    refinement, the interactive port override, and the two generators that consume them. */
module Pipeline {
  import opened Results
  import opened Project
  import Analyzer
  import Versions
  import Ports
  import Dockerfile
  import Compose

  /** The analysis reports language tokens ("go", "python", ...) while the Dockerfile
      generator expects display names ("Go", "Python", ...): no analysed descriptor is ever
      rendered, and each is turned away with the message of the first failing check. */
  lemma AnalyzedProjectNotDockerized(listing: Result<seq<string>>, m: Analyzer.Manifests)
    requires Analyzer.WellFormed(m)
    requires Analyzer.AnalyzeProject(listing, m).Success?
    ensures var p := Analyzer.AnalyzeProject(listing, m).value;
      Dockerfile.GenerateDockerfile(p)
        == if p.language == "" then Dockerfile.NotCreated(Dockerfile.LanguageNotDetected)
           else Dockerfile.NotCreated(Dockerfile.UnsupportedLanguage(p.language))
  {
    Analyzer.AnalyzedLanguages(listing, m);
    var p := Analyzer.AnalyzeProject(listing, m).value;
    if p.language != "" {
      Dockerfile.AnalyzerTokensRejected(p);
    }
  }

  /** The analysis never sets `Database`, so its descriptor alone yields no database service
      and no top-level volume. */
  lemma AnalyzedProjectWithoutDatabase(listing: Result<seq<string>>, m: Analyzer.Manifests)
    requires Analyzer.WellFormed(m)
    requires Analyzer.AnalyzeProject(listing, m).Success?
    ensures var c := Compose.GenerateCompose(Analyzer.AnalyzeProject(listing, m).value).config;
      c.services.Keys !! Compose.KnownEngines && c.volumes == map[]
  {
    Compose.NoDatabaseWithoutRequest(Analyzer.AnalyzeProject(listing, m).value);
  }

  /** Refining the base image from the version files changes neither generated file: both
      generators ignore `BaseImage`. */
  lemma BaseImageRefinementInvisible(p: ProjectType, src: Versions.VersionSources)
    ensures Dockerfile.GenerateDockerfile(Versions.UpdateBaseImage(p, src)) == Dockerfile.GenerateDockerfile(p)
    ensures Compose.GenerateCompose(Versions.UpdateBaseImage(p, src)) == Compose.GenerateCompose(p)
  {
    var q := Versions.UpdateBaseImage(p, src);
    assert q == p.(baseImage := q.baseImage);
    Dockerfile.OutputIgnoresOtherFields(p, q.baseImage, p.dependencies, p.database);
    Compose.ComposeIgnoresLanguage(p, p.language, q.baseImage, p.dependencies);
  }

  /** A port typed at the prompt reaches the outputs exactly as typed: as the first published
      port of the app service for any framework but laravel, and as the first `EXPOSE` of a
      Go Dockerfile, ahead of the other ports. */
  lemma OverriddenPortReachesOutputs(p: ProjectType, input: string)
    requires |p.ports| > 0 && Ports.PortText(input)
    ensures Ports.OverridePrimaryPort(p, input).Success?
    ensures var q := Ports.OverridePrimaryPort(p, input).value;
      && (p.framework != "laravel" ==> Compose.GenerateCompose(q).config.services["app"].ports[0] == input)
      && (p.language == "Go" ==>
            Dockerfile.GenerateDockerfile(q).Written?
            && Dockerfile.ExposedPorts(Dockerfile.GenerateDockerfile(q).lines) == [input] + p.ports[1..])
  {
    var q := Ports.OverridePrimaryPort(p, input).value;
    assert q.ports == [input] + p.ports[1..];
    Compose.AppPortsAndVolumes(q);
    if p.language == "Go" {
      Dockerfile.GoExposesEveryPort(q);
    }
  }
}
