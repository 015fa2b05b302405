/** `GenerateCompose`: the compose topology built from the project descriptor, as a value.
    The YAML serialisation and the file writes are not modelled; the nginx site file that the
    laravel branch writes is represented by the record below. */
module Compose {
  import opened Results
  import opened Strings
  import opened Project

  datatype Build = Build(context: string, dockerfile: string, args: map<string, string>)
  datatype HealthCheck = HealthCheck(test: seq<string>, interval: string, timeout: string, retries: int)
  datatype DeployConfig = DeployConfig(replicas: int)
  datatype Network = Network(driver: string)
  datatype Volume = Volume(driver: string)

  /** One compose service; a nil reference field of the source is `None`, an absent string
      is empty. */
  datatype Service = Service(
    build: Option<Build>,
    image: string,
    ports: seq<string>,
    environment: seq<string>,
    envFile: seq<string>,
    volumes: seq<string>,
    dependsOn: seq<string>,
    networks: seq<string>,
    restart: string,
    healthCheck: Option<HealthCheck>,
    deploy: Option<DeployConfig>)

  datatype ComposeConfig = ComposeConfig(
    version: string,
    services: map<string, Service>,
    networks: map<string, Network>,
    volumes: map<string, Volume>)

  /** The database chosen for a framework: engine type, image tag, host port and credentials. */
  datatype DatabaseConfig = DatabaseConfig(
    engine: string, version: string, port: string, username: string, password: string, database: string)

  /** The nginx site written next to the compose file for laravel: where it goes, the port it
      listens on, its document root and the PHP-FPM upstream it forwards to. */
  datatype NginxSite = NginxSite(path: string, listen: int, root: string, upstreamHost: string, upstreamPort: int)

  /** The compose value and, for laravel, the nginx site written alongside it. */
  datatype ComposeOutput = ComposeOutput(config: ComposeConfig, nginxSite: Option<NginxSite>)

  /** The Go zero value of `Service`. */
  const ZeroService := Service(None, "", [], [], [], [], [], [], "", None, None)

  const AppNetwork := "app-network"
  const UnlessStopped := "unless-stopped"

  /** `source:target`, the short volume syntax. */
  function Mount(source: string, target: string): string {
    source + ":" + target
  }

  /** The source half of a short volume entry: everything before the first colon. */
  function VolumeSource(entry: string): string {
    Split(entry, ':')[0]
  }

  lemma SourceOfMount(source: string, target: string)
    requires ':' !in source
    ensures VolumeSource(Mount(source, target)) == source
  {
    SplitAtFirst(source, ':', target);
  }

  /** Compose treats a source that is not a path as the name of a volume. */
  predicate IsNamedVolume(source: string) {
    source != [] && source[0] != '.' && source[0] != '/' && source[0] != '~'
  }

  // ---------------------------------------------------------------------------------------
  // The per-service builders

  /** `getDefaultDBConfig`: the database for a framework, if it has one. */
  function DefaultDBConfig(framework: string): (r: Option<DatabaseConfig>)
    ensures r.Some? ==> r.value.engine in KnownEngines
  {
    if framework in {"django", "flask", "fastapi"} then
      Some(DatabaseConfig("postgres", "13-alpine", "5432", "postgres", "postgres", "app"))
    else if framework == "rails" then
      Some(DatabaseConfig("postgres", "13-alpine", "5432", "postgres", "postgres", "app"))
    else if framework in {"laravel", "symfony"} then
      Some(DatabaseConfig("mysql", "8.0", "3306", "root", "root", "app"))
    else if framework in {"express", "nestjs"} then
      Some(DatabaseConfig("mongodb", "4.4", "27017", "root", "root", "app"))
    else None
  }

  const KnownEngines: set<string> := {"postgres", "mysql", "mongodb"}

  /** The image repository, container port and data directory of each engine. */
  function EngineImage(engine: string): string {
    if engine == "postgres" then "postgres" else if engine == "mysql" then "mysql" else "mongo"
  }

  function EnginePort(engine: string): string {
    if engine == "postgres" then "5432" else if engine == "mysql" then "3306" else "27017"
  }

  function EngineDataDir(engine: string): string {
    if engine == "postgres" then "/var/lib/postgresql/data" else if engine == "mysql" then "/var/lib/mysql" else "/data/db"
  }

  /** The shared health-check timing of the database and cache services. */
  function Probe(test: seq<string>): HealthCheck {
    HealthCheck(test, "10s", "5s", 5)
  }

  /** `createDatabaseService`: the service for an engine, or the zero service for an engine
      it does not know. */
  function CreateDatabaseService(c: DatabaseConfig): Service {
    if c.engine == "postgres" then
      Service(None, "postgres:" + c.version,
        [c.port + ":5432"],
        ["POSTGRES_USER=" + c.username, "POSTGRES_PASSWORD=" + c.password, "POSTGRES_DB=" + c.database],
        [], [Mount("postgres-data", "/var/lib/postgresql/data")], [], [AppNetwork], UnlessStopped,
        Some(Probe(["CMD-SHELL", "pg_isready -U postgres"])), None)
    else if c.engine == "mysql" then
      Service(None, "mysql:" + c.version,
        [c.port + ":3306"],
        ["MYSQL_ROOT_PASSWORD=" + c.password, "MYSQL_DATABASE=" + c.database],
        [], [Mount("mysql-data", "/var/lib/mysql")], [], [AppNetwork], UnlessStopped,
        Some(Probe(["CMD", "mysqladmin", "ping", "-h", "localhost"])), None)
    else if c.engine == "mongodb" then
      Service(None, "mongo:" + c.version,
        [c.port + ":27017"],
        ["MONGO_INITDB_ROOT_USERNAME=" + c.username, "MONGO_INITDB_ROOT_PASSWORD=" + c.password,
         "MONGO_INITDB_DATABASE=" + c.database],
        [], [Mount("mongodb-data", "/data/db")], [], [AppNetwork], UnlessStopped,
        Some(Probe(["CMD", "mongo", "--eval", "db.adminCommand('ping')"])), None)
    else ZeroService
  }

  /** `createRedisService`: like a database service it keeps its data in a named volume,
      `redis-data`, and is health-checked on the app network. */
  function RedisService(): Service {
    Service(None, "redis:alpine", ["6379:6379"], [], [], [Mount("redis-data", "/data")], [],
      [AppNetwork], UnlessStopped, Some(Probe(["CMD", "redis-cli", "ping"])), None)
  }

  /** `needsCache`. */
  predicate NeedsCache(framework: string) {
    framework == "laravel" || framework == "rails" || framework == "django" || framework == "nestjs"
  }

  /** The web server in front of PHP-FPM for laravel. */
  function NginxService(): Service {
    Service(None, "nginx:alpine", ["80:80"], [], [],
      [Mount(".", "/var/www/html"), Mount("./docker/nginx/conf.d", "/etc/nginx/conf.d")],
      ["app"], [AppNetwork], "", None, None)
  }

  const LaravelSite := NginxSite("docker/nginx/conf.d/default.conf", 80, "/var/www/html/public", "app", 9000)

  // ---------------------------------------------------------------------------------------
  // The topology

  /** The application service: built from the local Dockerfile; for laravel the project is
      bind-mounted into it, otherwise it publishes the project ports when there are any. */
  function AppService(p: ProjectType): Service {
    var app := Service(Some(Build(".", "Dockerfile", map[])), "", [], [], [".env"], [], [], [AppNetwork],
                       UnlessStopped, None, None);
    if p.framework == "laravel" then app.(volumes := [Mount(".", "/var/www/html")])
    else if |p.ports| > 0 then app.(ports := p.ports)
    else app
  }

  /** The database the descriptor asks for: none when `Database` is empty, else the one its
      framework maps to. */
  function RequestedDatabase(p: ProjectType): Option<DatabaseConfig> {
    if p.database != "" then DefaultDBConfig(p.framework) else None
  }

  /** Adds service `s` under `name` and appends `name` to the app's dependencies. */
  function AddDependency(services: map<string, Service>, name: string, s: Service): map<string, Service>
    requires "app" in services
  {
    var app := services["app"];
    services[name := s]["app" := app.(dependsOn := app.dependsOn + [name])]
  }

  /** `GenerateCompose` as written: the app service (and nginx for laravel), then the database
      service with its data volume, then redis. */
  function GenerateCompose(p: ProjectType): ComposeOutput {
    var web := if p.framework == "laravel" then map["nginx" := NginxService(), "app" := AppService(p)]
               else map["app" := AppService(p)];
    var db := RequestedDatabase(p);
    var withDb := if db.Some? then AddDependency(web, db.value.engine, CreateDatabaseService(db.value)) else web;
    var all := if NeedsCache(p.framework) then AddDependency(withDb, "redis", RedisService()) else withDb;
    var volumes: map<string, Volume> := if db.Some? then map[db.value.engine + "-data" := Volume("local")] else map[];
    ComposeOutput(
      ComposeConfig("3.8", all, map[AppNetwork := Network("bridge")], volumes),
      if p.framework == "laravel" then Some(LaravelSite) else None)
  }

  // ---------------------------------------------------------------------------------------
  // Properties

  /** What adding a dependency does to the service map: one new key, the app's list grows by
      that name at its end, every other service is untouched. */
  lemma AddDependencyEffect(services: map<string, Service>, name: string, s: Service)
    requires "app" in services && name != "app"
    ensures AddDependency(services, name, s).Keys == services.Keys + {name}
    ensures AddDependency(services, name, s)[name] == s
    ensures AddDependency(services, name, s)["app"]
      == services["app"].(dependsOn := services["app"].dependsOn + [name])
    ensures forall k :: k in services && k != name && k != "app" ==> AddDependency(services, name, s)[k] == services[k]
  {
  }

  /** The database table: the three Python web frameworks and rails get postgres 13-alpine,
      laravel and symfony get mysql 8.0, express and nestjs get mongodb 4.4; each on its
      engine's standard port, with database "app"; any other framework gets none. */
  lemma DatabaseTable(framework: string)
    ensures DefaultDBConfig(framework).Some?
      <==> framework in {"django", "flask", "fastapi", "rails", "laravel", "symfony", "express", "nestjs"}
    ensures DefaultDBConfig(framework).Some? ==>
      var c := DefaultDBConfig(framework).value;
      && c.engine in KnownEngines && c.port == EnginePort(c.engine) && c.database == "app"
      && (c.engine == "postgres" <==> framework in {"django", "flask", "fastapi", "rails"})
      && (c.engine == "mysql" <==> framework in {"laravel", "symfony"})
      && c.version == (if c.engine == "postgres" then "13-alpine" else if c.engine == "mysql" then "8.0" else "4.4")
  {
  }

  /** A service for a known engine runs `<image>:<version>`, maps `<Port>:<engine port>` and
      keeps its data in the volume `<engine>-data`. */
  lemma DatabaseServiceShape(c: DatabaseConfig)
    requires c.engine in KnownEngines
    ensures CreateDatabaseService(c).image == EngineImage(c.engine) + ":" + c.version
    ensures CreateDatabaseService(c).ports == [c.port + ":" + EnginePort(c.engine)]
    ensures CreateDatabaseService(c).volumes == [Mount(c.engine + "-data", EngineDataDir(c.engine))]
    ensures CreateDatabaseService(c) != ZeroService
  {
    if c.engine == "postgres" {
      assert c.engine + "-data" == "postgres-data";
      assert c.port + ":" + EnginePort(c.engine) == c.port + ":5432";
    } else if c.engine == "mysql" {
      assert c.engine + "-data" == "mysql-data";
      assert c.port + ":" + EnginePort(c.engine) == c.port + ":3306";
    } else {
      assert c.engine + "-data" == "mongodb-data";
      assert c.port + ":" + EnginePort(c.engine) == c.port + ":27017";
    }
  }

  /** A database service is health-checked every 10s with a 5s timeout and 5 retries, joins
      the app network, restarts unless stopped and depends on nothing. */
  lemma DatabaseServiceRuntime(c: DatabaseConfig)
    requires c.engine in KnownEngines
    ensures var s := CreateDatabaseService(c);
      && s.healthCheck.Some? && s.healthCheck.value.interval == "10s"
      && s.healthCheck.value.timeout == "5s" && s.healthCheck.value.retries == 5
      && s.networks == [AppNetwork] && s.restart == UnlessStopped && s.dependsOn == []
  {
  }

  /** The zero service comes back exactly for an engine the switch does not know. */
  lemma CreateDatabaseServiceZero(c: DatabaseConfig)
    ensures CreateDatabaseService(c) == ZeroService <==> c.engine !in KnownEngines
  {
    if c.engine in KnownEngines {
      DatabaseServiceShape(c);
    }
  }

  /** Like a database service, the cache keeps its data in one named volume, `redis-data`,
      is on the app network, is health-checked and restarts unless stopped. */
  lemma RedisServiceShape()
    ensures |RedisService().volumes| == 1 && VolumeSource(RedisService().volumes[0]) == "redis-data"
    ensures IsNamedVolume(VolumeSource(RedisService().volumes[0]))
    ensures RedisService().networks == [AppNetwork] && RedisService().healthCheck.Some?
    ensures RedisService().restart == UnlessStopped
  {
    SourceOfMount("redis-data", "/data");
  }

  /** Every framework that gets a cache also has a database in the table. */
  lemma CacheFrameworksHaveDatabase(framework: string)
    ensures NeedsCache(framework) ==> DefaultDBConfig(framework).Some?
  {
  }

  /** The zero service comes back only for an engine the table never produces. */
  lemma ZeroServiceUnreachable(framework: string)
    requires DefaultDBConfig(framework).Some?
    ensures CreateDatabaseService(DefaultDBConfig(framework).value) != ZeroService
  {
    DatabaseTable(framework);
    DatabaseServiceShape(DefaultDBConfig(framework).value);
  }

  /** Every result has compose version 3.8, exactly the bridge network app-network, and an app
      service built from `./Dockerfile` on that network with `.env` and restart policy
      unless-stopped. */
  lemma ComposeFrame(p: ProjectType)
    ensures var c := GenerateCompose(p).config;
      && c.version == "3.8" && c.networks == map["app-network" := Network("bridge")]
      && "app" in c.services
      && c.services["app"].build == Some(Build(".", "Dockerfile", map[]))
      && c.services["app"].networks == ["app-network"] && c.services["app"].envFile == [".env"]
      && c.services["app"].restart == "unless-stopped" && c.services["app"].image == ""
  {
    AppAfterDependencies(p);
  }

  /** The app service at the end: its ports and volumes are decided by the framework, its
      dependencies are the database engine (if any) followed by redis (if needed). */
  lemma AppAfterDependencies(p: ProjectType)
    ensures "app" in GenerateCompose(p).config.services
    ensures GenerateCompose(p).config.services["app"]
      == AppService(p).(dependsOn := Dependencies(p))
  {
    ServicesInStages(p);
    WithDatabaseShape(p);
    if NeedsCache(p.framework) {
      AddDependencyEffect(WithDatabase(p), "redis", RedisService());
    }
  }

  /** The app's dependency list: the engine of the requested database, then redis. */
  function Dependencies(p: ProjectType): seq<string> {
    (if RequestedDatabase(p).Some? then [RequestedDatabase(p).value.engine] else [])
    + (if NeedsCache(p.framework) then ["redis"] else [])
  }

  /** For laravel the app mounts the project and publishes nothing; for any other framework it
      publishes exactly the project ports and mounts nothing. */
  lemma AppPortsAndVolumes(p: ProjectType)
    ensures var app := GenerateCompose(p).config.services["app"];
      && (p.framework == "laravel" ==> app.ports == [] && app.volumes == [".:/var/www/html"])
      && (p.framework != "laravel" ==> app.ports == p.ports && app.volumes == [])
  {
    AppAfterDependencies(p);
    assert Mount(".", "/var/www/html") == ".:/var/www/html";
  }

  /** The service names are exactly: app; nginx for laravel; the engine of the requested
      database; redis when the framework needs a cache. */
  lemma ServiceKeys(p: ProjectType)
    ensures GenerateCompose(p).config.services.Keys
      == {"app"} + (if p.framework == "laravel" then {"nginx"} else {})
         + (if RequestedDatabase(p).Some? then {RequestedDatabase(p).value.engine} else {})
         + (if NeedsCache(p.framework) then {"redis"} else {})
  {
    ServicesInStages(p);
    WithDatabaseShape(p);
    if NeedsCache(p.framework) {
      AddDependencyEffect(WithDatabase(p), "redis", RedisService());
    }
  }

  /** Membership of each service name, stated against the framework tables: nginx exactly for
      laravel, redis exactly for laravel, rails, django and nestjs, and a database service
      exactly when one is requested for a framework with a mapping, keyed by the engine and
      not by the requested name. */
  lemma ServicePresence(p: ProjectType)
    ensures var keys := GenerateCompose(p).config.services.Keys;
      && ("nginx" in keys <==> p.framework == "laravel")
      && ("redis" in keys <==> p.framework in {"laravel", "rails", "django", "nestjs"})
      && ("postgres" in keys <==> p.database != "" && p.framework in {"django", "flask", "fastapi", "rails"})
      && ("mysql" in keys <==> p.database != "" && p.framework in {"laravel", "symfony"})
      && ("mongodb" in keys <==> p.database != "" && p.framework in {"express", "nestjs"})
      && keys <= {"app", "nginx", "postgres", "mysql", "mongodb", "redis"}
  {
    ServiceKeys(p);
    RequestedEngine(p);
  }

  /** Which engine a descriptor's database request resolves to. */
  lemma RequestedEngine(p: ProjectType)
    ensures (RequestedDatabase(p).Some? && RequestedDatabase(p).value.engine == "postgres")
      <==> p.database != "" && p.framework in {"django", "flask", "fastapi", "rails"}
    ensures (RequestedDatabase(p).Some? && RequestedDatabase(p).value.engine == "mysql")
      <==> p.database != "" && p.framework in {"laravel", "symfony"}
    ensures (RequestedDatabase(p).Some? && RequestedDatabase(p).value.engine == "mongodb")
      <==> p.database != "" && p.framework in {"express", "nestjs"}
  {
    DatabaseTable(p.framework);
  }

  /** Every name the app or nginx depends on is a service of the same file, and the database
      comes before redis. */
  lemma DependenciesResolve(p: ProjectType)
    ensures var services := GenerateCompose(p).config.services;
      && (forall d :: d in services["app"].dependsOn ==> d in services)
      && ("nginx" in services ==> services["nginx"].dependsOn == ["app"])
      && (RequestedDatabase(p).Some? && NeedsCache(p.framework) ==>
            services["app"].dependsOn == [RequestedDatabase(p).value.engine, "redis"])
  {
    AppAfterDependencies(p);
    ServiceKeys(p);
    if p.framework == "laravel" {
      NginxKept(p);
    }
  }

  lemma NginxKept(p: ProjectType)
    requires p.framework == "laravel"
    ensures "nginx" in GenerateCompose(p).config.services
    ensures GenerateCompose(p).config.services["nginx"] == NginxService()
  {
    var web := map["nginx" := NginxService(), "app" := AppService(p)];
    var db := RequestedDatabase(p);
    if db.Some? {
      DatabaseTable(p.framework);
      AddDependencyEffect(web, "mysql", CreateDatabaseService(db.value));
      AddDependencyEffect(AddDependency(web, "mysql", CreateDatabaseService(db.value)), "redis", RedisService());
    } else {
      AddDependencyEffect(web, "redis", RedisService());
    }
  }

  /** The service each name stands for in the result. */
  function ServiceFor(p: ProjectType, name: string): Service {
    if name == "app" then AppService(p).(dependsOn := Dependencies(p))
    else if name == "nginx" then NginxService()
    else if name == "redis" then RedisService()
    else if RequestedDatabase(p).Some? then CreateDatabaseService(RequestedDatabase(p).value)
    else ZeroService
  }

  /** The services before the database and cache are added. */
  function WebServices(p: ProjectType): map<string, Service> {
    if p.framework == "laravel" then map["nginx" := NginxService(), "app" := AppService(p)]
    else map["app" := AppService(p)]
  }

  /** The services after the database is added. */
  function WithDatabase(p: ProjectType): map<string, Service>
    ensures "app" in WithDatabase(p)
  {
    var db := RequestedDatabase(p);
    if db.Some? then AddDependency(WebServices(p), db.value.engine, CreateDatabaseService(db.value))
    else WebServices(p)
  }

  lemma ServicesInStages(p: ProjectType)
    ensures GenerateCompose(p).config.services
      == if NeedsCache(p.framework) then AddDependency(WithDatabase(p), "redis", RedisService()) else WithDatabase(p)
  {
  }

  /** The map after the database stage: the web services plus the engine, with the engine
      as the app's only dependency so far. */
  lemma WithDatabaseShape(p: ProjectType)
    ensures WithDatabase(p).Keys
      == WebServices(p).Keys + (if RequestedDatabase(p).Some? then {RequestedDatabase(p).value.engine} else {})
    ensures WithDatabase(p)["app"]
      == AppService(p).(dependsOn := if RequestedDatabase(p).Some? then [RequestedDatabase(p).value.engine] else [])
    ensures WebServices(p).Keys == {"app"} + (if p.framework == "laravel" then {"nginx"} else {})
  {
    var db := RequestedDatabase(p);
    if db.Some? {
      AddDependencyEffect(WebServices(p), db.value.engine, CreateDatabaseService(db.value));
    }
  }

  /** A service other than the app keeps the value it was added with. */
  lemma WithDatabaseValue(p: ProjectType, k: string)
    requires k in WithDatabase(p) && k != "app"
    ensures WithDatabase(p)[k] == ServiceFor(p, k)
  {
    var db := RequestedDatabase(p);
    if db.Some? {
      DatabaseTable(p.framework);
      AddDependencyEffect(WebServices(p), db.value.engine, CreateDatabaseService(db.value));
    }
  }

  lemma ServiceValueAt(p: ProjectType, k: string)
    requires k in GenerateCompose(p).config.services
    ensures GenerateCompose(p).config.services[k] == ServiceFor(p, k)
  {
    ServicesInStages(p);
    if k == "app" {
      AppAfterDependencies(p);
    } else if NeedsCache(p.framework) {
      AddDependencyEffect(WithDatabase(p), "redis", RedisService());
      if k != "redis" {
        WithDatabaseValue(p, k);
      }
    } else {
      WithDatabaseValue(p, k);
    }
  }

  /** Each name of the result holds the service of its kind, whatever order the map was
      filled in. */
  lemma ServiceValues(p: ProjectType)
    ensures forall k :: k in GenerateCompose(p).config.services ==> GenerateCompose(p).config.services[k] == ServiceFor(p, k)
  {
    forall k | k in GenerateCompose(p).config.services
      ensures GenerateCompose(p).config.services[k] == ServiceFor(p, k)
    {
      ServiceValueAt(p, k);
    }
  }

  /** Every service joins app-network, the only network declared; every service but app and
      nginx carries a health check probing every 10s with a 5s timeout and 5 retries, and
      restarts unless stopped. */
  lemma ServicesOnNetworkAndChecked(p: ProjectType)
    ensures var c := GenerateCompose(p).config;
      forall k :: k in c.services ==>
        && c.services[k].networks == [AppNetwork] && AppNetwork in c.networks
        && (k != "app" && k != "nginx" ==>
              c.services[k].healthCheck.Some? && c.services[k].healthCheck.value.interval == "10s"
              && c.services[k].healthCheck.value.timeout == "5s" && c.services[k].healthCheck.value.retries == 5
              && c.services[k].restart == UnlessStopped)
  {
    var c := GenerateCompose(p).config;
    forall k | k in c.services
      ensures c.services[k].networks == [AppNetwork]
      ensures k != "app" && k != "nginx" ==>
        c.services[k].healthCheck.Some? && c.services[k].healthCheck.value.interval == "10s"
        && c.services[k].healthCheck.value.timeout == "5s" && c.services[k].healthCheck.value.retries == 5
        && c.services[k].restart == UnlessStopped
    {
      ServiceRuntimeAt(p, k);
    }
  }

  lemma ServiceRuntimeAt(p: ProjectType, k: string)
    requires k in GenerateCompose(p).config.services
    ensures var s := GenerateCompose(p).config.services[k];
      && s.networks == [AppNetwork]
      && (k != "app" && k != "nginx" ==>
            s.healthCheck.Some? && s.healthCheck.value.interval == "10s"
            && s.healthCheck.value.timeout == "5s" && s.healthCheck.value.retries == 5
            && s.restart == UnlessStopped)
  {
    ServiceValueAt(p, k);
    if k != "app" && k != "nginx" && k != "redis" {
      ServiceKeys(p);
      DatabaseServiceRuntime(RequestedDatabase(p).value);
    }
  }

  /** The top-level volumes: exactly `<engine>-data` with the local driver when a database is
      added, nothing otherwise, so never more than one. */
  lemma TopLevelVolumes(p: ProjectType)
    ensures var v := GenerateCompose(p).config.volumes;
      && v.Keys == (if RequestedDatabase(p).Some? then {RequestedDatabase(p).value.engine + "-data"} else {})
      && (forall name :: name in v ==> v[name] == Volume("local"))
      && |v.Keys| <= 1
  {
  }

  /** Only whether `Database` is empty matters, not its value: the service is keyed by the
      engine the framework maps to. */
  lemma DatabaseValueIrrelevant(p: ProjectType, requested: string)
    requires p.database != "" && requested != ""
    ensures GenerateCompose(p.(database := requested)) == GenerateCompose(p)
  {
  }

  /** A mapped framework without a requested database gets no database service. */
  lemma NoDatabaseWithoutRequest(p: ProjectType)
    requires p.database == ""
    ensures GenerateCompose(p).config.services.Keys !! KnownEngines
    ensures GenerateCompose(p).config.volumes == map[]
  {
    ServicePresence(p);
  }

  /** Language, base image and dependencies of the descriptor play no part in the topology. */
  lemma ComposeIgnoresLanguage(p: ProjectType, language: string, baseImage: string, dependencies: seq<string>)
    ensures GenerateCompose(p.(language := language, baseImage := baseImage, dependencies := dependencies))
      == GenerateCompose(p)
  {
  }

  /** The nginx site is written exactly for laravel, and forwards PHP requests to port 9000 of
      a service that exists in the same file. */
  lemma NginxSiteResolves(p: ProjectType)
    ensures GenerateCompose(p).nginxSite.Some? <==> p.framework == "laravel"
    ensures GenerateCompose(p).nginxSite.Some? ==>
      var site := GenerateCompose(p).nginxSite.value;
      && site.upstreamHost in GenerateCompose(p).config.services && site.upstreamPort == 9000
      && site.path == "docker/nginx/conf.d/default.conf" && site.listen == 80
      && "80:80" in GenerateCompose(p).config.services["nginx"].ports
  {
    ComposeFrame(p);
    if p.framework == "laravel" {
      NginxKept(p);
    }
  }

  // ---------------------------------------------------------------------------------------
  // Named volumes

  /** Every named volume a service mounts is declared at the top level, as compose requires
      before it starts the project. */
  predicate NamedVolumesDeclared(c: ComposeConfig) {
    forall k, v :: k in c.services && v in c.services[k].volumes && IsNamedVolume(VolumeSource(v))
      ==> VolumeSource(v) in c.volumes
  }

  /** As written, every framework that gets redis mounts `redis-data` without declaring it. */
  lemma RedisVolumeUndeclared(p: ProjectType)
    requires NeedsCache(p.framework)
    ensures !NamedVolumesDeclared(GenerateCompose(p).config)
  {
    var c := GenerateCompose(p).config;
    var v := Mount("redis-data", "/data");
    CacheVolumeMissing(p);
    ServicePresence(p);
    ServiceValueAt(p, "redis");
    SourceOfMount("redis-data", "/data");
    assert v in c.services["redis"].volumes && IsNamedVolume(VolumeSource(v));
  }

  /** No top-level volume is ever called `redis-data`. */
  lemma CacheVolumeMissing(p: ProjectType)
    ensures "redis-data" !in GenerateCompose(p).config.volumes
  {
    TopLevelVolumes(p);
    if RequestedDatabase(p).Some? {
      DatabaseTable(p.framework);
      var e := RequestedDatabase(p).value.engine;
      assert (e + "-data")[0] == e[0];
    }
  }

  /** A django project with a database: redis is mounted on an undeclared volume. */
  lemma DjangoExample()
    ensures !NamedVolumesDeclared(GenerateCompose(ProjectType("Python", "django", "python:3.11-slim", [], ["8000"], "postgres")).config)
  {
    RedisVolumeUndeclared(ProjectType("Python", "django", "python:3.11-slim", [], ["8000"], "postgres"));
  }

  /** `GenerateCompose` with the cache volume declared next to the database volume. */
  function GenerateComposeDeclaringVolumes(p: ProjectType): ComposeOutput {
    var out := GenerateCompose(p);
    if NeedsCache(p.framework) then
      out.(config := out.config.(volumes := out.config.volumes["redis-data" := Volume("local")]))
    else out
  }

  /** The correction touches the top-level volumes only, and only by adding `redis-data`. */
  lemma CorrectionOnlyAddsCacheVolume(p: ProjectType)
    ensures GenerateComposeDeclaringVolumes(p).config.services == GenerateCompose(p).config.services
    ensures GenerateComposeDeclaringVolumes(p).config.networks == GenerateCompose(p).config.networks
    ensures GenerateComposeDeclaringVolumes(p).nginxSite == GenerateCompose(p).nginxSite
    ensures GenerateComposeDeclaringVolumes(p).config.volumes.Keys
      == GenerateCompose(p).config.volumes.Keys + (if NeedsCache(p.framework) then {"redis-data"} else {})
  {
  }

  /** With the correction every named volume is declared, for every descriptor. */
  lemma CorrectedVolumesDeclared(p: ProjectType)
    ensures NamedVolumesDeclared(GenerateComposeDeclaringVolumes(p).config)
  {
    var c := GenerateComposeDeclaringVolumes(p).config;
    ServiceValues(p);
    ServicePresence(p);
    TopLevelVolumes(p);
    forall k, v | k in c.services && v in c.services[k].volumes && IsNamedVolume(VolumeSource(v))
      ensures VolumeSource(v) in c.volumes
    {
      assert c.services[k] == ServiceFor(p, k);
      MountedSources(p, k, v);
    }
  }

  /** The source of each mount in the result: the app and nginx mount paths below the project
      directory, redis mounts `redis-data`, the database mounts `<engine>-data`. */
  lemma MountedSources(p: ProjectType, k: string, v: string)
    requires k in GenerateCompose(p).config.services && v in ServiceFor(p, k).volumes
    ensures k == "app" || k == "nginx" ==> VolumeSource(v)[0] == '.'
    ensures k == "redis" ==> VolumeSource(v) == "redis-data"
    ensures k != "app" && k != "nginx" && k != "redis" ==>
      RequestedDatabase(p).Some? && VolumeSource(v) == RequestedDatabase(p).value.engine + "-data"
  {
    if k == "app" {
      SourceOfMount(".", "/var/www/html");
    } else if k == "nginx" {
      NginxSources(v);
    } else if k == "redis" {
      SourceOfMount("redis-data", "/data");
    } else {
      DatabaseSource(p, k, v);
    }
  }

  lemma NginxSources(v: string)
    requires v in NginxService().volumes
    ensures VolumeSource(v)[0] == '.'
  {
    if v == Mount(".", "/var/www/html") {
      SourceOfMount(".", "/var/www/html");
    } else {
      assert v == Mount("./docker/nginx/conf.d", "/etc/nginx/conf.d");
      SourceOfMount("./docker/nginx/conf.d", "/etc/nginx/conf.d");
    }
  }

  lemma DatabaseSource(p: ProjectType, k: string, v: string)
    requires k in GenerateCompose(p).config.services && k != "app" && k != "nginx" && k != "redis"
    requires v in ServiceFor(p, k).volumes
    ensures RequestedDatabase(p).Some? && VolumeSource(v) == RequestedDatabase(p).value.engine + "-data"
  {
    ServiceKeys(p);
    var c := RequestedDatabase(p).value;
    DatabaseServiceShape(c);
    EngineVolumeSource(c.engine);
  }

  /** The data volume entry of an engine names the volume `<engine>-data`. */
  lemma EngineVolumeSource(engine: string)
    requires engine in KnownEngines
    ensures VolumeSource(Mount(engine + "-data", EngineDataDir(engine))) == engine + "-data"
  {
    assert ':' !in engine + "-data" by {
      if engine == "postgres" {
        assert engine + "-data" == "postgres-data";
      } else if engine == "mysql" {
        assert engine + "-data" == "mysql-data";
      } else {
        assert engine + "-data" == "mongodb-data";
      }
    }
    SourceOfMount(engine + "-data", EngineDataDir(engine));
  }
}
