/**
 * The deploy tool's pipeline: check the command-line arguments, resolve the
 * per-environment configuration from `deploy.json`, archive `<directory>/src`
 * into `<function name>.zip`, and push the archive to the named function.
 *
 * Everything the tool obtains from outside (file reads, JSON decoding, the
 * cloud session, the archiver, the remote update call) is an input here,
 * gathered in `Effects`; a fatal exit is an `Err` result.
 */
module LambdaDeploy {
  import opened Strings

  datatype Option<T> = None | Some(value: T)

  /** Why a run stopped: each case is one `log.Fatal` of the tool. */
  datatype Failure =
    | NoDirectory         // `--directory` empty
    | NoEnvironment       // `--env` empty
    | ConfigUnreadable    // `<directory>/deploy.json` cannot be read
    | ConfigUnparsable    // its contents do not decode
    | SessionFailed       // no cloud session for the region
    | ZipFailed           // the source directory could not be archived
    | ArtifactUnreadable  // the archive could not be read back
    | UploadFailed        // the remote update call returned an error

  datatype Result<T> = Ok(value: T) | Err(error: Failure)

  /** One environment's deployment settings. */
  datatype Config = Config(lambdaName: string, lambdaDirectory: string, region: string)

  /** The decoded `deploy.json`: one record per known environment. */
  datatype Environments = Environments(dev: Config, qa: Config, production: Config)

  /** What reading a path and decoding it as a configuration file yields. */
  datatype ConfigFile = Malformed | Wellformed(environments: Environments)

  type Bytes = seq<bv8>

  /** The request sent to update the remote function's code. */
  datatype UpdateFunctionCodeInput = UpdateFunctionCodeInput(functionName: string, zipFile: Bytes, publish: bool)

  /** The outcomes of everything the tool asks of the outside world. */
  datatype Effects = Effects(
    configFiles: map<string, ConfigFile>,  // paths that can be read, with what they decode to
    sessionAvailable: bool,                // a session can be built from ambient credentials
    archivable: set<string>,               // source directories the archiver adds in full
    artifacts: map<string, Bytes>,         // archives that can be read back, with their bytes
    uploadAccepted: bool)                  // the remote update call succeeds

  /** The value Go gives a `Config` nobody assigned. */
  const ZeroConfig: Config := Config("", "", "")

  /** The region used when the selected record names none. */
  const DefaultRegion: string := "us-west-2"

  predicate IsKnownEnvironment(env: string) {
    env == "dev" || env == "qa" || env == "prod"
  }

  // ---------------------------------------------------------------------------
  // Derived locations
  // ---------------------------------------------------------------------------

  /** The configuration file read for a base directory. */
  function ConfigFilePath(path: string): (p: string) {
    path + "/deploy.json"
  }

  /** The directory whose contents are archived. */
  function SourceLocation(c: Config): (p: string) {
    c.lambdaDirectory + "/src"
  }

  /** The local archive file, named after the function it updates. */
  function ArtifactName(c: Config): (p: string) {
    c.lambdaName + ".zip"
  }

  /** Distinct path arguments give distinct configuration-file paths. */
  lemma ConfigFilePathInjective(a: string, b: string)
    ensures ConfigFilePath(a) == ConfigFilePath(b) ==> a == b
  {
    if ConfigFilePath(a) == ConfigFilePath(b) {
      assert a == ConfigFilePath(a)[..|a|];
    }
  }

  /** Configurations naming distinct functions produce distinct archives. */
  lemma ArtifactNameInjective(c: Config, d: Config)
    ensures ArtifactName(c) == ArtifactName(d) ==> c.lambdaName == d.lambdaName
  {
    if ArtifactName(c) == ArtifactName(d) {
      assert c.lambdaName == ArtifactName(c)[..|c.lambdaName|];
    }
  }

  // ---------------------------------------------------------------------------
  // Configuration resolution
  // ---------------------------------------------------------------------------

  /** The record an environment key selects: one case per known key, and the
      zero record for any other key (there is no default case). */
  function Select(e: Environments, env: string): (c: Config) {
    if env == "dev" then e.dev
    else if env == "qa" then e.qa
    else if env == "prod" then e.production
    else ZeroConfig
  }

  /** The configuration a run proceeds with. */
  function Resolve(e: Environments, env: string, path: string): (c: Config)
    // the selected function is kept
    ensures c.lambdaName == Select(e, env).lambdaName
    // the directory always comes from the argument, never from the file
    ensures c.lambdaDirectory == path
    // a region is always set: the file's when it names one, the default otherwise
    ensures c.region != ""
    ensures Select(e, env).region != "" ==> c.region == Select(e, env).region
    ensures Select(e, env).region == "" ==> c.region == DefaultRegion
    // nothing but the directory and the region differs from the selected record
    ensures c.(lambdaDirectory := Select(e, env).lambdaDirectory, region := Select(e, env).region) == Select(e, env)
  {
    var s := Select(e, env);
    Config(s.lambdaName, path, if s.region == "" then DefaultRegion else s.region)
  }

  /** Reads `<path>/deploy.json` and resolves the record for `env`, updating
      a local record step by step as the tool does. */
  method ReadConfigFile(files: map<string, ConfigFile>, path: string, env: string) returns (r: Result<Config>)
    ensures r == Err(ConfigUnreadable) <==> ConfigFilePath(path) !in files
    ensures r == Err(ConfigUnparsable) <==> ConfigFilePath(path) in files && files[ConfigFilePath(path)].Malformed?
    ensures r.Ok? <==> ConfigFilePath(path) in files && files[ConfigFilePath(path)].Wellformed?
    ensures r.Ok? ==> r.value == Resolve(files[ConfigFilePath(path)].environments, env, path)
  {
    var file := ConfigFilePath(path);
    if file !in files {
      return Err(ConfigUnreadable);
    }
    if files[file].Malformed? {
      return Err(ConfigUnparsable);
    }
    var e := files[file].environments;
    var c := ZeroConfig;
    if env == "dev" {
      c := e.dev;
    } else if env == "qa" {
      c := e.qa;
    } else if env == "prod" {
      c := e.production;
    }
    if c.region == "" {
      c := c.(region := DefaultRegion);
    }
    c := c.(lambdaDirectory := path);
    return Ok(c);
  }

  /** The record `r` becomes once its region is defaulted and its directory
      overridden by `path`. */
  function Finished(r: Config, path: string): (c: Config) {
    r.(lambdaDirectory := path, region := if r.region == "" then DefaultRegion else r.region)
  }

  /** The three known keys resolve their own record, with only the region
      defaulted and the directory overridden. */
  lemma KnownKeysSelectTheirRecord(e: Environments, path: string)
    ensures Resolve(e, "dev", path) == Finished(e.dev, path)
    ensures Resolve(e, "qa", path) == Finished(e.qa, path)
    ensures Resolve(e, "prod", path) == Finished(e.production, path)
  {
  }

  /** Any other key resolves, without an error, to a configuration that names
      no function and only carries the directory and the default region. */
  lemma UnknownKeyYieldsZeroConfig(e: Environments, env: string, path: string)
    requires !IsKnownEnvironment(env)
    ensures Resolve(e, env, path) == Config("", path, DefaultRegion)
  {
  }

  /** The resolved region is the default exactly when the file gave none or
      gave the default itself. */
  lemma RegionIsDefaultExactly(e: Environments, env: string, path: string)
    ensures Resolve(e, env, path).region == DefaultRegion <==> Select(e, env).region in {"", DefaultRegion}
  {
  }

  /** Resolving an already-resolved record changes nothing: the defaulting
      and the override are each applied at most once. */
  lemma ResolveIsStable(e: Environments, env: string, path: string)
    ensures var c := Resolve(e, env, path);
            Resolve(Environments(c, c, c), "dev", path) == c
  {
  }

  /** The archived directory is `<path>/src` whatever the file contained. */
  lemma ArchivedSourceFollowsArgument(e: Environments, env: string, path: string)
    ensures SourceLocation(Resolve(e, env, path)) == path + "/src"
  {
  }

  /** An upper- or mixed-case key resolves like its lower-case spelling. */
  lemma KeyCaseIsIgnored(e: Environments, env: string, key: string, path: string)
    requires IsKnownEnvironment(key) && EqualIgnoringCase(env, key)
    ensures Resolve(e, ToLower(env), path) == Resolve(e, key, path)
  {
  }

  /** `--env DEV` and `--env Dev` deploy the `dev` record. */
  lemma ShoutedDevKeySelectsDev(e: Environments, path: string)
    ensures Resolve(e, ToLower("DEV"), path) == Resolve(e, "dev", path)
    ensures Resolve(e, ToLower("Dev"), path) == Resolve(e, "dev", path)
  {
  }

  // ---------------------------------------------------------------------------
  // Archiving and pushing
  // ---------------------------------------------------------------------------

  /** Archives the configuration's source directory; yields the archive's
      location or the archiver's failure. */
  function ZipContents(c: Config, archivable: set<string>): (r: Result<string>)
    ensures r.Ok? <==> SourceLocation(c) in archivable
    ensures r.Ok? ==> r.value == ArtifactName(c)
    ensures r.Err? ==> r.error == ZipFailed
  {
    if SourceLocation(c) in archivable then Ok(ArtifactName(c)) else Err(ZipFailed)
  }

  /** What pushing an archive did: the request sent, if any, whether the
      archive was deleted, and whether the push succeeded. */
  datatype Push = Push(sent: Option<UpdateFunctionCodeInput>, removed: bool, outcome: Result<()>)

  /** Reads the archive back and asks for the function's code to be replaced
      and a new version published. The archive is deleted after the upload
      whether or not it succeeded, but not when it could not be read. */
  function PushLambda(c: Config, zip: string, artifacts: map<string, Bytes>, accepted: bool): (p: Push)
    ensures p.sent.Some? <==> zip in artifacts
    ensures p.sent.Some? ==>
              p.sent.value.functionName == c.lambdaName && p.sent.value.zipFile == artifacts[zip] && p.sent.value.publish
    ensures p.removed <==> p.sent.Some?
    ensures p.outcome.Ok? <==> p.sent.Some? && accepted
    ensures zip !in artifacts ==> p.outcome == Err(ArtifactUnreadable)
    ensures zip in artifacts && !accepted ==> p.outcome == Err(UploadFailed)
  {
    if zip !in artifacts then
      Push(None, false, Err(ArtifactUnreadable))
    else
      var input := UpdateFunctionCodeInput(c.lambdaName, artifacts[zip], true);
      Push(Some(input), true, if accepted then Ok(()) else Err(UploadFailed))
  }

  // ---------------------------------------------------------------------------
  // The whole run
  // ---------------------------------------------------------------------------

  /** What a run did: its outcome (the configuration it deployed, or why it
      stopped), the update request it sent, and what became of the archive. */
  datatype Deployment = Deployment(
    outcome: Result<Config>,
    sent: Option<UpdateFunctionCodeInput>,
    artifactCreated: bool,
    artifactRemoved: bool)

  /** The run reads a configuration file that decodes. */
  predicate ConfigLoads(directory: string, env: string, fx: Effects) {
    && directory != "" && env != ""
    && ConfigFilePath(directory) in fx.configFiles
    && fx.configFiles[ConfigFilePath(directory)].Wellformed?
  }

  /** The configuration such a run resolves, with the key lower-cased. */
  function Resolved(directory: string, env: string, fx: Effects): (c: Config)
    requires ConfigLoads(directory, env, fx)
  {
    Resolve(fx.configFiles[ConfigFilePath(directory)].environments, ToLower(env), directory)
  }

  /** One run of the tool with the given `--directory` and `--env`. */
  method Deploy(directory: string, env: string, fx: Effects) returns (d: Deployment)
    // argument checks come first, the directory before the environment
    ensures d.outcome == Err(NoDirectory) <==> directory == ""
    ensures d.outcome == Err(NoEnvironment) <==> directory != "" && env == ""
    // the file read is `<directory>/deploy.json`
    ensures d.outcome == Err(ConfigUnreadable) <==> directory != "" && env != "" && ConfigFilePath(directory) !in fx.configFiles
    ensures d.outcome == Err(ConfigUnparsable) <==>
              directory != "" && env != "" && ConfigFilePath(directory) in fx.configFiles
              && fx.configFiles[ConfigFilePath(directory)].Malformed?
    ensures d.outcome == Err(SessionFailed) <==> ConfigLoads(directory, env, fx) && !fx.sessionAvailable
    // the archive is created once a session exists, from `<directory>/src`
    ensures d.artifactCreated <==> ConfigLoads(directory, env, fx) && fx.sessionAvailable
    ensures d.outcome == Err(ZipFailed) <==> d.artifactCreated && directory + "/src" !in fx.archivable
    // the request names the resolved function and always publishes
    ensures d.sent.Some? <==> d.artifactCreated && directory + "/src" in fx.archivable
                              && ArtifactName(Resolved(directory, env, fx)) in fx.artifacts
    ensures d.sent.Some? ==> d.sent.value == UpdateFunctionCodeInput(
                               Resolved(directory, env, fx).lambdaName,
                               fx.artifacts[ArtifactName(Resolved(directory, env, fx))],
                               true)
    ensures d.outcome == Err(ArtifactUnreadable) <==>
              d.artifactCreated && directory + "/src" in fx.archivable
              && ArtifactName(Resolved(directory, env, fx)) !in fx.artifacts
    ensures d.outcome == Err(UploadFailed) <==> d.sent.Some? && !fx.uploadAccepted
    // the archive is deleted exactly when a request was sent
    ensures d.artifactRemoved <==> d.sent.Some?
    ensures d.outcome.Ok? <==> d.sent.Some? && fx.uploadAccepted
    ensures d.outcome.Ok? ==> d.outcome.value == Resolved(directory, env, fx)
  {
    if directory == "" {
      return Deployment(Err(NoDirectory), None, false, false);
    }
    if env == "" {
      return Deployment(Err(NoEnvironment), None, false, false);
    }
    var key := ToLower(env);
    var conf := ReadConfigFile(fx.configFiles, directory, key);
    if conf.Err? {
      return Deployment(Err(conf.error), None, false, false);
    }
    var c := conf.value;
    if !fx.sessionAvailable {
      return Deployment(Err(SessionFailed), None, false, false);
    }
    var zip := ZipContents(c, fx.archivable);
    if zip.Err? {
      return Deployment(Err(zip.error), None, true, false);
    }
    var push := PushLambda(c, zip.value, fx.artifacts, fx.uploadAccepted);
    if push.outcome.Err? {
      return Deployment(Err(push.outcome.error), push.sent, true, push.removed);
    }
    return Deployment(Ok(c), push.sent, true, push.removed);
  }
}
