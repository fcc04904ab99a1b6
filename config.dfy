/** pack's user configuration (`config.toml`): the record types, where the file
    lives, the run-image mirror table and the registry lookup. */
module PackConfig {
  import opened Results
  import FilePaths

  /** A run image and the mirrors to pull it from (TOML table `run-images`). */
  datatype RunImage = RunImage(image: string, mirrors: seq<string>)

  /** A buildpack registry; `kind` is the TOML key `type`. */
  datatype Registry = Registry(name: string, kind: string, url: string)

  datatype TrustedBuilder = TrustedBuilder(name: string)

  datatype Config = Config(
    runImages: seq<RunImage>,
    defaultBuilder: string,
    defaultRegistry: string,
    defaultRegistryName: string,
    experimental: bool,
    trustedBuilders: seq<TrustedBuilder>,
    registries: seq<Registry>)

  /** Errors of this package. `Wrapped` is `errors.Wrap`: a context message put
      in front of the error that caused it. */
  datatype ConfigError =
    | HomeDirUnavailable(reason: string)
    | RegistryNotDefined(name: string)
    | Wrapped(context: string, cause: ConfigError)

  const PackHomeDirName := ".pack"
  const ConfigFileName := "config.toml"

  /** The registry used when neither the caller nor the configuration names one. */
  const OfficialRegistry := Registry("official", "github", "https://github.com/buildpacks/registry-index")

  // ---------------------------------------------------------------------------
  // Paths

  /** pack's home directory. `packHomeEnv` is the value of the environment
      variable PACK_HOME ("" when unset); `userHome` is what the operating
      system reports as the user's home directory, consulted only when
      PACK_HOME is empty. */
  function PackHome(packHomeEnv: string, userHome: Result<string, string>): (r: Result<string, ConfigError>)
    ensures packHomeEnv != "" ==> r == Ok(packHomeEnv)
    ensures r.Err? <==> packHomeEnv == "" && userHome.Err?
    ensures r.Err? ==> r.error == Wrapped("getting user home", HomeDirUnavailable(userHome.error))
    ensures packHomeEnv == "" && userHome.Ok? ==> r == Ok(FilePaths.Join(userHome.value, PackHomeDirName))
  {
    if packHomeEnv != "" then Ok(packHomeEnv)
    else match userHome
      case Err(reason) => Err(Wrapped("getting user home", HomeDirUnavailable(reason)))
      case Ok(home) => Ok(FilePaths.Join(home, PackHomeDirName))
  }

  /** The default location of `config.toml`: inside pack's home directory. */
  function DefaultConfigPath(packHomeEnv: string, userHome: Result<string, string>): (r: Result<string, ConfigError>)
    ensures r.Ok? <==> PackHome(packHomeEnv, userHome).Ok?
    ensures r.Ok? ==> r.value == FilePaths.Join(PackHome(packHomeEnv, userHome).value, ConfigFileName)
    ensures r.Err? ==> r.error == Wrapped("getting pack home", PackHome(packHomeEnv, userHome).error)
    ensures packHomeEnv != "" ==> r == Ok(FilePaths.Join(packHomeEnv, ConfigFileName))
  {
    match PackHome(packHomeEnv, userHome)
    case Err(e) => Err(Wrapped("getting pack home", e))
    case Ok(home) => Ok(FilePaths.Join(home, ConfigFileName))
  }

  // ---------------------------------------------------------------------------
  // Run-image mirrors

  /** The index of the first run image named `image`, if any. */
  function FindRunImage(runImages: seq<RunImage>, image: string): (r: Option<nat>)
    ensures r.Some? ==> && r.value < |runImages|
                        && runImages[r.value].image == image
                        && forall k :: 0 <= k < r.value ==> runImages[k].image != image
    ensures r.None? ==> forall k :: 0 <= k < |runImages| ==> runImages[k].image != image
  {
    if runImages == [] then None
    else if runImages[0].image == image then Some(0)
    else match FindRunImage(runImages[1..], image)
      case None => None
      case Some(i) => Some(i + 1)
  }

  /** The search finds exactly the first entry named `image`. */
  lemma FindsFirstRunImage(runImages: seq<RunImage>, image: string, i: nat)
    requires i < |runImages| && runImages[i].image == image
    requires forall k :: 0 <= k < i ==> runImages[k].image != image
    ensures FindRunImage(runImages, image) == Some(i)
  {
  }

  /** The run-image table after recording `mirrors` for `image`: the first entry
      for `image` gets the new mirrors, and when there is none a new entry goes
      at the end. */
  function RunImagesWithMirrors(runImages: seq<RunImage>, image: string, mirrors: seq<string>): (r: seq<RunImage>)
    ensures |r| == if FindRunImage(runImages, image).Some? then |runImages| else |runImages| + 1
    ensures forall k :: 0 <= k < |runImages| && runImages[k].image != image ==> r[k] == runImages[k]
  {
    if runImages == [] then [RunImage(image, mirrors)]
    else if runImages[0].image == image then [runImages[0].(mirrors := mirrors)] + runImages[1..]
    else [runImages[0]] + RunImagesWithMirrors(runImages[1..], image, mirrors)
  }

  /** When `image` is present, only its first entry changes, in place: same
      length, same position, later entries with the same image untouched. */
  lemma {:induction false} OverwritesFirstMatch(runImages: seq<RunImage>, image: string, mirrors: seq<string>, i: nat)
    requires i < |runImages| && runImages[i].image == image
    requires forall k :: 0 <= k < i ==> runImages[k].image != image
    ensures RunImagesWithMirrors(runImages, image, mirrors) == runImages[i := RunImage(image, mirrors)]
  {
    if i == 0 {
      assert [runImages[0].(mirrors := mirrors)] + runImages[1..] == runImages[0 := RunImage(image, mirrors)];
    } else {
      OverwritesFirstMatch(runImages[1..], image, mirrors, i - 1);
      assert [runImages[0]] + runImages[1..][i - 1 := RunImage(image, mirrors)] == runImages[i := RunImage(image, mirrors)];
    }
  }

  /** When `image` is absent, exactly one entry is appended and every earlier
      entry keeps its place and value. */
  lemma {:induction false} AppendsWhenAbsent(runImages: seq<RunImage>, image: string, mirrors: seq<string>)
    requires forall k :: 0 <= k < |runImages| ==> runImages[k].image != image
    ensures RunImagesWithMirrors(runImages, image, mirrors) == runImages + [RunImage(image, mirrors)]
  {
    if runImages != [] {
      AppendsWhenAbsent(runImages[1..], image, mirrors);
      assert [runImages[0]] + (runImages[1..] + [RunImage(image, mirrors)]) == runImages + [RunImage(image, mirrors)];
    }
  }

  /** Recording the same mirrors twice is the same as recording them once. */
  lemma {:induction false} RunImagesWithMirrorsIdempotent(runImages: seq<RunImage>, image: string, mirrors: seq<string>)
    ensures RunImagesWithMirrors(RunImagesWithMirrors(runImages, image, mirrors), image, mirrors)
            == RunImagesWithMirrors(runImages, image, mirrors)
  {
    if runImages == [] {
      assert RunImagesWithMirrors(runImages, image, mirrors) == [RunImage(image, mirrors)];
    } else if runImages[0].image == image {
      var once := RunImagesWithMirrors(runImages, image, mirrors);
      assert once[0].image == image && once[1..] == runImages[1..];
    } else {
      var once := RunImagesWithMirrors(runImages, image, mirrors);
      RunImagesWithMirrorsIdempotent(runImages[1..], image, mirrors);
      assert once[0] == runImages[0] && once[1..] == RunImagesWithMirrors(runImages[1..], image, mirrors);
    }
  }

  /** Afterwards, looking `image` up finds an entry carrying exactly `mirrors`. */
  lemma {:induction false} MirrorsFoundAfterSet(runImages: seq<RunImage>, image: string, mirrors: seq<string>)
    ensures var after := RunImagesWithMirrors(runImages, image, mirrors);
            FindRunImage(after, image).Some? && after[FindRunImage(after, image).value] == RunImage(image, mirrors)
  {
    match FindRunImage(runImages, image)
    case Some(i) =>
      OverwritesFirstMatch(runImages, image, mirrors, i);
      FindsFirstRunImage(RunImagesWithMirrors(runImages, image, mirrors), image, i);
    case None =>
      AppendsWhenAbsent(runImages, image, mirrors);
      FindsFirstRunImage(RunImagesWithMirrors(runImages, image, mirrors), image, |runImages|);
  }

  /** Records `mirrors` for `image` in the configuration. Every field other than
      the run-image table is returned unchanged. */
  method SetRunImageMirrors(cfg: Config, image: string, mirrors: seq<string>) returns (r: Config)
    ensures r == cfg.(runImages := RunImagesWithMirrors(cfg.runImages, image, mirrors))
  {
    var i := 0;
    while i < |cfg.runImages|
      invariant 0 <= i <= |cfg.runImages|
      invariant forall k :: 0 <= k < i ==> cfg.runImages[k].image != image
    {
      if cfg.runImages[i].image == image {
        OverwritesFirstMatch(cfg.runImages, image, mirrors, i);
        r := cfg.(runImages := cfg.runImages[i := cfg.runImages[i].(mirrors := mirrors)]);
        return;
      }
      i := i + 1;
    }
    AppendsWhenAbsent(cfg.runImages, image, mirrors);
    r := cfg.(runImages := cfg.runImages + [RunImage(image, mirrors)]);
  }

  // ---------------------------------------------------------------------------
  // Registries

  /** The first registry called `name`, or the error that no registry is. */
  function FirstRegistryNamed(registries: seq<Registry>, name: string): (r: Result<Registry, ConfigError>)
    ensures r.Ok? ==> exists i :: && 0 <= i < |registries|
                                 && registries[i] == r.value
                                 && r.value.name == name
                                 && forall k :: 0 <= k < i ==> registries[k].name != name
    ensures r.Err? ==> && r.error == RegistryNotDefined(name)
                       && forall k :: 0 <= k < |registries| ==> registries[k].name != name
  {
    if registries == [] then Err(RegistryNotDefined(name))
    else if registries[0].name == name then Ok(registries[0])
    else FirstRegistryNamed(registries[1..], name)
  }

  /** The registry name a lookup uses: the caller's, else the configured default. */
  function EffectiveRegistryName(cfg: Config, registryName: string): (r: string)
    ensures registryName != "" ==> r == registryName
    ensures r == "" <==> registryName == "" && cfg.defaultRegistryName == ""
  {
    if registryName == "" then cfg.defaultRegistryName else registryName
  }

  /** What looking up `registryName` yields. */
  function LookupRegistry(cfg: Config, registryName: string): (r: Result<Registry, ConfigError>)
    ensures var name := EffectiveRegistryName(cfg, registryName);
            name == "" ==> r == Ok(OfficialRegistry)
    ensures var name := EffectiveRegistryName(cfg, registryName);
            name != "" ==> (r.Ok? <==> exists k :: 0 <= k < |cfg.registries| && cfg.registries[k].name == name)
    ensures var name := EffectiveRegistryName(cfg, registryName);
            name != "" && r.Ok? ==>
              exists i :: && 0 <= i < |cfg.registries|
                          && cfg.registries[i] == r.value
                          && r.value.name == name
                          && forall k :: 0 <= k < i ==> cfg.registries[k].name != name
    ensures r.Err? ==> r.error == RegistryNotDefined(EffectiveRegistryName(cfg, registryName))
  {
    var name := EffectiveRegistryName(cfg, registryName);
    if name == "" then Ok(OfficialRegistry) else FirstRegistryNamed(cfg.registries, name)
  }

  /** An empty name looks up the configured default registry name. */
  lemma EmptyNameUsesDefault(cfg: Config)
    ensures LookupRegistry(cfg, "") == LookupRegistry(cfg, cfg.defaultRegistryName)
  {
  }

  /** Looks up a registry by name, scanning the configured registries in order. */
  method GetRegistry(cfg: Config, registryName: string) returns (r: Result<Registry, ConfigError>)
    ensures r == LookupRegistry(cfg, registryName)
  {
    var name := registryName;
    if name == "" {
      name := cfg.defaultRegistryName;
    }
    if name != "" {
      var i := 0;
      while i < |cfg.registries|
        invariant 0 <= i <= |cfg.registries|
        invariant forall k :: 0 <= k < i ==> cfg.registries[k].name != name
      {
        if cfg.registries[i].name == name {
          return Ok(cfg.registries[i]);
        }
        i := i + 1;
      }
      return Err(RegistryNotDefined(name));
    }
    return Ok(OfficialRegistry);
  }
}
