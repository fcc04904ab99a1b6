# pack: configuration table operations and file-safe index names

A Dafny model of two self-contained pieces of the `pack` CLI (Cloud Native
Buildpacks), the parts whose behaviour can be stated and proved on their own:

- **pack's user configuration** (`internal/config/config.go`): the `Config`,
  `RunImage`, `Registry` and `TrustedBuilder` records; where pack's home
  directory and its `config.toml` live (`PackHome`, `DefaultConfigPath`);
  recording mirrors for a run image (`SetRunImageMirrors`, an upsert into the
  ordered run-image table); and looking up a buildpack registry by name, with
  the configured default name and the official GitHub registry as fallbacks
  (`GetRegistry`).
- **the file name of a local image index** (`makeFileSafeName` in
  `internal/commands/manifest_create_test.go`): an index reference such as
  `cnbs/sample-package:hello-multiarch-universe` is stored under
  `<pack home>/manifests/` as one file whose name has every `:` replaced by `-`
  and every `/` by `_`.

Files:

- `results.dfy` (module `Results`): `Option` and `Result`, which stand for Go's
  `(value, error)` returns.
- `file_paths.dfy` (module `FilePaths`): `filepath.Join` for two elements.
- `config.dfy` (module `PackConfig`): the configuration records and operations.
  `SetRunImageMirrors` and `GetRegistry` are methods with the source's loops,
  each proved equal to a specification function (`RunImagesWithMirrors`,
  `LookupRegistry`); the source's promises are lemmas about those functions.
- `manifest_names.dfy` (module `ManifestNames`): `ReplaceAll`,
  `MakeFileSafeName` and the path of an index file.

The environment variable `PACK_HOME` and the result of `os.UserHomeDir` are
parameters of `PackHome` and `DefaultConfigPath` (the home directory as a
`Result`, since the operating system may fail to report one).

The file-name mapping is not one-to-one: `repo:tag` and `repo-tag` are stored
in the same file (`ManifestNames.DistinctReferencesCanShareAFile`).

## Model

| member | source | states |
|---|---|---|
| `FilePaths.Join` | internal/config/config.go:53 | empty elements are dropped; otherwise the result starts with the directory, ends with the element, and has exactly one separator between them: the directory's own trailing separator when it has one (the length is then the sum of both lengths), else one added separator (the sum plus one) |
| `PackConfig.PackHome` | internal/config/config.go:46-56 | a non-empty PACK_HOME is returned verbatim and the home directory is not consulted; otherwise the result is the home directory joined with `.pack`; it fails exactly when PACK_HOME is empty and no home directory is available, with the home-directory error wrapped in "getting user home" |
| `PackConfig.DefaultConfigPath` | internal/config/config.go:38-44 | succeeds exactly when `PackHome` does, with `config.toml` joined to pack home; a `PackHome` failure is propagated wrapped in "getting pack home" |
| `PackConfig.FindRunImage` | internal/config/config.go:86-87 | the index found is the first run image with the given image name; none is found only when no entry has that name |
| `PackConfig.RunImagesWithMirrors` | internal/config/config.go:85-94 | the upserted table keeps the old length when the image is present and grows by one when it is absent; every entry for another image stays at its position unchanged |
| `PackConfig.FindsFirstRunImage` | internal/config/config.go:86-87 | the search returns exactly the first position holding the image name |
| `PackConfig.OverwritesFirstMatch` | internal/config/config.go:86-90 | when the image is present, the table is the old table with only its first entry for the image replaced by `{image, mirrors}`: same length, same order, later duplicates untouched |
| `PackConfig.AppendsWhenAbsent` | internal/config/config.go:92 | when the image is absent, the table is the old table with exactly one `{image, mirrors}` entry appended |
| `PackConfig.RunImagesWithMirrorsIdempotent` | internal/config/config.go:85-94 | recording the same mirrors for the same image twice gives the same table as once |
| `PackConfig.MirrorsFoundAfterSet` | internal/config/config.go:85-94 | after recording, the first entry for the image carries exactly the new mirrors |
| `PackConfig.SetRunImageMirrors` | internal/config/config.go:85-94 | the returned configuration has the upserted run-image table and every other field (default builder, default registry URL and name, experimental flag, trusted builders, registries) unchanged |
| `PackConfig.FirstRegistryNamed` | internal/config/config.go:101-106 | the registry returned is the first one with the given name; the error `RegistryNotDefined(name)` is returned only when no registry has that name |
| `PackConfig.EffectiveRegistryName` | internal/config/config.go:97-99 | a non-empty argument is used as given; the name is empty only when both the argument and the configured default are empty |
| `PackConfig.LookupRegistry` | internal/config/config.go:96-114 | with no effective name (the argument, else the configured default) the official GitHub registry is returned; with one, the result is the first registry of that name, and when none exists an error naming it, never a default |
| `PackConfig.EmptyNameUsesDefault` | internal/config/config.go:97-99 | looking up the empty name is the same as looking up the configured default registry name |
| `PackConfig.GetRegistry` | internal/config/config.go:96-114 | the scanning loop returns exactly what `LookupRegistry` specifies |
| `ManifestNames.ReplaceAll` | internal/commands/manifest_create_test.go:69-70 | same length as the input; at every position the pattern character becomes the replacement and every other character is kept |
| `ManifestNames.SafeChar` | internal/commands/manifest_create_test.go:69-70 | the stored character is never `:` or `/`; every other character is stored as itself |
| `ManifestNames.MakeFileSafeName` | internal/commands/manifest_create_test.go:68-71 | same length; at every position `:` becomes `-`, `/` becomes `_`, anything else is kept; the result holds no `:` and no `/` |
| `ManifestNames.MakeFileSafeNameKeepsSafeNames` | internal/commands/manifest_create_test.go:68-71 | a name with no `:` and no `/` is returned unchanged |
| `ManifestNames.MakeFileSafeNameIdempotent` | internal/commands/manifest_create_test.go:68-71 | applying the mapping twice equals applying it once |
| `ManifestNames.MakeFileSafeNameConcat` | internal/commands/manifest_create_test.go:68-71 | the mapping works piece by piece: the name of a concatenation is the concatenation of the names |
| `ManifestNames.OwnerRepositoryTagName` | internal/commands/manifest_create_test.go:65-71 | `owner/repository:tag` with plain parts becomes `owner_repository-tag` |
| `ManifestNames.DocCommentExample` | internal/commands/manifest_create_test.go:65-67 | `cnbs/sample-package:hello-multiarch-universe` becomes `cnbs_sample-package-hello-multiarch-universe` |
| `ManifestNames.DistinctReferencesCanShareAFile` | internal/commands/manifest_create_test.go:68-71 | the distinct references `repo:tag` and `repo-tag` get the same file name |
| `ManifestNames.ManifestPath` | internal/commands/manifest_create_test.go:158 | the path (pack home joined with `manifests` at line 108, then the safe name) starts with the manifests directory and, for a non-empty index name, ends with its file-safe name |
| `ManifestNames.ManifestFileInManifestsDir` | internal/commands/manifest_create_test.go:158 | for an index name whose file-safe form is not `.` or `..`, the index file lies directly in the manifests directory: the path is that directory, one separator, and a last component with no separator |

## Left out

- `FilePaths.Join`: `filepath.Join` also cleans the joined path lexically (collapsing repeated separators, resolving `.` and `..`, dropping a trailing separator); the model only drops empty elements and avoids a doubled separator after the directory.
- `ManifestNames.ManifestFileInManifestsDir`: index names whose file-safe form is `.` or `..` are excluded, because Go's `filepath.Join` cleans them to the manifests directory itself and to pack home, which the model's `FilePaths.Join` (without cleaning) does not reproduce.
- `PackConfig.PackHome`: the calls to `os.Getenv("PACK_HOME")` and `os.UserHomeDir()` are replaced by parameters; the home-directory error is carried as its message.
- `PackConfig.LookupRegistry`: the error is the value `RegistryNotDefined(name)`; the message text and the `style.Symbol` decoration of the name (a package that is not part of this model) are not modelled.
- `PackConfig.SetRunImageMirrors`: in Go the match branch writes through the slice's shared backing array, so the caller's configuration changes too; the model returns the new configuration as a value and does not model that aliasing. Go's distinction between a nil and an empty mirror list is not modelled.
- `ManifestNames.DocCommentExample`: the reference is written as its three parts joined by `/` and `:` rather than as one 44-character literal, which the verifier cannot compare cheaply.
- `Read`, `Write` and `MkdirAll` (`internal/config/config.go:58-83`): TOML decoding and encoding and file-system I/O.
- The image-index operations themselves (create, annotate, add, remove, push): their implementation lives in the `imgutil` library and client files that are not part of this model; `pkg/client/push_manifest.go` only forwards to that library and panics on its errors.
- Command wiring, flags and logging (`internal/commands/manifest_annotate.go`, `internal/commands/rebase.go`), generated mocks, and the registry-backed tests.
