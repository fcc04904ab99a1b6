/** Where a local image index is persisted: its reference (which may contain
    '/' and ':') turned into one file name inside `<pack home>/manifests`. */
module ManifestNames {
  import FilePaths

  const ManifestsDirName := "manifests"

  /** `strings.ReplaceAll` with a one-character pattern and replacement: every
      `from` becomes `to`, every other character stays where it is. */
  function ReplaceAll(s: string, from: char, to: char): (r: string)
    ensures |r| == |s|
    ensures forall i :: 0 <= i < |s| ==> r[i] == (if s[i] == from then to else s[i])
  {
    if s == [] then [] else [if s[0] == from then to else s[0]] + ReplaceAll(s[1..], from, to)
  }

  /** The character a reference character is stored as in the file name. */
  function SafeChar(c: char): (r: char)
    ensures r != ':' && r != '/'
    ensures c != ':' && c != '/' ==> r == c
  {
    if c == ':' then '-' else if c == '/' then '_' else c
  }

  /** The index reference as a file name: ':' is replaced by '-' first, then
      '/' by '_'. */
  function MakeFileSafeName(ref: string): (r: string)
    ensures |r| == |ref|
    ensures forall i :: 0 <= i < |ref| ==> r[i] == SafeChar(ref[i])
    ensures ':' !in r && '/' !in r
  {
    ReplaceAll(ReplaceAll(ref, ':', '-'), '/', '_')
  }

  /** A name that is already file-safe is left as it is. */
  lemma MakeFileSafeNameKeepsSafeNames(ref: string)
    requires ':' !in ref && '/' !in ref
    ensures MakeFileSafeName(ref) == ref
  {
  }

  /** Making a name file-safe twice gives the same name as doing it once. */
  lemma MakeFileSafeNameIdempotent(ref: string)
    ensures MakeFileSafeName(MakeFileSafeName(ref)) == MakeFileSafeName(ref)
  {
  }

  /** The mapping works piece by piece: the name of a concatenation is the
      concatenation of the names. */
  lemma MakeFileSafeNameConcat(a: string, b: string)
    ensures MakeFileSafeName(a + b) == MakeFileSafeName(a) + MakeFileSafeName(b)
  {
  }

  /** A reference `owner/repository:tag` whose parts hold neither ':' nor '/'
      becomes `owner_repository-tag`. */
  lemma OwnerRepositoryTagName(owner: string, repository: string, tag: string)
    requires ':' !in owner && '/' !in owner
    requires ':' !in repository && '/' !in repository
    requires ':' !in tag && '/' !in tag
    ensures MakeFileSafeName(owner + "/" + repository + ":" + tag) == owner + "_" + repository + "-" + tag
  {
  }

  /** The example given with the helper in the create-command test,
      `cnbs/sample-package:hello-multiarch-universe`, written as its three
      parts. */
  lemma DocCommentExample(owner: string, repository: string, tag: string)
    requires owner == "cnbs" && repository == "sample-package" && tag == "hello-multiarch-universe"
    ensures MakeFileSafeName(owner + "/" + repository + ":" + tag) == owner + "_" + repository + "-" + tag
  {
  }

  /** The mapping is not one-to-one: a tag separator and a dash land on the
      same file name, so two distinct index references share one file. */
  lemma DistinctReferencesCanShareAFile()
    ensures "repo:tag" != "repo-tag"
    ensures MakeFileSafeName("repo:tag") == MakeFileSafeName("repo-tag")
  {
  }

  /** Where the create-command test looks for the index `indexName` under pack
      home `packHome`. */
  function ManifestPath(packHome: string, indexName: string): (r: string)
    ensures var dir := FilePaths.Join(packHome, ManifestsDirName);
            |r| >= |dir| && r[..|dir|] == dir
    ensures indexName != "" ==> |r| > |indexName| && r[|r| - |indexName|..] == MakeFileSafeName(indexName)
  {
    FilePaths.Join(FilePaths.Join(packHome, ManifestsDirName), MakeFileSafeName(indexName))
  }

  /** The index file sits directly in the manifests directory: the path is that
      directory, one separator, and a last component with no separator in it.
      The names `.` and `..` are excluded: Go's path cleaning would turn them
      into the manifests directory itself and into pack home. */
  lemma ManifestFileInManifestsDir(packHome: string, indexName: string)
    requires indexName != ""
    requires MakeFileSafeName(indexName) != "." && MakeFileSafeName(indexName) != ".."
    ensures var dir := FilePaths.Join(packHome, ManifestsDirName);
            ManifestPath(packHome, indexName) == dir + [FilePaths.Separator] + MakeFileSafeName(indexName)
    ensures FilePaths.Separator !in MakeFileSafeName(indexName)
  {
  }
}
