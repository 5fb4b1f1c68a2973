/**
 * `initDocs(configPath)`: make sure `<configPath>/.skald` exists and, unless
 * `<configPath>/.skald/outline.yml` already exists, write the example
 * outline there. Nothing else on disk is touched.
 */
module DocsInit {
  import opened Wrappers
  import opened Paths
  import opened Files
  import opened Outline

  const SkaldDirName := ".skald"
  const OutlineFileName := "outline.yml"

  function SkaldDir(configPath: string): string {
    Join(configPath, SkaldDirName)
  }

  function OutlinePath(configPath: string): string {
    Join(SkaldDir(configPath), OutlineFileName)
  }

  /** The example outline written when none exists. */
  const ExampleOutline: string :=
    "# auto-generated example file\n"
    + "api:\n"
    + "  _docs:\n"
    + "    - name: authentication.md\n"
    + "      title: Authentication\n"
    + "      description: API authentication guide\n"
    + "  reference:\n"
    + "    _docs:\n"
    + "      - name: user.md\n"
    + "        title: User API\n"
    + "        description: User endpoints\n"
    + "      - name: organization.md\n"
    + "        title: Organization API\n"
    + "        description: Organization endpoints\n"
    + "\n"
    + "features:\n"
    + "  _docs:\n"
    + "    - name: features.md\n"
    + "      title: Features Overview\n"
    + "      description: Overview of all features\n"
    + "  feat1:\n"
    + "    _docs:\n"
    + "      - name: feat1-overview.md\n"
    + "        title: Feature 1 Overview\n"
    + "        description: Detailed overview of feature 1\n"

  /** The filesystem after `initDocs(configPath)` run on `d`. */
  function InitDocsSpec(d: Disk, configPath: string): Disk {
    var dir := SkaldDir(configPath);
    var outline := OutlinePath(configPath);
    var d1 := if d.Exists(dir) then d else d.Mkdir(dir);
    if d1.Exists(outline) then d1 else d1.Write(outline, ExampleOutline)
  }

  /** The outline file is never among the directories `mkdir -p .skald` creates. */
  lemma OutlineNotInSkaldAncestry(configPath: string)
    ensures OutlinePath(configPath) !in Ancestry(SkaldDir(configPath))
  {
    if OutlinePath(configPath) in Ancestry(SkaldDir(configPath)) {
      AncestryShorter(SkaldDir(configPath), OutlinePath(configPath));
    }
  }

  method InitDocs(fs: FileSystem, configPath: string)
    modifies fs
    ensures fs.State() == InitDocsSpec(old(fs.State()), configPath)
    ensures fs.Exists(SkaldDir(configPath))
    ensures old(fs.Exists(OutlinePath(configPath))) ==> fs.files == old(fs.files)
    ensures !old(fs.Exists(OutlinePath(configPath))) ==> fs.files == old(fs.files)[OutlinePath(configPath) := ExampleOutline]
  {
    var skaldDir := SkaldDir(configPath);
    var outlineYmlPath := OutlinePath(configPath);
    if !fs.Exists(skaldDir) {
      fs.MkdirRecursive(skaldDir);
      SelfInAncestry(skaldDir);
      OutlineNotInSkaldAncestry(configPath);
    }
    if fs.Exists(outlineYmlPath) {
      return;
    }
    fs.WriteFile(outlineYmlPath, ExampleOutline);
  }

  /**
   * An existing outline file is left exactly as it was and nothing at all is
   * written; a missing one afterwards holds the example outline; no other
   * file changes.
   */
  lemma InitDocsFiles(d: Disk, configPath: string)
    ensures var e := InitDocsSpec(d, configPath);
      && (d.Exists(OutlinePath(configPath)) ==> e.files == d.files)
      && (!d.Exists(OutlinePath(configPath)) ==> e.files == d.files[OutlinePath(configPath) := ExampleOutline])
  {
    OutlineNotInSkaldAncestry(configPath);
  }

  /** Afterwards `.skald` exists, and directories are created only when it was missing. */
  lemma InitDocsDirectory(d: Disk, configPath: string)
    ensures var e := InitDocsSpec(d, configPath);
      && e.Exists(SkaldDir(configPath))
      && e.dirs == if d.Exists(SkaldDir(configPath)) then d.dirs else d.dirs + Ancestry(SkaldDir(configPath))
  {
    SelfInAncestry(SkaldDir(configPath));
  }

  /** Running `initDocs` twice leaves the same filesystem as running it once. */
  lemma InitDocsIdempotent(d: Disk, configPath: string)
    ensures InitDocsSpec(InitDocsSpec(d, configPath), configPath) == InitDocsSpec(d, configPath)
  {
    InitDocsDirectory(d, configPath);
  }

  /** The tree the example outline parses to. */
  function ExampleOutlineTree(): Node {
    Node(NotAList, [("api", Nested(ApiTree())), ("features", Nested(FeaturesTree()))])
  }

  function ApiTree(): Node {
    Node(DocsList([DocSpec("authentication.md", "Authentication", Some("API authentication guide"))]),
         [("reference", Nested(ReferenceTree()))])
  }

  function ReferenceTree(): Node {
    Node(DocsList([DocSpec("user.md", "User API", Some("User endpoints")),
                   DocSpec("organization.md", "Organization API", Some("Organization endpoints"))]),
         [])
  }

  function FeaturesTree(): Node {
    Node(DocsList([DocSpec("features.md", "Features Overview", Some("Overview of all features"))]),
         [("feat1", Nested(Feat1Tree()))])
  }

  function Feat1Tree(): Node {
    Node(DocsList([DocSpec("feat1-overview.md", "Feature 1 Overview", Some("Detailed overview of feature 1"))]), [])
  }

  lemma ReferenceDocFiles()
    ensures Traverse(ReferenceTree(), "api/reference") == [
      DocFile("user.md", "User API", Some("User endpoints"), "api/reference/user.md"),
      DocFile("organization.md", "Organization API", Some("Organization endpoints"), "api/reference/organization.md")]
  {
    assert Join("api/reference", "user.md") == "api/reference/user.md";
    assert Join("api/reference", "organization.md") == "api/reference/organization.md";
  }

  lemma ApiDocFiles()
    ensures Traverse(ApiTree(), "api") == [
      DocFile("authentication.md", "Authentication", Some("API authentication guide"), "api/authentication.md"),
      DocFile("user.md", "User API", Some("User endpoints"), "api/reference/user.md"),
      DocFile("organization.md", "Organization API", Some("Organization endpoints"), "api/reference/organization.md")]
  {
    assert Join("api", "authentication.md") == "api/authentication.md";
    assert Join("api", "reference") == "api/reference";
    ReferenceDocFiles();
  }

  lemma Feat1DocFiles()
    ensures Traverse(Feat1Tree(), "features/feat1") == [
      DocFile("feat1-overview.md", "Feature 1 Overview", Some("Detailed overview of feature 1"), "features/feat1/feat1-overview.md")]
  {
    assert Join("features/feat1", "feat1-overview.md") == "features/feat1/feat1-overview.md";
  }

  lemma FeaturesDocFiles()
    ensures Traverse(FeaturesTree(), "features") == [
      DocFile("features.md", "Features Overview", Some("Overview of all features"), "features/features.md"),
      DocFile("feat1-overview.md", "Feature 1 Overview", Some("Detailed overview of feature 1"), "features/feat1/feat1-overview.md")]
  {
    assert Join("features", "features.md") == "features/features.md";
    assert Join("features", "feat1") == "features/feat1";
    Feat1DocFiles();
  }

  /** Flattening the example outline from the empty root yields its five documents in this order. */
  lemma ExampleOutlineDocFiles()
    ensures ExtractDocFiles(ExampleOutlineTree(), "") == [
      DocFile("authentication.md", "Authentication", Some("API authentication guide"), "api/authentication.md"),
      DocFile("user.md", "User API", Some("User endpoints"), "api/reference/user.md"),
      DocFile("organization.md", "Organization API", Some("Organization endpoints"), "api/reference/organization.md"),
      DocFile("features.md", "Features Overview", Some("Overview of all features"), "features/features.md"),
      DocFile("feat1-overview.md", "Feature 1 Overview", Some("Detailed overview of feature 1"), "features/feat1/feat1-overview.md")
    ]
  {
    ApiDocFiles();
    FeaturesDocFiles();
  }
}
