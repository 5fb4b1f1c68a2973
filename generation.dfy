/**
 * `generateDocs(skald, configPath, outputPath)`: read and parse the
 * outline, flatten it into tasks, and run the tasks in batches of ten; each
 * task asks the knowledge-base chat for a document and, when the call
 * answers, creates the task's directory and writes the reply's `response`
 * to the task's output path. A failed task is logged and skipped.
 *
 * The chat call is the oracle `chat`, giving a `Reply`. The YAML parser is
 * the oracle `parse`, `None` where `yaml.load` throws.
 */
module Generation {
  import opened Wrappers
  import opened Paths
  import opened Files
  import opened Outline
  import opened Batching
  import opened DocsInit

  const DocGenerationPrompt: string :=
    "\nBased on the provided title and description, search the knowledge base for relevant information "
    + "and produce a markdown file with documentation covering the provided information. "
    + "Be concise and professional, but not formal.\n "

  /**
   * What `await skald.chat(...)` gives: it throws, or it answers with a
   * reply whose `response` is a string (`Some`) or is not (`None`, on which
   * `writeFileSync` throws once the directory has been created).
   */
  datatype Reply = Threw | Answered(response: Option<string>)

  /** The task's chat call answers with text, so its file is written. */
  predicate Writes(f: DocFile, chat: string -> Reply) {
    chat(Prompt(f)).Answered? && chat(Prompt(f)).response.Some?
  }

  const NoDescription: string := "No description provided"

  /** What the prompt says before the title. */
  const PromptHead: string := DocGenerationPrompt + "\n\nTitle: "

  const DescriptionLabel: string := "Description: "

  /** `docFile.description || 'No description provided'`: an absent or empty description falls back. */
  function DescriptionText(description: Option<string>): string {
    if description.Some? && description.value != "" then description.value else NoDescription
  }

  /** The query sent to the chat for one task. */
  function Prompt(f: DocFile): string {
    PromptHead + f.title + "\n" + DescriptionLabel + DescriptionText(f.description)
  }

  /** The first position of `c` in `s`. */
  function IndexOf(s: string, c: char): (r: Option<nat>)
    ensures r.None? ==> c !in s
    ensures r.Some? ==> r.value < |s| && s[r.value] == c && c !in s[..r.value]
    decreases |s|
  {
    if s == [] then None
    else if s[0] == c then Some(0)
    else
      match IndexOf(s[1..], c)
      case None => None
      case Some(i) =>
        assert s[..i + 1] == [s[0]] + s[1..][..i];
        Some(i + 1)
  }

  /** Reads the two fields back out of `head + title + "\n" + marker + text`. */
  function ParseFields(head: string, marker: string, p: string): Option<(string, string)> {
    if |p| < |head| || p[..|head|] != head then None
    else
      var rest := p[|head|..];
      match IndexOf(rest, '\n')
      case None => None
      case Some(i) =>
        var after := rest[i + 1..];
        if |after| < |marker| || after[..|marker|] != marker then None
        else Some((rest[..i], after[|marker|..]))
  }

  /** Reads the title and the description text back out of a prompt. */
  function ParsePrompt(p: string): Option<(string, string)> {
    ParseFields(PromptHead, DescriptionLabel, p)
  }

  lemma FieldsRoundTrip(head: string, marker: string, title: string, text: string)
    requires '\n' !in title
    ensures ParseFields(head, marker, head + title + "\n" + marker + text) == Some((title, text))
  {
    var p := head + title + "\n" + marker + text;
    var rest := title + "\n" + marker + text;
    assert p == head + rest;
    assert p[..|head|] == head;
    assert p[|head|..] == rest;
    var i := IndexOf(rest, '\n');
    assert rest[|title|] == '\n';
    assert i.Some?;
    assert i.value == |title|;
    assert rest[..|title|] == title;
    assert rest[|title| + 1..] == marker + text;
  }

  /**
   * A prompt carries the task's title and its description, or the fallback
   * text when the description is absent or empty, and nothing else of the
   * task: both can be read back as long as the title is a single line.
   */
  lemma PromptRoundTrip(f: DocFile)
    requires '\n' !in f.title
    ensures ParsePrompt(Prompt(f)) == Some((f.title, DescriptionText(f.description)))
  {
    FieldsRoundTrip(PromptHead, DescriptionLabel, f.title, DescriptionText(f.description));
  }

  /** Two single-line tasks get the same prompt exactly when their titles and description texts agree. */
  lemma PromptInjective(f: DocFile, g: DocFile)
    requires '\n' !in f.title && '\n' !in g.title
    ensures Prompt(f) == Prompt(g) <==>
      f.title == g.title && DescriptionText(f.description) == DescriptionText(g.description)
  {
    PromptRoundTrip(f);
    PromptRoundTrip(g);
  }

  /** One task of a batch, run to completion on `d`. */
  function RunTask(d: Disk, f: DocFile, chat: string -> Reply): Disk {
    match chat(Prompt(f))
    case Threw => d
    case Answered(response) =>
      var dir := Dirname(f.outputPath);
      var d1 := if d.Exists(dir) then d else d.Mkdir(dir);
      if response.Some? then d1.Write(f.outputPath, response.value) else d1
  }

  /** The tasks run one after another. */
  function RunTasks(d: Disk, fs: seq<DocFile>, chat: string -> Reply): Disk
    decreases |fs|
  {
    if fs == [] then d else RunTask(RunTasks(d, fs[..|fs| - 1], chat), fs[|fs| - 1], chat)
  }

  datatype TaskResult = Written(path: string) | Failed(path: string)

  /** The line a task logs: `✅ Generated: <path>` or `❌ Error generating <path>`. */
  function ResultOf(f: DocFile, chat: string -> Reply): TaskResult {
    if Writes(f, chat) then Written(f.outputPath) else Failed(f.outputPath)
  }

  /** A batch as its progress line announces it: `Processing batch <number>/<total>`. */
  datatype Batch = Batch(number: nat, total: nat, files: seq<DocFile>)

  datatype Outcome =
    | Initialised               // no outline: `initDocs` ran instead
    | OutlineUnreadable         // reading or parsing the outline threw: exit status 1
    | Generated(docFiles: seq<DocFile>, batches: seq<Batch>, results: seq<TaskResult>)

  // ---------------------------------------------------------------------------
  // Properties of running the tasks.
  // ---------------------------------------------------------------------------

  /** Running a list in two parts is running the whole list. */
  lemma {:induction false} RunTasksAppend(d: Disk, a: seq<DocFile>, b: seq<DocFile>, chat: string -> Reply)
    ensures RunTasks(d, a + b, chat) == RunTasks(RunTasks(d, a, chat), b, chat)
    decreases |b|
  {
    if b == [] {
      assert a + b == a;
    } else {
      assert (a + b)[..|a + b| - 1] == a + b[..|b| - 1];
      RunTasksAppend(d, a, b[..|b| - 1], chat);
    }
  }

  /** No file disappears and no directory disappears. */
  lemma {:induction false} RunTasksGrows(d: Disk, fs: seq<DocFile>, chat: string -> Reply)
    ensures d.files.Keys <= RunTasks(d, fs, chat).files.Keys
    ensures d.dirs <= RunTasks(d, fs, chat).dirs
    decreases |fs|
  {
    if fs != [] {
      RunTasksGrows(d, fs[..|fs| - 1], chat);
    }
  }

  /**
   * A task whose chat call answers with text leaves that text as the content
   * of its output file, and its directory existing, unless a later task
   * writes the same path.
   */
  lemma {:induction false} TaskWritten(d: Disk, fs: seq<DocFile>, k: nat, chat: string -> Reply, text: string)
    requires k < |fs| && chat(Prompt(fs[k])) == Answered(Some(text))
    requires forall j :: k < j < |fs| && fs[j].outputPath == fs[k].outputPath ==> !Writes(fs[j], chat)
    ensures var e := RunTasks(d, fs, chat);
      && e.Read(fs[k].outputPath) == Some(text)
      && e.Exists(Dirname(fs[k].outputPath))
    decreases |fs|
  {
    var prefix := fs[..|fs| - 1];
    var before := RunTasks(d, prefix, chat);
    if k == |fs| - 1 {
      var dir := Dirname(fs[k].outputPath);
      if !before.Exists(dir) {
        SelfInAncestry(dir);
      }
    } else {
      TaskWritten(d, prefix, k, chat, text);
      RunTasksGrows(before, [fs[|fs| - 1]], chat);
      assert RunTasks(before, [fs[|fs| - 1]], chat) == RunTask(before, fs[|fs| - 1], chat) by {
        assert [fs[|fs| - 1]][..0] == [];
      }
    }
  }

  /** A task whose chat call throws changes nothing: the run is the run of the other tasks alone. */
  lemma FailedTaskInert(d: Disk, fs: seq<DocFile>, k: nat, chat: string -> Reply)
    requires k < |fs| && chat(Prompt(fs[k])).Threw?
    ensures RunTasks(d, fs, chat) == RunTasks(d, fs[..k] + fs[k + 1..], chat)
  {
    assert fs == fs[..k] + [fs[k]] + fs[k + 1..];
    RunTasksAppend(d, fs[..k] + [fs[k]], fs[k + 1..], chat);
    RunTasksAppend(d, fs[..k], [fs[k]], chat);
    RunTasksAppend(d, fs[..k], fs[k + 1..], chat);
    assert [fs[k]][..0] == [];
  }

  /**
   * A reply without a string `response` fails the task after its directory
   * was made: no file changes, the directory exists, and the task logs a
   * failure.
   */
  lemma NoResponseTask(d: Disk, f: DocFile, chat: string -> Reply)
    requires chat(Prompt(f)) == Answered(None)
    ensures var e := RunTask(d, f, chat);
      && e.files == d.files
      && e.Exists(Dirname(f.outputPath))
      && e.dirs == d.dirs + CreatedDirs(d, Dirname(f.outputPath))
      && ResultOf(f, chat) == Failed(f.outputPath)
  {
    SelfInAncestry(Dirname(f.outputPath));
  }

  /** The output paths of the tasks. */
  function OutputPaths(fs: seq<DocFile>): set<string> {
    set k | 0 <= k < |fs| :: fs[k].outputPath
  }

  /** Every directory the tasks may create: the ancestry of each output file's directory. */
  function OutputDirs(fs: seq<DocFile>): set<string> {
    set k, p | 0 <= k < |fs| && p in Ancestry(Dirname(fs[k].outputPath)) :: p
  }

  /**
   * Files other than the tasks' output files are untouched, and no
   * directory appears except on the way to an output file.
   */
  lemma {:induction false} RunTasksFrame(d: Disk, fs: seq<DocFile>, chat: string -> Reply)
    ensures var e := RunTasks(d, fs, chat);
      && (forall p :: p !in OutputPaths(fs) ==> e.Read(p) == d.Read(p))
      && d.dirs <= e.dirs <= d.dirs + OutputDirs(fs)
    decreases |fs|
  {
    if fs != [] {
      var prefix := fs[..|fs| - 1];
      RunTasksFrame(d, prefix, chat);
      assert OutputPaths(prefix) <= OutputPaths(fs) by {
        forall p | p in OutputPaths(prefix) ensures p in OutputPaths(fs) {
          var k :| 0 <= k < |prefix| && prefix[k].outputPath == p;
          assert fs[k].outputPath == p;
        }
      }
      assert OutputDirs(prefix) <= OutputDirs(fs) by {
        forall p | p in OutputDirs(prefix) ensures p in OutputDirs(fs) {
          var k :| 0 <= k < |prefix| && p in Ancestry(Dirname(prefix[k].outputPath));
          assert fs[k] == prefix[k];
        }
      }
      var last := fs[|fs| - 1];
      assert last.outputPath in OutputPaths(fs);
      assert Ancestry(Dirname(last.outputPath)) <= OutputDirs(fs);
    }
  }

  /** A directory in the ancestry of `d` has its own ancestry inside that of `d`. */
  lemma AncestryNested(d: string, a: string)
    requires a in Ancestry(d)
    ensures Ancestry(a) <= Ancestry(d)
  {
    var i :| 0 < i <= |d| && (i == |d| || d[i] == '/') && a == d[..i];
    forall x | x in Ancestry(a) ensures x in Ancestry(d) {
      var j :| 0 < j <= |a| && (j == |a| || a[j] == '/') && x == a[..j];
      assert x == d[..j];
    }
  }

  /** Two tasks touch disjoint parts of the disk: different files, neither on the way to the other's directory. */
  predicate Independent(a: DocFile, b: DocFile) {
    && a.outputPath != b.outputPath
    && a.outputPath !in Ancestry(Dirname(b.outputPath))
    && b.outputPath !in Ancestry(Dirname(a.outputPath))
  }

  /** The directories `mkdir -p dir` adds to `d` when `generateDocs` finds `dir` missing. */
  function CreatedDirs(d: Disk, dir: string): set<string> {
    if d.Exists(dir) then {} else Ancestry(dir)
  }

  /** `files` after a task with output path `path` got the reply's `response`. */
  function Saved(files: map<string, string>, path: string, response: Option<string>): map<string, string> {
    if response.Some? then files[path := response.value] else files
  }

  /**
   * Two independent tasks whose calls both answer: each text reply written,
   * each directory created if it was missing at the start.
   */
  lemma TwoTasks(d: Disk, a: DocFile, b: DocFile, chat: string -> Reply)
    requires Independent(a, b) && chat(Prompt(a)).Answered? && chat(Prompt(b)).Answered?
    ensures var e := RunTask(RunTask(d, a, chat), b, chat);
      && e.files == Saved(Saved(d.files, a.outputPath, chat(Prompt(a)).response), b.outputPath, chat(Prompt(b)).response)
      && e.dirs == d.dirs + CreatedDirs(d, Dirname(a.outputPath)) + CreatedDirs(d, Dirname(b.outputPath))
  {
    var da, db := Dirname(a.outputPath), Dirname(b.outputPath);
    SelfInAncestry(db);
    if !d.Exists(da) && db in Ancestry(da) {
      AncestryNested(da, db);
    }
  }

  /**
   * Independent tasks give the same disk whichever settles first, so
   * running the tasks of a batch in list order stands for any order in
   * which their concurrent calls complete.
   */
  lemma RunTaskCommutes(d: Disk, a: DocFile, b: DocFile, chat: string -> Reply)
    requires Independent(a, b)
    ensures RunTask(RunTask(d, a, chat), b, chat) == RunTask(RunTask(d, b, chat), a, chat)
  {
    if chat(Prompt(a)).Answered? && chat(Prompt(b)).Answered? {
      BothAnsweredCommute(d, a, b, chat);
    }
  }

  lemma BothAnsweredCommute(d: Disk, a: DocFile, b: DocFile, chat: string -> Reply)
    requires Independent(a, b) && chat(Prompt(a)).Answered? && chat(Prompt(b)).Answered?
    ensures RunTask(RunTask(d, a, chat), b, chat) == RunTask(RunTask(d, b, chat), a, chat)
  {
    TwoTasks(d, a, b, chat);
    TwoTasks(d, b, a, chat);
    var ra, rb := chat(Prompt(a)).response, chat(Prompt(b)).response;
    var ab := RunTask(RunTask(d, a, chat), b, chat);
    var ba := RunTask(RunTask(d, b, chat), a, chat);
    assert ab.files == ba.files by {
      if ra.Some? && rb.Some? {
        assert d.files[a.outputPath := ra.value][b.outputPath := rb.value]
            == d.files[b.outputPath := rb.value][a.outputPath := ra.value];
      }
    }
    assert ab.dirs == ba.dirs;
  }

  /** Swapping two neighbouring independent tasks does not change the outcome of the run. */
  lemma RunTasksSwap(d: Disk, pre: seq<DocFile>, a: DocFile, b: DocFile, post: seq<DocFile>, chat: string -> Reply)
    requires Independent(a, b)
    ensures RunTasks(d, pre + [a, b] + post, chat) == RunTasks(d, pre + [b, a] + post, chat)
  {
    RunTasksAppend(d, pre + [a, b], post, chat);
    RunTasksAppend(d, pre + [b, a], post, chat);
    RunTasksAppend(d, pre, [a, b], chat);
    RunTasksAppend(d, pre, [b, a], chat);
    var mid := RunTasks(d, pre, chat);
    assert [a, b][..1] == [a] && [a][..0] == [];
    assert [b, a][..1] == [b] && [b][..0] == [];
    assert RunTasks(mid, [a], chat) == RunTask(mid, a, chat);
    assert RunTasks(mid, [b], chat) == RunTask(mid, b, chat);
    assert RunTasks(mid, [a, b], chat) == RunTask(RunTask(mid, a, chat), b, chat);
    assert RunTasks(mid, [b, a], chat) == RunTask(RunTask(mid, b, chat), a, chat);
    RunTaskCommutes(mid, a, b, chat);
  }

  // ---------------------------------------------------------------------------
  // The command.
  // ---------------------------------------------------------------------------

  /** The body of the `batch.map(async (docFile) => ...)` callback. */
  method GenerateDoc(fs: FileSystem, docFile: DocFile, chat: string -> Reply) returns (r: TaskResult)
    modifies fs
    ensures fs.State() == RunTask(old(fs.State()), docFile, chat)
    ensures r == ResultOf(docFile, chat)
  {
    var prompt := Prompt(docFile);
    var result := chat(prompt);
    if result.Threw? {
      return Failed(docFile.outputPath);
    }
    var outputDir := Dirname(docFile.outputPath);
    if !fs.Exists(outputDir) {
      fs.MkdirRecursive(outputDir);
    }
    if result.response.None? {
      return Failed(docFile.outputPath);
    }
    fs.WriteFile(docFile.outputPath, result.response.value);
    return Written(docFile.outputPath);
  }

  /** `await Promise.all(batch.map(...))`, with the tasks settling in list order. */
  method GenerateBatch(fs: FileSystem, batch: seq<DocFile>, chat: string -> Reply) returns (results: seq<TaskResult>)
    modifies fs
    ensures fs.State() == RunTasks(old(fs.State()), batch, chat)
    ensures |results| == |batch| && forall k :: 0 <= k < |batch| ==> results[k] == ResultOf(batch[k], chat)
  {
    results := [];
    var j := 0;
    while j < |batch|
      invariant 0 <= j <= |batch|
      invariant |results| == j && forall k :: 0 <= k < j ==> results[k] == ResultOf(batch[k], chat)
      invariant fs.State() == RunTasks(old(fs.State()), batch[..j], chat)
    {
      assert batch[..j + 1][..j] == batch[..j];
      var r := GenerateDoc(fs, batch[j], chat);
      results := results + [r];
      j := j + 1;
    }
    assert batch[..j] == batch;
  }

  /** `batches` are the first batches of `docFiles`, as the progress lines number them. */
  predicate BatchesSoFar(batches: seq<Batch>, docFiles: seq<DocFile>) {
    && |batches| <= |Partition(docFiles)|
    && forall b :: 0 <= b < |batches| ==>
         batches[b] == Batch(b + 1, BatchCount(|docFiles|), Partition(docFiles)[b])
  }

  /** `results` are the log lines of the first tasks of `docFiles`. */
  predicate ResultsSoFar(results: seq<TaskResult>, docFiles: seq<DocFile>, chat: string -> Reply) {
    && |results| <= |docFiles|
    && forall k :: 0 <= k < |results| ==> results[k] == ResultOf(docFiles[k], chat)
  }

  lemma ResultsExtend(results: seq<TaskResult>, more: seq<TaskResult>, docFiles: seq<DocFile>, i: nat, j: nat,
                      chat: string -> Reply)
    requires ResultsSoFar(results, docFiles, chat) && |results| == i <= j <= |docFiles|
    requires |more| == j - i && forall k :: 0 <= k < |more| ==> more[k] == ResultOf(docFiles[i..j][k], chat)
    ensures ResultsSoFar(results + more, docFiles, chat)
  {
    forall k | i <= k < j ensures (results + more)[k] == ResultOf(docFiles[k], chat) {
      assert (results + more)[k] == more[k - i];
      assert docFiles[i..j][k - i] == docFiles[k];
    }
  }

  /** The state of the batching loop once every batch starting before `i` has settled. */
  predicate Progress(before: Disk, docFiles: seq<DocFile>, chat: string -> Reply,
                     i: nat, batches: seq<Batch>, results: seq<TaskResult>, now: Disk) {
    && i == BatchSize * |batches| && BatchesSoFar(batches, docFiles)
    && |results| == Min(i, |docFiles|) && ResultsSoFar(results, docFiles, chat)
    && now == RunTasks(before, docFiles[..Min(i, |docFiles|)], chat)
  }

  lemma BatchesStep(batches: seq<Batch>, docFiles: seq<DocFile>)
    requires BatchesSoFar(batches, docFiles) && BatchSize * |batches| < |docFiles|
    ensures BatchesSoFar(batches + [Batch(|batches| + 1, BatchCount(|docFiles|),
                           docFiles[BatchSize * |batches| .. Min(BatchSize * |batches| + BatchSize, |docFiles|)])],
                         docFiles)
  {
    BatchCountBound(|docFiles|, |batches|);
    PartitionAt(docFiles, |batches|);
  }

  lemma StateStep(before: Disk, docFiles: seq<DocFile>, chat: string -> Reply, i: nat, now: Disk, after: Disk)
    requires i < |docFiles|
    requires now == RunTasks(before, docFiles[..i], chat)
    requires after == RunTasks(now, docFiles[i .. Min(i + BatchSize, |docFiles|)], chat)
    ensures after == RunTasks(before, docFiles[..Min(i + BatchSize, |docFiles|)], chat)
  {
    var batch := docFiles[i .. Min(i + BatchSize, |docFiles|)];
    assert docFiles[..Min(i + BatchSize, |docFiles|)] == docFiles[..i] + batch;
    RunTasksAppend(before, docFiles[..i], batch, chat);
  }

  /** One more batch settles. */
  lemma ProgressStep(before: Disk, docFiles: seq<DocFile>, chat: string -> Reply,
                     i: nat, batches: seq<Batch>, results: seq<TaskResult>, now: Disk,
                     batchResults: seq<TaskResult>, after: Disk)
    requires Progress(before, docFiles, chat, i, batches, results, now) && i < |docFiles|
    requires var batch := docFiles[i .. Min(i + BatchSize, |docFiles|)];
      && after == RunTasks(now, batch, chat)
      && |batchResults| == |batch|
      && forall k :: 0 <= k < |batch| ==> batchResults[k] == ResultOf(batch[k], chat)
    ensures i / BatchSize + 1 == |batches| + 1
    ensures Progress(before, docFiles, chat, i + BatchSize,
                     batches + [Batch(i / BatchSize + 1, BatchCount(|docFiles|), docFiles[i .. Min(i + BatchSize, |docFiles|)])],
                     results + batchResults, after)
  {
    assert Min(i, |docFiles|) == i;
    assert i / BatchSize == |batches|;
    BatchesStep(batches, docFiles);
    StateStep(before, docFiles, chat, i, now, after);
    ResultsExtend(results, batchResults, docFiles, i, Min(i + BatchSize, |docFiles|), chat);
  }

  /** Once `i` has passed the end, every batch and every task has been handled. */
  lemma ProgressDone(before: Disk, docFiles: seq<DocFile>, chat: string -> Reply,
                     i: nat, batches: seq<Batch>, results: seq<TaskResult>, now: Disk)
    requires Progress(before, docFiles, chat, i, batches, results, now) && i >= |docFiles|
    ensures |batches| == |Partition(docFiles)|
    ensures |results| == |docFiles|
    ensures now == RunTasks(before, docFiles, chat)
  {
    BatchCountBound(|docFiles|, |batches|);
    assert docFiles[..|docFiles|] == docFiles;
  }

  /** The batching loop of `generateDocs`: `for (let i = 0; i < docFiles.length; i += batchSize)`. */
  method GenerateAll(fs: FileSystem, docFiles: seq<DocFile>, chat: string -> Reply)
    returns (batches: seq<Batch>, results: seq<TaskResult>)
    modifies fs
    ensures |batches| == |Partition(docFiles)|
    ensures forall b :: 0 <= b < |batches| ==>
      batches[b] == Batch(b + 1, BatchCount(|docFiles|), Partition(docFiles)[b])
    ensures |results| == |docFiles|
    ensures forall k :: 0 <= k < |docFiles| ==> results[k] == ResultOf(docFiles[k], chat)
    ensures fs.State() == RunTasks(old(fs.State()), docFiles, chat)
  {
    var n := |docFiles|;
    ghost var before := fs.State();
    var total := BatchCount(n);
    batches := [];
    results := [];
    var i := 0;
    while i < n
      invariant Progress(before, docFiles, chat, i, batches, results, fs.State())
      decreases n - i
    {
      var batch := docFiles[i .. Min(i + BatchSize, n)];
      ghost var now := fs.State();
      var batchResults := GenerateBatch(fs, batch, chat);
      ProgressStep(before, docFiles, chat, i, batches, results, now, batchResults, fs.State());
      batches := batches + [Batch(i / BatchSize + 1, total, batch)];
      results := results + batchResults;
      i := i + BatchSize;
    }
    ProgressDone(before, docFiles, chat, i, batches, results, fs.State());
  }

  method GenerateDocs(fs: FileSystem, configPath: string, outputPath: string,
                      parse: string -> Option<Node>, chat: string -> Reply)
    returns (outcome: Outcome)
    modifies fs
    ensures var before := old(fs.State());
      var outline := OutlinePath(configPath);
      if !before.Exists(outline) then
        outcome == Initialised && fs.State() == InitDocsSpec(before, configPath)
      else if before.Read(outline).None? || parse(before.Read(outline).value).None? then
        outcome == OutlineUnreadable && fs.State() == before
      else
        var docFiles := ExtractDocFiles(parse(before.Read(outline).value).value, outputPath);
        && outcome.Generated?
        && outcome.docFiles == docFiles
        && |outcome.batches| == |Partition(docFiles)|
        && (forall b :: 0 <= b < |outcome.batches| ==>
              outcome.batches[b] == Batch(b + 1, BatchCount(|docFiles|), Partition(docFiles)[b]))
        && |outcome.results| == |docFiles|
        && (forall k :: 0 <= k < |docFiles| ==> outcome.results[k] == ResultOf(docFiles[k], chat))
        && fs.State() == RunTasks(before, docFiles, chat)
  {
    var outlineYmlPath := OutlinePath(configPath);
    if !fs.Exists(outlineYmlPath) {
      InitDocs(fs, configPath);
      return Initialised;
    }
    var outlineContent := fs.ReadFile(outlineYmlPath);
    if outlineContent.None? {
      return OutlineUnreadable;
    }
    var outline := parse(outlineContent.value);
    if outline.None? {
      return OutlineUnreadable;
    }
    var docFiles := ExtractDocFiles(outline.value, outputPath);
    var batches, results := GenerateAll(fs, docFiles, chat);
    return Generated(docFiles, batches, results);
  }
}
