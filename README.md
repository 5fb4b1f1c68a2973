# skald-cli documentation generator and memo rules, in Dafny

This project models the part of the `skald` command-line tool that has real logic.

The `docs` command group (`src/commands/docs/index.ts`) defines the handlers `generateDocs` and `initDocs`. The program entry `src/index.ts:16-18` registers only `auth`, `memo` and `chat`, so as shipped the two docs handlers cannot be reached from the command line. The model covers them as the functions they are.

- **`generateDocs` (the `docs generate` handler).** It reads `<config>/.skald/outline.yml`. It flattens the outline's nested `_docs` lists into a task list. It then runs the tasks in batches of ten. Each task sends a prompt built from the task's title and description to the knowledge-base chat. When the chat answers, the task creates the directory and then writes the answer's `response` to the task's output path. A failing task is logged and skipped.
- **`initDocs` (the `docs init` handler).** With no outline present, it creates `.skald` and writes an example outline, and it never overwrites an existing one.
- **`skald memo add` and `skald memo write`.** These turn a file or an editor session into a memo request. Their rules are modelled: how `--tags` is split and trimmed, when content counts as empty, which `vi` exit codes are accepted, what metadata is sent, and how the service's reply becomes the exit status.

Modules, one concern each:

- `Wrappers`: `Option`.
- `Paths`: the `path.join`/`path.dirname` subset the commands use, and the directories `mkdir -p` creates.
- `Text`: ECMAScript `trim` and `split`.
- `Files`: the disk as a value `Disk`, plus the `FileSystem` class whose methods update it in place.
- `Outline`: the parsed outline tree and the flattener. The flattener is checked against an independent description of where every entry sits and in which order a depth-first walk meets them.
- `Batching`: slicing a list into batches of ten.
- `DocsInit`: `initDocs` and its example outline.
- `Generation`: the prompt, the run of the tasks as a function on `Disk`, and the `generateDocs` method with its batching loop.
- `Memo`: the two memo subcommands as functions of what the file system, the editor, the title prompt and the service answered.

Three parts stay outside the model and enter as parameters:

- The YAML parser is `parse: string -> Option<Node>`. `None` is a load that throws.
- The chat call is `chat: string -> Reply`. `Threw` is a call that throws. `Answered(Some(text))` is a reply whose `response` is the string `text`. `Answered(None)` is a reply whose `response` is not a string: the task creates the directory if it is missing, then `writeFileSync` throws and the task is logged as failed (`NoResponseTask`).
- For memos, `createMemo`'s reply is the `CreateResponse` value.

The model follows the code on `memo write`. An unreadable temporary file, blank content and a missing title each end the command with a plain `return`, so the exit status is 0. A blank file in `memo add` exits with 1.

## Model

| member | source | states |
|---|---|---|
| Outline.TraverseCount | src/commands/docs/generate.ts:19-48 | the number of tasks equals the number of entries across all array-valued `_docs` lists at any depth |
| Outline.TraverseIsLocate | src/commands/docs/generate.ts:22-43 | flattening yields exactly the task of each entry location, in the order of the independent walk `Locate` |
| Outline.TraverseFields | src/commands/docs/generate.ts:25-41 | task k copies name, title and description from the k-th entry met; its output path joins the output root, the keys down to the entry's mapping in order, and the entry's name; every such location is a real entry |
| Outline.LocateExact | src/commands/docs/generate.ts:23-43 | a location is listed if and only if it names an entry of an array-valued `_docs` reachable through nested mappings |
| Outline.LocateOrdered | src/commands/docs/generate.ts:23-43 | listed entries are in pre-order: a mapping's own entries in list order come before every entry under its keys, and keys are visited in order |
| Outline.LocateDistinct | src/commands/docs/generate.ts:25-33 | no entry is emitted twice |
| Outline.NothingToWalk | src/commands/docs/generate.ts:23-43 | a mapping without an array `_docs` and with no key to descend into flattens to nothing; a top-level string or number, whose keys are character indices or none, is such a mapping |
| Outline.DocsKeyChildSkipped | src/commands/docs/generate.ts:38 | a nested mapping under the key `_docs` is not walked into: only the node's own entries are emitted |
| Outline.TaskDirectory | src/commands/docs/generate.ts:25-41 | in an outline of plain keys and names, the directory `path.dirname` takes of task k's output path is the root joined with the keys down to its entry, or "." when that is empty |
| Outline.TraverseEmptyIff | src/commands/docs/generate.ts:23-38 | the task list is empty exactly when no array-valued `_docs` with an entry exists: non-array `_docs`, scalars and empty arrays contribute nothing |
| Batching.BatchCountBound | src/commands/docs/generate.ts:83-85 | a batch starting at 10·b exists exactly when b is below ceil(n/10), the announced batch total |
| Batching.Partition | src/commands/docs/generate.ts:82-84 | the slicing loop yields ceil(n/10) batches |
| Batching.PartitionConcat | src/commands/docs/generate.ts:83-84 | the batches concatenate back to the task list |
| Batching.PartitionShape | src/commands/docs/generate.ts:83-84 | batch b is `docFiles.slice(10·b, min(10·b+10, n))` and starts before n |
| Batching.PartitionSizes | src/commands/docs/generate.ts:82-84 | every batch is non-empty with at most 10 tasks; all but the last have exactly 10 |
| Batching.PartitionEmpty | src/commands/docs/generate.ts:83 | there are no batches exactly when there are no tasks |
| Generation.PromptRoundTrip | src/commands/docs/generate.ts:89 | a prompt of a single-line title reads back as that title and the description, or "No description provided" when the description is absent or empty |
| Generation.PromptInjective | src/commands/docs/generate.ts:89 | two such prompts are equal exactly when their titles and description texts are |
| Generation.RunTasksAppend | src/commands/docs/generate.ts:83-108 | running tasks in two parts is running them all: batches compose |
| Generation.RunTasksGrows | src/commands/docs/generate.ts:95-102 | no file and no directory disappears |
| Generation.TaskWritten | src/commands/docs/generate.ts:95-103 | a task whose chat call answers with text leaves that text as the file's content and its directory existing, unless a later task writes the same path |
| Generation.FailedTaskInert | src/commands/docs/generate.ts:91-106 | a task whose chat call throws changes nothing: the run equals the run without it, so every other task is still attempted |
| Generation.NoResponseTask | src/commands/docs/generate.ts:95-106 | a reply whose `response` is not a string writes no file but leaves the task's directory created, and the task logs a failure |
| Generation.RunTasksFrame | src/commands/docs/generate.ts:87-107 | files outside the tasks' output paths keep their contents; new directories lie only on the way to output directories |
| Generation.RunTaskCommutes | src/commands/docs/generate.ts:87 | two independent tasks give the same disk in either completion order |
| Generation.RunTasksSwap | src/commands/docs/generate.ts:87 | swapping neighbouring independent tasks in a run changes nothing |
| Generation.GenerateDoc | src/commands/docs/generate.ts:88-106 | the per-task callback changes the disk as `RunTask` says and logs written exactly when the chat reply carries text |
| Generation.GenerateBatch | src/commands/docs/generate.ts:87-107 | a batch's results are the per-task results in order, and the disk is the batch's run |
| Generation.GenerateAll | src/commands/docs/generate.ts:82-108 | the loop announces batch b+1 of ceil(n/10) with contents `Partition[b]`, logs one result per task in task order, and leaves the disk as the run of all tasks |
| Generation.GenerateDocs | src/commands/docs/generate.ts:50-112 | with no outline file it behaves as `initDocs`; an unreadable or unparsable outline changes nothing; otherwise the outcome names the flattened tasks, the batches and the results, and the disk is the run of all tasks |
| DocsInit.InitDocs | src/commands/docs/init.ts:4-53 | the disk becomes `InitDocsSpec`; `.skald` exists afterwards; files are unchanged if the outline existed, otherwise only the outline file changes and it holds the template |
| DocsInit.InitDocsFiles | src/commands/docs/init.ts:16-50 | an existing outline is left exactly as is and nothing is written; a missing one holds exactly the example template; no other file changes |
| DocsInit.InitDocsDirectory | src/commands/docs/init.ts:10-13 | `.skald` exists afterwards, and directories are created only when it was missing |
| DocsInit.InitDocsIdempotent | src/commands/docs/init.ts:10-50 | running `initDocs` twice leaves the same disk as running it once |
| DocsInit.ExampleOutlineDocFiles | src/commands/docs/init.ts:23-48 | the template's tree flattens to five tasks, in order: api/authentication.md, api/reference/user.md, api/reference/organization.md, features/features.md, features/feat1/feat1-overview.md, with their titles and descriptions |
| Files.FileSystem.MkdirRecursive | src/commands/docs/generate.ts:98 | `mkdirSync(d, {recursive: true})` adds d and its ancestors as directories and changes no file |
| Files.FileSystem.WriteFile | src/commands/docs/generate.ts:102 | `writeFileSync(p, c)` sets p's content to c and changes nothing else |
| Paths.Dirname | src/commands/docs/generate.ts:96 | `path.dirname` never yields the empty path |
| Paths.DirnameOfJoin | src/commands/docs/generate.ts:96 | the directory of `join(dir, name)` is dir, or "." when dir is empty |
| Text.Trim | src/commands/memo.ts:35 | `trim` yields the contiguous part between leading and trailing whitespace, and the result neither starts nor ends with whitespace |
| Text.TrimEmptyIffBlank | src/commands/memo.ts:35 | a string trims to empty exactly when it is all whitespace |
| Text.TrimIdempotent | src/commands/memo.ts:41 | trimming a trimmed string changes nothing |
| Text.Split | src/commands/memo.ts:41 | `split(',')` yields comma-count + 1 comma-free pieces that join back to the input |
| Memo.ParseTagsEmptyIff | src/commands/memo.ts:41 | there are no tags exactly when `--tags` is absent or empty |
| Memo.ParseTagsFields | src/commands/memo.ts:169 | a non-empty `--tags` gives comma-count + 1 tags in input order; tag k is field k trimmed; no tag has a comma or surrounding whitespace |
| Memo.ParseTagsKeepsEmpty | src/commands/memo.ts:41 | empty fields are kept: "a,,b" gives "a", "", "b" |
| Memo.ParseTagsTrims | src/commands/memo.ts:41 | " x, y" gives "x" and "y" |
| Memo.ParseTagsBlankOption | src/commands/memo.ts:41 | a whitespace-only `--tags` is truthy and gives one empty tag |
| Memo.IsBlank | src/commands/memo.ts:150-153 | content counts as empty exactly when every character is whitespace |
| Memo.EditorAccepted | src/commands/memo.ts:117-125 | the editor run is accepted exactly when it closed with code 0 or 1 |
| Memo.Succeeded | src/commands/memo.ts:65-70 | creation succeeded exactly when the reply carries a non-empty `memo_uuid` |
| Memo.SourceOrDefault | src/commands/memo.ts:18 | `--source` defaults to "cli" and is otherwise taken as given |
| Memo.ExitCode | src/commands/memo.ts:200-203 | the exit status is 1 exactly for failures; creation and cancellation end with 0 |
| Memo.Conclude | src/commands/memo.ts:193-198 | a reply becomes a created memo exactly when it has a truthy `memo_uuid`; otherwise the command fails, with a thrown call told apart |
| Memo.AddSends | src/commands/memo.ts:26-63 | `add` calls the service exactly when the file exists, is readable and is not blank; the request carries the title, content, parsed tags, reference id, source, resolved file path, `created_via` "skald-cli" and no editor |
| Memo.AddExitCode | src/commands/memo.ts:25-75 | `add` exits with 0 exactly when a memo was created, which needs a readable non-blank file and a truthy `memo_uuid` |
| Memo.AddBlankCreatesNothing | src/commands/memo.ts:35-38 | a blank file fails as empty whatever the service would have answered |
| Memo.WriteSends | src/commands/memo.ts:89-191 | `write` calls the service exactly when vi ran normally, the content was read back and is not blank, and the title is not empty; the request carries `created_via` "skald-cli-write", editor "vi" and no file path |
| Memo.WriteExitCode | src/commands/memo.ts:89-203 | `write` exits with 1 exactly when the editor could not run normally or the service did not create a memo; the other early stops are cancellations |
| Memo.WriteBlankCreatesNothing | src/commands/memo.ts:150-153 | blank editor content is cancelled before the title prompt, whatever the title and reply |
| Memo.SubcommandsAgreeOnOptions | src/commands/memo.ts:168-191 | both subcommands turn the same options into the same tags, source and reference id, and differ in `created_via` |

## Left out

- YAML parsing (`js-yaml`) is the oracle `parse`. An empty file or a document that is `null` loads as `undefined` or `null`, and `traverse` then throws an uncaught error; this is not modelled. A top-level string or number does not throw: the parser hands it over as a mapping without `_docs` whose keys, if any, hold scalars, and it flattens to no tasks (`NothingToWalk`).
- Entry fields: `title` and `description` are only shown in the prompt, so the parser hands them over as the prompt renders them. A missing title becomes the text "undefined". A falsy description (missing, `null`, "", 0, `false`) becomes `None`, so the prompt falls back to "No description provided". Any other description becomes `Some` of the string it renders to, such as "42".
- An outline is modelled as a tree of mappings with scalar leaves. Values the walk would crash on are not modelled: a `null` value under a key, or a `_docs` entry without a string `name`. An array under an ordinary key is descended into by the code with the indices "0", "1", … as keys. The model covers it as a mapping with those keys.
- Key order: `Object.keys` puts integer-like keys first. The children sequence is taken to be in `Object.keys` order already.
- `Outline.Traverse`: `extractDocFiles`'s `basePath`/`currentPath` argument is computed but never used in a task, so it is not modelled.
- Paths: `path.join` normalisation is not modelled. Keys, entry names and the output root are joined as given, with one `/` between them. An output root that is empty gives the first key itself, as the `outputPath ? … : key` test does. The model then differs from `path.join` for the inputs normalisation would change: a key or name that is "", "." or ".." or contains `/`, a root such as "." or one ending in `/`. `TaskDirectory` states the directory property for outlines of plain segments only (`PlainOutline`).
- Duplicate keys: the children of a mapping are a sequence, so the model also allows repeated keys, which a parsed JavaScript object cannot have. No property relies on the keys being distinct.
- File system: writes and directory creation always succeed. A file standing where a directory is needed is not modelled, and neither is a directory at a file's path. So the `catch` around a task in `generateDocs` is reached only through a chat call that throws or a reply without a string `response`.
- `Generation.GenerateBatch`: runs a batch's tasks one after another in list order, because the code's `Promise.all` interleaving is a matter of scheduling. `RunTaskCommutes` and `RunTasksSwap` show that order does not matter for tasks that are independent (distinct paths, neither on the other's directory path). For two tasks with the same output path the model keeps the later one's text, while the code leaves the winner unspecified.
- Console output is modelled only as the batch announcements and the per-task result lines. `process.exit(1)` is the `OutlineUnreadable` or `Failed` outcome.
- `requireAuth`, the authentication and chat commands, configuration files and Commander registration are not part of this model.
- Memo commands: the `which vi` probe result, the temporary file's creation and read, the editor's close, the title prompt's answer and `path.resolve` are inputs. Temporary-file naming with `Date.now()` and clean-up are not modelled.
- The Skald SDK (`chat`, `createMemo`) is opaque and appears only through the oracles and `CreateResponse`.
