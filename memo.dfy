// The decisions inside `skald memo add` and `skald memo write`: how the
// `--tags` option becomes a tag list, when memo content counts as empty,
// which editor exit codes are accepted, what request is sent to the memo
// service and how its reply becomes the command's outcome and exit status.
// The file system, the editor, the title prompt and the memo service are
// inputs: each command is a function of what those parts of the world
// answered.

module Memo {
  import opened Wrappers
  import opened Text

  /** The default of `--source` in both subcommands. */
  const DefaultSource: string := "cli"
  /** `created_via` of a memo added from a file. */
  const CreatedViaAdd: string := "skald-cli"
  /** `created_via` of a memo written in the editor. */
  const CreatedViaWrite: string := "skald-cli-write"
  /** The only editor the `write` subcommand runs. */
  const EditorName: string := "vi"

  // ---------------------------------------------------------------------------
  // Tags

  /** Trims every piece, keeping the order and the empty pieces. */
  function TrimAll(pieces: seq<string>): (r: seq<string>)
    ensures |r| == |pieces|
    ensures forall k :: 0 <= k < |r| ==> r[k] == Trim(pieces[k])
  {
    if pieces == [] then [] else [Trim(pieces[0])] + TrimAll(pieces[1..])
  }

  /**
   * `options.tags ? options.tags.split(',').map(tag => tag.trim()) : []`:
   * an absent or empty option is falsy and gives no tags.
   */
  function ParseTags(tags: Option<string>): seq<string> {
    match tags
    case None => []
    case Some(t) => if t == "" then [] else TrimAll(Split(t, ','))
  }

  /** No tags exactly when the option is absent or empty. */
  lemma ParseTagsEmptyIff(tags: Option<string>)
    ensures ParseTags(tags) == [] <==> (tags == None || tags == Some(""))
  {
    if tags.Some? && tags.value != "" {
      assert |Split(tags.value, ',')| >= 1;
    }
  }

  /**
   * A non-empty option gives one tag per comma-separated field, in order:
   * the k-th tag is the k-th field with its surrounding whitespace removed,
   * the fields joined by commas give back the option, and no tag contains a
   * comma or starts or ends with whitespace.
   */
  lemma ParseTagsFields(t: string)
    requires t != ""
    ensures var fields := Split(t, ',');
      && JoinWith(fields, ',') == t
      && |ParseTags(Some(t))| == |fields| == Count(t, ',') + 1
      && forall k :: 0 <= k < |fields| ==>
           && ',' !in fields[k]
           && ParseTags(Some(t))[k] == Trim(fields[k])
           && Trim(ParseTags(Some(t))[k]) == ParseTags(Some(t))[k]
  {
    var fields := Split(t, ',');
    var tags := ParseTags(Some(t));
    forall k | 0 <= k < |fields|
      ensures Trim(tags[k]) == tags[k]
    {
      assert tags[k] == Trim(fields[k]);
      TrimIdempotent(fields[k]);
    }
  }

  /** Tag characters used by the examples below: neither a comma nor whitespace. */
  predicate Plain(c: char) {
    c != ',' && !IsWhitespace(c)
  }

  lemma SplitKeepsEmpty(a: char, b: char)
    requires Plain(a) && Plain(b)
    ensures Split([a, ',', ',', b], ',') == [[a], "", [b]]
  {
    SplitCons(b, "", ',');
    assert [b] == [b] + "";
    SplitCons(',', [b], ',');
    assert [',', b] == [','] + [b];
    SplitCons(',', [',', b], ',');
    assert [',', ',', b] == [','] + [',', b];
    SplitCons(a, [',', ',', b], ',');
    assert [a, ',', ',', b] == [a] + [',', ',', b];
    assert [a] + "" == [a];
  }

  /** Empty fields are kept: "a,,b" gives the three tags "a", "" and "b". */
  lemma ParseTagsKeepsEmpty(a: char, b: char)
    requires Plain(a) && Plain(b)
    ensures ParseTags(Some([a, ',', ',', b])) == [[a], "", [b]]
  {
    SplitKeepsEmpty(a, b);
    var r := ParseTags(Some([a, ',', ',', b]));
    TrimUnchanged([a]);
    TrimUnchanged("");
    TrimUnchanged([b]);
    assert r[0] == [a] && r[1] == "" && r[2] == [b];
  }

  lemma SplitSecondSpaced(x: char, y: char)
    requires Plain(x) && Plain(y)
    ensures Split([x, ',', ' ', y], ',') == [[x], [' ', y]]
  {
    SplitCons(y, "", ',');
    assert [y] == [y] + "";
    SplitCons(' ', [y], ',');
    assert [' ', y] == [' '] + [y];
    assert [' '] + [y] == [' ', y];
    SplitCons(',', [' ', y], ',');
    assert [',', ' ', y] == [','] + [' ', y];
    SplitCons(x, [',', ' ', y], ',');
    assert [x, ',', ' ', y] == [x] + [',', ' ', y];
    assert [x] + "" == [x];
  }

  lemma SplitSpaced(x: char, y: char)
    requires Plain(x) && Plain(y)
    ensures Split([' ', x, ',', ' ', y], ',') == [[' ', x], [' ', y]]
  {
    SplitSecondSpaced(x, y);
    SplitCons(' ', [x, ',', ' ', y], ',');
    assert [' ', x, ',', ' ', y] == [' '] + [x, ',', ' ', y];
    assert [' '] + [x] == [' ', x];
  }

  lemma TrimLeadingSpace(c: char)
    requires !IsWhitespace(c)
    ensures Trim([' ', c]) == [c]
  {
    assert [' ', c][1..] == [c];
    assert LeadingSpace([' ', c]) == 1;
    assert [' ', c][1..] == [c];
    assert TrailingSpace([c]) == 0;
  }

  /** Whitespace around a tag is dropped: " x, y" gives the tags "x" and "y". */
  lemma ParseTagsTrims(x: char, y: char)
    requires Plain(x) && Plain(y)
    ensures ParseTags(Some([' ', x, ',', ' ', y])) == [[x], [y]]
  {
    SplitSpaced(x, y);
    var r := ParseTags(Some([' ', x, ',', ' ', y]));
    TrimLeadingSpace(x);
    TrimLeadingSpace(y);
    assert r[0] == [x] && r[1] == [y];
  }

  /** A whitespace-only option is truthy, so it gives one empty tag rather than none. */
  lemma ParseTagsBlankOption()
    ensures ParseTags(Some(" ")) == [""]
  {
    assert Split("", ',') == [""];
    assert Split(" ", ',') == [" "];
    TrimEmptyIffBlank(" ");
  }

  // ---------------------------------------------------------------------------
  // Content, editor and reply checks

  /** `!content.trim()`: the content is empty or only whitespace. */
  function IsBlank(content: string): (r: bool)
    ensures r <==> forall k :: 0 <= k < |content| ==> IsWhitespace(content[k])
  {
    TrimEmptyIffBlank(content);
    Trim(content) == ""
  }

  /** How the editor process ended: it could not be spawned, or it closed with an exit code (none when killed by a signal). */
  datatype EditorClose = SpawnError | Closed(code: Option<int>)

  /** `code === 0 || code === 1`: vi often exits with 1 after a normal save and quit. */
  function EditorAccepted(close: EditorClose): (r: bool)
    ensures r <==> close == Closed(Some(0)) || close == Closed(Some(1))
  {
    close.Closed? && close.code.Some? && 0 <= close.code.value <= 1
  }

  /** What `createMemo` did: it threw, or it returned a result with a possibly missing `memo_uuid`. */
  datatype CreateResponse = Threw | Returned(memoUuid: Option<string>)

  /** `result.memo_uuid` is truthy: present and not the empty string. */
  function Succeeded(resp: CreateResponse): (r: bool)
    ensures r <==> exists u :: u != "" && resp == Returned(Some(u))
  {
    if resp.Returned? && resp.memoUuid.Some? && resp.memoUuid.value != "" then
      assert resp == Returned(Some(resp.memoUuid.value));
      true
    else
      false
  }

  /** `--source`, which defaults to "cli". */
  function SourceOrDefault(source: Option<string>): (r: string)
    ensures source.None? ==> r == DefaultSource
    ensures source.Some? ==> r == source.value
  {
    source.GetOr(DefaultSource)
  }

  // ---------------------------------------------------------------------------
  // Requests and outcomes

  /** The `metadata` object of a memo; `file_path` only for `add`, `editor` only for `write`. */
  datatype Metadata = Metadata(source: string, filePath: Option<string>, createdVia: string, editor: Option<string>)

  /** The argument of `createMemo`. */
  datatype MemoRequest = MemoRequest(title: string, content: string, metadata: Metadata,
                                     referenceId: Option<string>, tags: seq<string>, source: string)

  /** Why a command stopped without creating a memo. */
  datatype Reason =
    | FileNotFound       // add: `existsSync` is false
    | FileUnreadable     // add: `readFileSync` threw
    | EmptyFile          // add: the file is blank
    | EditorNotFound     // write: `which vi` failed
    | TempFileUnwritable // write: creating the empty temporary file threw
    | EditorFailed       // write: spawn error or an exit code other than 0 and 1
    | TempFileUnreadable // write: reading the temporary file back threw
    | NoContent          // write: the edited content is blank
    | NoTitle            // write: the title prompt gave no title
    | NoMemoUuid         // the reply has no truthy `memo_uuid`
    | ServiceError       // `createMemo` threw

  /** How a command ends: a memo was created, the user cancelled (a plain return), or it failed (`process.exit(1)`). */
  datatype Outcome = Created(memoUuid: string) | Cancelled(reason: Reason) | Failed(reason: Reason)

  function ExitCode(o: Outcome): (r: nat)
    ensures r == 1 <==> o.Failed?
    ensures r == 0 <==> !o.Failed?
  {
    if o.Failed? then 1 else 0
  }

  /** The part of a command before the service call: it stops early, or it sends a request. */
  datatype Plan = Stop(outcome: Outcome) | Send(request: MemoRequest)

  /** How the reply to a sent request ends the command. */
  function Conclude(resp: CreateResponse): (r: Outcome)
    ensures r.Created? <==> Succeeded(resp)
    ensures r.Created? ==> resp == Returned(Some(r.memoUuid))
    ensures !r.Created? ==> r == Failed(if resp.Threw? then ServiceError else NoMemoUuid)
  {
    if Succeeded(resp) then Created(resp.memoUuid.value)
    else if resp.Threw? then Failed(ServiceError)
    else Failed(NoMemoUuid)
  }

  function Finish(plan: Plan, resp: CreateResponse): Outcome {
    match plan
    case Stop(o) => o
    case Send(_) => Conclude(resp)
  }

  // ---------------------------------------------------------------------------
  // `skald memo add`

  datatype AddOptions = AddOptions(title: string, filePath: string, tags: Option<string>,
                                   source: Option<string>, referenceId: Option<string>)

  /** What reading `--file-path` gave. */
  datatype FileRead = Missing | Unreadable | Contents(text: string)

  /** `memo add` up to the service call; `resolvedPath` is `path.resolve(filePath)`. */
  function AddPlan(opts: AddOptions, resolvedPath: string, file: FileRead): Plan {
    match file
    case Missing => Stop(Failed(FileNotFound))
    case Unreadable => Stop(Failed(FileUnreadable))
    case Contents(content) =>
      if IsBlank(content) then Stop(Failed(EmptyFile))
      else
        var source := SourceOrDefault(opts.source);
        Send(MemoRequest(opts.title, content,
                         Metadata(source, Some(resolvedPath), CreatedViaAdd, None),
                         opts.referenceId, ParseTags(opts.tags), source))
  }

  function AddOutcome(opts: AddOptions, resolvedPath: string, file: FileRead, resp: CreateResponse): Outcome {
    Finish(AddPlan(opts, resolvedPath, file), resp)
  }

  /** `add` calls the service exactly when the file is readable and not blank, and then sends exactly this request. */
  lemma AddSends(opts: AddOptions, resolvedPath: string, file: FileRead)
    ensures AddPlan(opts, resolvedPath, file).Send? <==> file.Contents? && !IsBlank(file.text)
    ensures AddPlan(opts, resolvedPath, file).Send? ==>
      var req := AddPlan(opts, resolvedPath, file).request;
      && req.title == opts.title
      && req.content == file.text
      && req.tags == ParseTags(opts.tags)
      && req.referenceId == opts.referenceId
      && req.source == req.metadata.source == SourceOrDefault(opts.source)
      && req.metadata.filePath == Some(resolvedPath)
      && req.metadata.createdVia == "skald-cli"
      && req.metadata.editor == None
  {
  }

  /** `add` exits with 0 exactly when a memo was created, which needs a readable non-blank file and a truthy `memo_uuid`. */
  lemma AddExitCode(opts: AddOptions, resolvedPath: string, file: FileRead, resp: CreateResponse)
    ensures var o := AddOutcome(opts, resolvedPath, file, resp);
      && (ExitCode(o) == 0 <==> o.Created?)
      && (o.Created? <==> file.Contents? && !IsBlank(file.text) && Succeeded(resp))
  {
  }

  /** Blank content never reaches the service, whatever the reply would have been. */
  lemma AddBlankCreatesNothing(opts: AddOptions, resolvedPath: string, content: string, resp: CreateResponse)
    requires forall k :: 0 <= k < |content| ==> IsWhitespace(content[k])
    ensures AddOutcome(opts, resolvedPath, Contents(content), resp) == Failed(EmptyFile)
  {
  }

  // ---------------------------------------------------------------------------
  // `skald memo write`

  datatype WriteOptions = WriteOptions(tags: Option<string>, source: Option<string>, referenceId: Option<string>)

  /**
   * What the world answered, in the order the command asks: whether `vi`
   * was found, whether the empty temporary file could be created, how the
   * editor closed, what reading the temporary file back gave, and what the
   * title prompt gave. Later answers are ignored once the command stops.
   */
  datatype Session = Session(viFound: bool, tempCreated: bool, editor: EditorClose,
                             content: Option<string>, title: Option<string>)

  /** `memo write` up to the service call. */
  function WritePlan(opts: WriteOptions, s: Session): Plan {
    if !s.viFound then Stop(Failed(EditorNotFound))
    else if !s.tempCreated then Stop(Failed(TempFileUnwritable))
    else if !EditorAccepted(s.editor) then Stop(Failed(EditorFailed))
    else if s.content.None? then Stop(Cancelled(TempFileUnreadable))
    else if IsBlank(s.content.value) then Stop(Cancelled(NoContent))
    else if s.title.None? || s.title.value == "" then Stop(Cancelled(NoTitle))
    else
      var source := SourceOrDefault(opts.source);
      Send(MemoRequest(s.title.value, s.content.value,
                       Metadata(source, None, CreatedViaWrite, Some(EditorName)),
                       opts.referenceId, ParseTags(opts.tags), source))
  }

  function WriteOutcome(opts: WriteOptions, s: Session, resp: CreateResponse): Outcome {
    Finish(WritePlan(opts, s), resp)
  }

  /** The editor was found and ran to an accepted close and the temporary file was set up. */
  predicate EditedNormally(s: Session) {
    s.viFound && s.tempCreated && EditorAccepted(s.editor)
  }

  /**
   * `write` calls the service exactly when the editor ran normally, the
   * content was read back and is not blank, and the title is not empty;
   * it then sends exactly this request.
   */
  lemma WriteSends(opts: WriteOptions, s: Session)
    ensures WritePlan(opts, s).Send? <==>
      && EditedNormally(s)
      && s.content.Some? && !IsBlank(s.content.value)
      && s.title.Some? && s.title.value != ""
    ensures WritePlan(opts, s).Send? ==>
      var req := WritePlan(opts, s).request;
      && req.title == s.title.value
      && req.content == s.content.value
      && req.tags == ParseTags(opts.tags)
      && req.referenceId == opts.referenceId
      && req.source == req.metadata.source == SourceOrDefault(opts.source)
      && req.metadata.filePath == None
      && req.metadata.createdVia == "skald-cli-write"
      && req.metadata.editor == Some("vi")
  {
  }

  /**
   * `write` exits with 1 exactly when the editor could not run normally or
   * the service call did not create a memo; an unreadable temporary file,
   * blank content and a missing title end with a plain return instead.
   */
  lemma WriteExitCode(opts: WriteOptions, s: Session, resp: CreateResponse)
    ensures var o := WriteOutcome(opts, s, resp);
      && (ExitCode(o) == 1 <==> !EditedNormally(s) || (WritePlan(opts, s).Send? && !Succeeded(resp)))
      && (o.Created? <==> WritePlan(opts, s).Send? && Succeeded(resp))
      && (o.Cancelled? <==> EditedNormally(s) && WritePlan(opts, s).Stop?)
  {
  }

  /** Blank content is cancelled before the title is asked for, whatever the title and the reply would have been. */
  lemma WriteBlankCreatesNothing(opts: WriteOptions, s: Session, resp: CreateResponse)
    requires EditedNormally(s) && s.content.Some?
    requires forall k :: 0 <= k < |s.content.value| ==> IsWhitespace(s.content.value[k])
    ensures WriteOutcome(opts, s, resp) == Cancelled(NoContent)
  {
  }

  /** Both subcommands use the same tags, source and reference id for the same options, and differ only in the metadata's origin. */
  lemma SubcommandsAgreeOnOptions(a: AddOptions, resolvedPath: string, content: string, w: WriteOptions, s: Session)
    requires a.tags == w.tags && a.source == w.source && a.referenceId == w.referenceId
    requires AddPlan(a, resolvedPath, Contents(content)).Send? && WritePlan(w, s).Send?
    ensures var ra := AddPlan(a, resolvedPath, Contents(content)).request;
      var rw := WritePlan(w, s).request;
      && ra.tags == rw.tags && ra.source == rw.source && ra.referenceId == rw.referenceId
      && ra.metadata.createdVia != rw.metadata.createdVia
  {
    AddSends(a, resolvedPath, Contents(content));
    WriteSends(w, s);
  }
}
