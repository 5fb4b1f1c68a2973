/**
 * The part of the local filesystem the docs commands touch, as Node's
 * synchronous `fs` calls see it: a map from file path to content and the
 * set of directories that exist.
 */
module Files {
  import opened Wrappers
  import opened Paths

  /** A snapshot of the filesystem. */
  datatype Disk = Disk(files: map<string, string>, dirs: set<string>) {

    /** `fs.existsSync(p)`: true for a file and for a directory alike. */
    predicate Exists(p: string) {
      p in files || p in dirs
    }

    /** `fs.readFileSync(p, 'utf-8')`, with `None` where it throws. */
    function Read(p: string): Option<string> {
      if p in files then Some(files[p]) else None
    }

    /** `fs.mkdirSync(d, { recursive: true })`. */
    function Mkdir(d: string): Disk {
      Disk(files, dirs + Ancestry(d))
    }

    /** `fs.writeFileSync(p, content)`. */
    function Write(p: string, content: string): Disk {
      Disk(files[p := content], dirs)
    }
  }

  /** The filesystem as mutable state, with the calls the commands make on it. */
  class FileSystem {
    var files: map<string, string>
    var dirs: set<string>

    constructor (files: map<string, string>, dirs: set<string>)
      ensures this.files == files && this.dirs == dirs
    {
      this.files := files;
      this.dirs := dirs;
    }

    /** The current snapshot. */
    function State(): Disk
      reads this
    {
      Disk(files, dirs)
    }

    /** `fs.existsSync(p)`. */
    predicate Exists(p: string)
      reads this
    {
      State().Exists(p)
    }

    /** `fs.readFileSync(p, 'utf-8')`. */
    function ReadFile(p: string): Option<string>
      reads this
    {
      State().Read(p)
    }

    /** `fs.mkdirSync(d, { recursive: true })`: `d` and its ancestors exist afterwards, files are untouched. */
    method MkdirRecursive(d: string)
      modifies this
      ensures State() == old(State()).Mkdir(d)
      ensures files == old(files) && dirs == old(dirs) + Ancestry(d)
    {
      dirs := dirs + Ancestry(d);
    }

    /** `fs.writeFileSync(p, content)`: only the file at `p` changes. */
    method WriteFile(p: string, content: string)
      modifies this
      ensures State() == old(State()).Write(p, content)
      ensures files == old(files)[p := content] && dirs == old(dirs)
    {
      files := files[p := content];
    }
  }
}
