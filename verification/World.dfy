/** What the server sees of its surroundings while it answers one request. */
module World {
  import opened Wrappers
  import opened Http

  /** What `fopen`, `fstat` and `fread` report for a path. `modTime` is the formatted
      modification time, None when `gmtime` cannot represent it. */
  datatype Node =
    | Denied
    | Readable(isDir: bool, statOk: bool, size: nat, content: string, modTime: Option<Timestamp>, mime: FieldText)

  datatype DirEntry = DirEntry(name: string, isDir: bool)

  datatype PipeRead = Chunk(bytes: string) | End | PipeInterrupted | ReadFailed

  /** One run of a CGI script: its output as the pipe delivers it, and how it ended. */
  datatype CgiRun = CgiRun(output: seq<PipeRead>, waitOk: bool, exitStatus: Option<int>)

  /** A file-system snapshot (a path missing from `files` does not exist, one missing from
      `dirs` cannot be listed, one missing from `scripts` cannot be executed), the clock, and
      whether system resources are granted: `memoryOk` is for the 200 builders,
      `errorMemoryOk` for the error builder. */
  datatype World = World(files: map<string, Node>, dirs: map<string, seq<DirEntry>>, scripts: map<string, CgiRun>,
                         now: Timestamp, pipeOk: bool, forkOk: bool, memoryOk: bool, errorMemoryOk: bool)

  /** `fopen(path, "r")` */
  function Open(w: World, path: string): Option<Node> {
    if path in w.files && w.files[path].Readable? then Some(w.files[path]) else None
  }
}
