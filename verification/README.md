# A verified model of simple_web_server

simple_web_server is a single-threaded HTTP/1.0 server (RFC 1945) written in C around one
`poll()` loop. This project models that server in Dafny, from the bytes `recv` delivers to the
bytes `send` takes, and proves what it does in every run.

The model takes the form of the C code. `Server` is a class whose two parallel arrays `pfds` and
`clients` grow by doubling, are compacted by moving the last slot into the hole, and are walked by
index while both happen. Both are arrays of structs in C, so a slot holds the struct itself
(`PollFd`, `Client`), and every routine that C calls with `&clients[i]` updates slot `i` of the
array in place. `strtok` writes NULs into a character array, the log line is assembled in a fixed
buffer, and the receive, send, accept, CGI and `readdir` loops are loops. Each of these methods is
proved against a function of the values it starts from; what the server promises is then proved
about those functions.

| file | what it holds |
|---|---|
| CString, Numbers, Growth, Wrappers | `strnstr`, C strings, `strtok`, `printf` numbers, doubling |
| Http, Logging | settings, status codes, the log line |
| ParseRequest, RequestGrammar | the request line, and exactly which ones are accepted |
| World, ResolvePath, PathProperties | the surroundings, path resolution, splitting and walking of paths |
| MessageHead, Response, BuildResponse, Listing | message heads and the response builders |
| Framing, HeadAndGet, Outcomes | what a recipient decodes, HEAD against GET, and which answer comes when |
| Connection, DoRead, Chunking, DoWrite | one connection: reading, answering, sending |
| Sweep | one pass over the slots against one step per descriptor |
| Machine | the server as a state machine, and its invariant over all runs |
| Server | the arrays, the event loop and the shutdown, following the machine |
| Runs | whole runs, one connection at a time: what a turn does to it, and where its input and answer come from |
| Ledger | counting over whole runs: records and log lines by descriptor |
| EndToEnd | what clients see in every run |

## Conventions

- A byte is a `char`; a C string ends at its first NUL. `Config` holds PATH_MAX (at least the 256
  that POSIX guarantees), whether CGI and logging are on, and the icon markup of listings.
- The environment is a parameter. `World` is what one request sees: files, directories, scripts,
  clock text, and whether pipes, processes and memory are granted. `RecvResult`, `PipeRead`,
  `AcceptResult` and lists of `send` results are what the calls return. A `Round` is one turn of
  the event loop: what `poll` reports, what each listener delivers, and the traffic of each
  descriptor. An exhausted list of `recv` results means that nothing more is pending, an exhausted
  list of `send` results that the next call fails.
- `accept` is assumed to hand out descriptors that are not open (`Fresh`); numbers are reused.
- Date text has at most 31 characters, address text at most 45, and they and the MIME type
  contain no line breaks; these are subset types.
- A failed `send` or `poll` ends the process, in the middle of a pass for `send`. `Turns` and
  `Reaches` describe the state the process leaves then too, with `exited` set: some connections
  have been served, one was cut off, the others were not looked at.

## Where code and comments differ

The model follows the code.

- README.md:137 says that PROCESSING is not visible to the poll loop, and
  client_conn/do_read.c:33-35 that an oversized request gets a 400. The code records 414, leaves
  the client in PROCESSING with nothing staged, and never serves it (`OverflowIsNeverServed`).
- client_conn/do_read.c:86 says that an unrecoverable receive error leads to CLOSING. The code
  still looks for the blank line, and answers the request if it is there (`CallEnds`).
- client_conn/connections.h:148-149 says that accepting goes on after a failed `accept`; the code
  stops.
- requests/parse_request.h:66 says that the path has no query string; it keeps it.

Four natural claims hold only under a condition, which is proved exact:

- How bytes are grouped is irrelevant if and only if the stream has at most 8192 bytes or no blank
  line in its first 8192 (`GroupingIrrelevantExactly`, with the grouping that breaks it otherwise
  in `OneCallOverflows`).
- The file opened for an accepted path lies below the document root, unless its last segment is
  ".." and all before it are empty or single dots (`AcceptedPathWalk`). The path that counts is
  the one that is opened, which is cut at '?' and at PATH_MAX: "/..?x" is accepted and opens
  "./.." (`EscapingRequests`). A listing is read from another name, the request path without its
  first slash: with two slashes in front that is an absolute path (`ListedPathWalk`, with
  `AbsoluteListing` for "//etc" and the like; `ListedIsOpened` tells when the two names agree).
- The HEAD response is the head of the GET response if and only if no script that can be opened
  and executed, runs well and has output is asked for (`HeadIsHeadOfGet`, with surroundings that
  break it for any script in `HeadWithBody`).
- The executed script is the opened file if and only if the path before the query has at most
  PATH_MAX - 2 characters (`ScriptIsOpenedFile`; paths of PATH_MAX - 1 are accepted and fail it,
  `LongestPathIsCut`); path and query rebuild the request path under the
  condition in `SplitRebuilds`.

## Model

| member | source | states |
|---|---|---|
| `EndToEnd.WireCarriesOneResponse` | client_conn/do_write.c:20-56 | In every run, also one in which the process exits: a connection on which anything was sent was accepted in a round a, what was delivered on it from then up to a round j starts with a head, and it has been sent the answer to that head in the surroundings of round j, framed so that a recipient finds its end; all of it if it was closed, a proper part only if the process exited. Both rounds lie before the one the run has reached, and with logging on the line of that answer is in the log |
| `EndToEnd.RequestIsAnswered` | main.c:188-237 | In a run with any other connections: from the round in which a listener delivers it, however the bytes of its request are split over calls and rounds, a connection that then becomes writable ends, having been sent exactly the answer to its first head, unless the process exits, which it does if the sends do not suffice |
| `Runs.TurnByDescriptor` | main.c:188-237 | One turn of the loop serves each connection that was there exactly once on its own traffic, keeps it or drops it accordingly, and leaves connections accepted in the same turn alone; only when the process exits can one not have been looked at |
| `Runs.NewcomersEnter` | client_conn/accept_new_conn.c:26-86 | When poll reports a listener readable, every socket that draining gets to, judged by the list of accept results alone, is in the table after the turn, READING, with its address or "Unknown IP", empty buffers and POLLIN requested, or closed if it cannot be made non-blocking |
| `Runs.FailedIsClosed` | main.c:208-214 | POLLERR, POLLHUP or POLLNVAL closes a connection as it is, whatever else is reported; nothing is read, sent or logged |
| `Runs.ClosedByTraffic` | main.c:216-236 | Without those, a connection closes only because reading it closed it or everything was sent |
| `Ledger.FailedLeaves` | main.c:208-214 | In a turn that reports one of those the descriptor leaves the table, with exactly one record more, of the client and wire as they were, and no log line |
| `Runs.EverythingIsTraced` | client_conn/do_read.c:101-166 | In every reachable state a READING client holds exactly what was delivered on its descriptor since that was accepted, every answer was built from that in the world of the round that completed the head, and logged if logging is on, every line in the log is that of such an answer, and only clients sent more than 8192 bytes have overflowed; rounds after an exit play no part |
| `Ledger.BooksBalance` | client_conn/do_read.c:159-166 | In every reachable state the connections on a descriptor that ended, and the one that is open, are no more than it was handed out for, and with logging on the log has exactly one line for each one that was answered |
| `EndToEnd.OverflowIsNeverServed` | client_conn/do_read.c:48-52 | In every run from a state in which a client is in PROCESSING, it is still there, unchanged and with nothing sent, as long as its descriptor does not fail; in the round in which it first fails it is closed with an empty wire, unless the process exits |
| `EndToEnd.EveryRequestIsAnswered` | client_conn/do_read.c:146-157 | If the error builder gets its memory, every head leads to a nonempty staged response with a real status: all failures on the way have a page |
| `EndToEnd.LoggedStatusIsSent` | client_conn/do_read.c:159-166 | The status in the log line is the status a recipient decodes from the status line |
| `EndToEnd.LineReads` | client_conn/do_read.c:142-164 | The log line in full: address, time, request line in quotes, three digits of the status, length of the body |
| `Machine.EveryReachableState` | main.c:177-242 | In every reachable state accepted descriptors are those in the table plus those closed, as multisets; every open connection is READING with no blank line and nothing staged, overflowed, or SENDING_HEADER with nothing sent; every closed one sent nothing or its whole answer. This includes the state in which the process exits, where one connection can also be cut off within its answer |
| `Machine.TurnKeeps` | main.c:188-237 | One turn keeps that invariant, whether it is completed or the process exits in it |
| `Machine.ExitsExactly` | client_conn/do_write.c:34-38 | A pass is cut short exactly when the sends of some connection fail, whatever the order of the slots |
| `Machine.RunDetermined` | main.c:177-242 | The rounds determine whether the process exits and, if not, the state in which the loop ends |
| `Machine.PollEnds` | main.c:179-186 | An interrupted poll makes no difference to a run, a failed one ends it as it is |
| `Machine.ServeOutcome` | main.c:203-236 | One look at a connection in order keeps it in order, closes it with nothing or everything sent, or exits with a proper prefix sent; CLOSING and SENDING_BODY never survive |
| `Machine.ReadOutcome` | client_conn/do_read.c:95-172 | The states in which a read can leave a waiting client, with what is staged in each |
| `Machine.KeysSplit` | client_conn/connections.c:26-38 | A pass, however far it gets, splits the descriptors into those kept and those closed, each closed once |
| `ServerLoop.RunServer` | main.c:176-247 | From start to shutdown the arrays follow the machine; when the process exits they are left in a state that the machine reaches and that keeps the invariant, and otherwise every accepted socket has in the end been closed as often as it was handed out. All slots copied by growing are fewer than twice the largest number of slots ever in use |
| `ServerLoop.Server.EventLoop` | main.c:177-242 | The event loop on the arrays refines the machine, for any rounds, and also in the turn in which the process exits |
| `ServerLoop.Server.Sweep` | main.c:188-237 | The walk over the growing and shrinking arrays, with its `i--`, ends and does what the machine's turn does: all connections are served, or some of them, of which exactly one is a connection whose send fails |
| `ServerLoop.Server.ServeClient` | main.c:203-236 | The loop body on a client slot does what serving that connection means, and removes the slot exactly when the connection closes |
| `ServerLoop.Server.Shutdown` | main.c:244-247 | The shutdown loop ends, though its index never moves, and closes each remaining connection once |
| `ServerLoop.Server.AddToLists` | client_conn/connections.c:46-104 | The new connection goes behind the others, which stay as they are; capacity is 32 doubled, growing copies each slot in use, the peak is the largest number of connections so far, and all slots copied are fewer than twice the peak number of slots |
| `ServerLoop.Server.CloseConn` | client_conn/connections.c:17-39 | The slot disappears, the last one takes its place, both arrays stay in step, and the descriptor is counted as closed; slot 0 is refused |
| `ServerLoop.Server.AcceptNewConn` | client_conn/accept_new_conn.c:20-88 | Draining a listener adds every accepted non-blocking socket as a new READING connection with its address, closes the others, and stops where the code stops |
| `ServerLoop.Server.Poll` | main.c:179 | Reporting events changes nothing else of any connection |
| `PollSweep.SweepServesEach` | main.c:188-237 | Walking the slots with swap-removal serves every connection from slot i on exactly once, or some of them, of which exactly one is a connection whose send fails: what is left, what was closed, final states and log lines are those of one step per descriptor |
| `PollSweep.ByFdSwap` | client_conn/connections.c:34-38 | Moving the last slot into the hole leaves exactly the other connections to be served |
| `PollSweep.SlotOrderIrrelevant` | client_conn/connections.c:34-38 | The outcome of a pass does not depend on the order of the slots |
| `Chunking.GroupingIrrelevant` | client_conn/do_read.c:101-138 | Any split of a stream into receives and calls stages the same response as looking at its first 8192 bytes at once |
| `Chunking.GroupingIrrelevantExactly` | client_conn/do_read.c:46-73 | That holds for all groupings of a stream if and only if it has at most 8192 bytes or no blank line in its first 8192 |
| `Chunking.OneCallOverflows` | client_conn/do_read.c:48-52 | A longer stream with an early blank line overflows when one call drains all of it, where the reference answers it |
| `Chunking.CallEnds` | client_conn/do_read.c:101-171 | What becomes of a waiting client by the result that ends a call: nothing pending and a fatal error both lead to the answer if there is a blank line, end of file never does, too many bytes overflow, a refused buffer closes |
| `Chunking.QuietDrain` | client_conn/do_read.c:101-107 | Without EOF and errors the buffer holds the concatenation of the chunks, or the client overflowed |
| `Chunking.ReadsBounded` | client_conn/do_read.c:101-123 | Every successful receive but the last adds a byte, so one drain makes at most 8193 of them |
| `Chunking.ConnectionReadsBounded` | client_conn/do_read.c:101-123 | Over all calls of do_read, a connection has at most 8192 successful receives while it stays READING, and at most one more |
| `Reading.Append` | client_conn/do_read.c:46-73 | The buffer gets the bytes, in the capacity that its length determines, or the client overflows or closes |
| `Reading.CapacityBounds` | client_conn/do_read.c:54-70 | The capacity is 1024 doubled, at most 8192, enough, and either 1024 or below twice the length |
| `Reading.Receive` | client_conn/do_read.c:101-123 | The receive loop computes the drained client, and whether the search follows |
| `Reading.DoRead` | client_conn/do_read.c:95-172 | Reading, answering and logging one client in place, with POLLOUT requested exactly when something is to be sent |
| `Reading.AnswerRequest` | client_conn/do_read.c:136-166 | Parsing, resolving, building and logging stage the response in the slot, and produce the whole log line |
| `Logging.LogLineFits` | logging/logging.c:52-63 | The three pieces of a log line fit the 8320-byte buffer, so the remaining size never wraps and nothing is cut |
| `Logging.LogEntry.Append` | logging/logging.c:52-63 | A piece that fits is appended and ended by NUL; one that does not is cut, while the offset still grows by its full length |
| `Writing.SentInOrder` | client_conn/do_write.c:29-56 | Under any partial sends the bytes go out in order; all go out, and the client closes, exactly when the sends suffice, and otherwise the process exits with a proper part sent |
| `Writing.DoWrite` | client_conn/do_write.c:11-59 | The send loop on the slot in place does that, and closes a client with nothing staged |
| `RequestParser.ParseRequest` | requests/parse_request.c:91-188 | The parser with its line buffer and in-place tokens computes the verdict on the words of the first line, leaves `*resp` alone on success, and logs the line |
| `RequestParser.SplitLine` | requests/parse_request.c:133-136 | The four `strtok` calls find three words exactly when there are three, and all three can still be read from the buffer afterwards |
| `RequestParser.CheckWords` | requests/parse_request.c:138-187 | The checks on the words in their order, with what each leaves in the record |
| `RequestParser.FirstLine` | requests/parse_request.c:112-119 | The first line of a head is NUL-free and fits `line_buf` with its NUL |
| `CString.StrTok` | requests/parse_request.c:133-136 | A `strtok` call yields the next maximal run, ends it by NUL, and touches nothing before or after it |
| `CString.TokenKept` | requests/parse_request.c:133-136 | Tokens found earlier survive later calls |
| `CString.SearchOfPrefix` | client_conn/do_read.c:129 | The terminator search on a prefix finds the same hit or nothing, so more input never changes a hit |
| `RequestGrammar.AcceptsExactly` | requests/parse_request.c:138-187 | A head is accepted if and only if its first line is a servable request under some spacing |
| `RequestGrammar.PrintedIsAccepted` | requests/parse_request.c:100-187 | Parsing inverts printing, whatever the spacing and the later lines |
| `RequestGrammar.AcceptedIsPrinted` | requests/parse_request.c:100-187 | Printing inverts parsing: what is accepted is servable, and its line is that request printed |
| `RequestGrammar.FirstDefectDecides` | requests/parse_request.c:138-187 | A line is refused with the code of its first defect in the order shape, length, slash, version, old version, traversal, method; a 400 erases method and version |
| `RequestGrammar.SpacingAndFieldsIgnored` | requests/parse_request.c:112-136 | Spacing and later lines never change the result, accepted or not |
| `PathResolver.ResolvePath` | requests/resolve_path.c:172-277 | Resolution with its in-place tokens computes the resolution of the path |
| `PathResolver.SplitPath` | requests/resolve_path.c:179-186 | The two `strtok` calls cut path and query out of the PATH_MAX buffer |
| `PathProperties.ResolveOutcomes` | requests/resolve_path.c:198-276 | For reference: when each status and path type arises, in terms of the request path (what is then sent is in Outcomes) |
| `PathProperties.CgiByPath` | requests/resolve_path.c:157-160 | A request is for a script exactly when its path before the query starts with /cgi-bin/ |
| `PathProperties.ScriptIsOpenedFile` | response/build_okay_response.c:143-149 | The character loop of the CGI builder names the file that was opened if and only if that path fits PATH_MAX - 2 characters |
| `PathProperties.LongestPathIsCut` | requests/resolve_path.c:179 | A path of PATH_MAX - 1 characters is accepted, and the file that is opened lacks its last character |
| `PathProperties.LongestScript` | response/build_okay_response.c:143-149 | For every PATH_MAX there is a servable script path for which the file opened and the script executed differ |
| `PathProperties.SplitRebuilds` | requests/resolve_path.c:179-186 | Path and query rebuild the request path if and only if it fits and has at most one '?', with something after it |
| `PathProperties.TraversalBySegments` | requests/parse_request.c:85-89 | "../" occurs if and only if some segment before the last ends in two dots |
| `PathProperties.AcceptedPathWalk` | requests/parse_request.c:175-177 | The file opened for an accepted request is never above the document root before its last segment, and is above it if and only if that segment is ".." and all before it are empty or a single dot |
| `PathProperties.ListedPathWalk` | response/build_okay_response.c:275-280 | The directory listed for an accepted request lies below the document root if and only if the path does not start with two slashes, and is not ".." after nothing but empty segments and single dots |
| `PathProperties.AbsoluteListing` | response/build_okay_response.c:275-280 | Accepted requests whose listing has an absolute name |
| `PathProperties.ListedIsOpened` | response/build_okay_response.c:275-280 | The listed directory is the opened one if and only if the path has no query and fits PATH_MAX - 2 characters |
| `PathProperties.EscapingRequests` | requests/resolve_path.c:179-181 | Accepted requests that open the parent of the document root: ".." alone, before a query, and where PATH_MAX cuts |
| `Builders.BuildErrorResponse` | response/build_error_response.c:43-96 | The error builder stages the page of the client's status, and refuses 200 and the unset status |
| `Builders.BuildOkayResponse` | response/build_okay_response.c:479-512 | The dispatcher stages the page of the path type, and falls back to an error page with the right status |
| `Builders.BuildResponseFile` | response/build_okay_response.c:411-476 | The chunked copy stages head and whole content |
| `Builders.BuildResponseDir` | response/build_okay_response.c:263-408 | The listing is staged with the length computed before it is written |
| `Builders.BuildResponseCgi` | response/build_okay_response.c:99-260 | The script's whole output is staged behind its head, or the right failure is recorded |
| `Builders.CollectOutput` | response/build_okay_response.c:170-213 | The pipe loop collects the whole output for any chunk sizes, in a buffer of 8192 doubled, at most twice the output |
| `Builders.ScriptName` | response/build_okay_response.c:143-149 | The copied script name is the path before the query behind a dot, and fits its buffer |
| `Builders.CgiHeaderFits` | response/build_okay_response.c:232-244 | The CGI head never reaches its 750-byte buffer's end |
| `Builders.ListingLength` | response/build_okay_response.c:355-360 | The precomputed listing length is the length of the listing |
| `Listing.ItemsInOrder` | response/build_okay_response.c:300-317 | The listing is one item per entry without a leading dot, in directory order |
| `Listing.EmptyListing` | response/build_okay_response.c:391-398 | The empty-directory text appears exactly when all entries are hidden |
| `Listing.EntryListed` | response/build_okay_response.c:300-317 | Every shown entry stands in the page between those before and those after it, with the icon of its kind and a link to its path |
| `Listing.NothingListed` | response/build_okay_response.c:391-398 | The text of a listing that shows nothing |
| `Framing.StagedIsFramed` | response/build_okay_response.c:436-473 | Every staged response decodes: its lines, its status, its end of head at the first blank line and at header_len, and its intended body, which Content-Length delimits if and only if the announced length is right |
| `Framing.AnnouncedIsLength` | response/build_okay_response.c:449 | Only a file whose size and content disagree can get a wrong Content-Length |
| `Framing.SomethingIsStaged` | response/build_okay_response.c:495-508 | Failures of resolver and builders always leave a status that the error builder accepts |
| `Outcomes.FileIsSent` | response/build_okay_response.c:411-476 | A readable regular file is answered with 200, its MIME type, modification time, size and content, if its time can be told and there is memory, and otherwise with 500; the fields are read from the staged bytes |
| `Outcomes.DirectoryIsSent` | requests/resolve_path.c:223-254 | A directory, with or without a slash at the end of its path, is answered with its index.htm, else its index.html, as text/html, and with a listing if and only if neither opens |
| `Outcomes.ScriptIsRun` | response/build_okay_response.c:99-260 | A script is answered with its output if it can be started and read and ends with 0, and otherwise with 500 |
| `Outcomes.NotServed` | requests/resolve_path.c:201-276 | Missing files give 404, forbidden ones 403, a failing fstat 500, scripts without leave 501, with the kind and body of each |
| `Outcomes.RefusalIsReported` | requests/parse_request.c:138-187 | A refused request is answered with the status line of its first defect |
| `Outcomes.PipeEnds` | response/build_okay_response.c:170-213 | The output of a script is what the pipe delivers up to its end; interrupted reads make no difference, a failed one spoils all |
| `Outcomes.ErrorReports` | response/build_error_response.c:53-96 | What the error builder stages decodes to status line, date, server, kind, length and body, without the body for HEAD; without memory nothing is staged |
| `HeadAndGet.HeadIsHeadOfGet` | response/build_okay_response.c:459-463 | For the same request and surroundings, HEAD stages the first header_len bytes of GET, if and only if the request is not for a script that can be opened and executed, runs well and has output |
| `HeadAndGet.ScriptAnswers` | response/build_okay_response.c:99-260 | That condition on path, files, scripts and system resources is when the CGI builder stages a body |
| `HeadAndGet.HeadWithBody` | response/build_okay_response.c:246-257 | For every script path that is accepted there are surroundings in which HEAD is not the head of GET |
| `HeadAndGet.ParsesAlike` | requests/parse_request.c:20-24 | GET and HEAD parse alike but for the method, which a 400 erases |
| `MessageHead.BlankLineExact` | response/build_error_response.c:67-82 | The first blank line of a printed message is the end of its head |
| `MessageHead.ReadPrinted` | response/build_error_response.c:67-79 | Reading a printed head gives back its lines and the untouched body |
| `Numbers.DecimalRoundTrip` | response/build_okay_response.c:442 | A printed length reads back as itself |
| `Numbers.Int32Is` | client_conn/do_read.c:161-163 | A length passed as an int is the int that agrees with it in the low 32 bits |
| `Growth.DoubledIsPower` | client_conn/do_read.c:54-60 | Doubled from a base means the base times a power of two |

## Left out

- Creating listeners, signals, daemonising and flag parsing: they only supply settings, listener descriptors and the end of the rounds.
- The lifetime of `FILE *` handles, which the resolved path and the client share and both release: files are byte sequences.
- fork, exec and the environment of CGI scripts: a script is a run with its output and exit status; nothing is said about a query string reaching it.
- The extension table and libmagic: the MIME type of a file is part of the snapshot.
- The path type UNKNOWN: it is the zero value that every successful resolution overwrites, and is left out of the type, so that success with it cannot be expressed.
- The format of dates: they are opaque text.
- The icon markup of listings and its absence on some systems: it is a setting.
- ServerLoop.Server.AddToLists: a failed `realloc` of the two tables, which ends the process, is not modelled.
- ServerLoop.Server.Sweep: when a send fails, which connections were served before the process ends depends on slot order and is left open; what is stated holds for any.
- Machine.EveryReachableState: it does not claim that every connection is eventually closed; an overflowed one can stay as long as its peer does.
- The buffers `in_buf` and `out_buf` are sequences with their capacity, so aliasing and freeing of heap blocks are not modelled.
- `poll`: that it reports only requested events is not assumed; no property needs it, so any events are allowed.
- Unused fields of the client (`timestamp`, `body_sent`, `output_capacity`) and debug output: they influence nothing.
- Closing the listeners and the log file at the end: they are not part of this model.
