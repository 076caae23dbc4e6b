/** The server entry point of
    src/main/kotlin/io/modelcontextprotocol/example/server/Main.kt: the
    command-line defaulting of `main`, the session registry of the plain SSE
    server (the `servers` map, the `/sse` stream handler and the `/message`
    POST route) and the `ls` tool's result text. */
module SseServer {
  import opened Wrappers
  import opened Text

  // ------------------------------------------------------------------
  // Command line
  // ------------------------------------------------------------------

  const DefaultPort: int := 3001
  const DefaultCommand: string := "--sse-server"

  /** What `main` goes on to do. */
  datatype Launch =
    | RunStdio
    | RunSseKtor(port: int)
    | RunSsePlain(port: int)
    | ReportUnknown(message: string)   // printed to stderr; no server starts

  /** `main(args)`: the command defaults to `--sse-server`, the port to 3001
      when the second argument is absent or not an `Int`. */
  function Main(args: seq<string>): (launch: Launch)
    ensures |args| == 0 ==> launch == RunSsePlain(DefaultPort)
    ensures launch == RunStdio <==> |args| > 0 && args[0] == "--stdio"
    ensures launch.RunSseKtor? <==> |args| > 0 && args[0] == "--sse-server-ktor"
    ensures launch.RunSsePlain? <==> |args| == 0 || args[0] == "--sse-server"
    ensures launch.ReportUnknown? <==> |args| > 0 && args[0] !in {"--stdio", "--sse-server-ktor", "--sse-server"}
    ensures launch.ReportUnknown? ==> launch.message == "Unknown command: " + args[0]
    ensures (launch.RunSseKtor? || launch.RunSsePlain?) ==>
              && IsInt32(launch.port)
              && (if |args| >= 2 && ToIntOrNull(args[1]).Some? then launch.port == ToIntOrNull(args[1]).value
                  else launch.port == DefaultPort)
  {
    var command := if |args| > 0 then args[0] else DefaultCommand;
    var port := if |args| >= 2 then ToIntOrNull(args[1]).GetOr(DefaultPort) else DefaultPort;
    if command == "--stdio" then RunStdio
    else if command == "--sse-server-ktor" then RunSseKtor(port)
    else if command == "--sse-server" then RunSsePlain(port)
    else ReportUnknown("Unknown command: " + command)
  }

  /** Any `Int` written as the second argument is the port the server gets. */
  lemma PortArgumentRoundTrip(command: string, port: int)
    requires command in {"--sse-server-ktor", "--sse-server"}
    requires IsInt32(port)
    ensures Main([command, IntToString(port)]) ==
            (if command == "--sse-server" then RunSsePlain(port) else RunSseKtor(port))
  {
    IntToStringRoundTrip(port);
  }

  // ------------------------------------------------------------------
  // Session registry of the plain SSE server
  // ------------------------------------------------------------------

  const EndpointPrefix: string := "http://127.0.0.1:"
  const EndpointSuffix: string := "/message"

  /** The message endpoint a new stream's transport advertises. */
  function MessageEndpoint(port: int): string {
    EndpointPrefix + IntToString(port) + EndpointSuffix
  }

  /** The advertised endpoint names the loopback address and `/message`, and
      the port written between them reads back as the server's port. */
  lemma MessageEndpointNamesPort(port: int)
    requires IsInt32(port)
    ensures var e := MessageEndpoint(port);
            && StartsWith(e, EndpointPrefix)
            && |e| >= |EndpointPrefix| + |EndpointSuffix|
            && e[|e| - |EndpointSuffix|..] == EndpointSuffix
            && ToIntOrNull(e[|EndpointPrefix|..|e| - |EndpointSuffix|]) == Some(port)
  {
    var e := MessageEndpoint(port);
    assert e[..|EndpointPrefix|] == EndpointPrefix;
    assert e[|EndpointPrefix|..|e| - |EndpointSuffix|] == IntToString(port);
    IntToStringRoundTrip(port);
  }

  /** The `SSEServerTransport` of one stream: its session id and the endpoint it advertises. */
  datatype ServerTransport = ServerTransport(sessionId: string, endpoint: string)

  /** A configured `Server`; `transport` is set once `server.connect(transport)` ran. */
  datatype McpServer = McpServer(transport: Option<ServerTransport>)

  /** The answer to `POST /message`. */
  datatype PostResponse =
    | MissingSessionId                                        // `!!` on an absent query parameter: 500
    | SessionNotFound(status: int, body: string)              // 404 "Session not found"
    | HandedToTransport(transport: ServerTransport, body: string)  // `transport.handlePostMessage(call)`

  class SessionRegistry {
    const port: int
    var servers: map<string, McpServer>

    /** Every connected server sits under its own transport's session id. */
    ghost predicate Valid()
      reads this
    {
      forall id | id in servers && servers[id].transport.Some? ::
        servers[id].transport.value == ServerTransport(id, MessageEndpoint(port))
    }

    constructor (port: int)
      ensures Valid() && this.port == port && servers == map[]
    {
      this.port := port;
      servers := map[];
    }

    /** `sse("/sse") { ... }` up to `servers[transport.sessionId] = server`:
        a new server is registered under the new transport's session id and
        not yet connected; the close callback set next removes that id. */
    method OpenStream(sessionId: string) returns (endpoint: string)
      requires Valid()
      modifies this
      ensures Valid()
      ensures endpoint == MessageEndpoint(port)
      ensures servers == old(servers)[sessionId := McpServer(None)]
    {
      endpoint := EndpointPrefix + IntToString(port) + EndpointSuffix;
      servers := servers[sessionId := McpServer(None)];
    }

    /** `server.connect(transport)` at the end of the stream handler. The
        server object exists whether or not its entry is still registered;
        only a registered entry is visible to the POST route. */
    method ConnectTransport(sessionId: string)
      requires Valid()
      modifies this
      ensures Valid()
      ensures servers == if sessionId in old(servers)
                         then old(servers)[sessionId := McpServer(Some(ServerTransport(sessionId, MessageEndpoint(port))))]
                         else old(servers)
    {
      if sessionId in servers {
        servers := servers[sessionId := McpServer(Some(ServerTransport(sessionId, MessageEndpoint(port))))];
      }
    }

    /** The session's `onCloseCallback`: `servers.remove(transport.sessionId)`. */
    method CloseSession(sessionId: string)
      requires Valid()
      modifies this
      ensures Valid()
      ensures servers == old(servers) - {sessionId}
    {
      servers := servers - {sessionId};
    }

    /** `post("/message")`: the message goes to the transport of the session
        its `sessionId` names, or the request gets 404 "Session not found"
        and no transport sees it. */
    method HandlePost(sessionId: Option<string>, body: string) returns (r: PostResponse)
      requires Valid()
      ensures sessionId.None? <==> r.MissingSessionId?
      ensures r.SessionNotFound? <==>
                sessionId.Some? && (sessionId.value !in servers || servers[sessionId.value].transport.None?)
      ensures r.SessionNotFound? ==> r.status == 404 && r.body == "Session not found"
      ensures r.HandedToTransport? ==>
                && sessionId.Some? && sessionId.value in servers
                && servers[sessionId.value].transport == Some(r.transport)
                && r.transport.sessionId == sessionId.value
                && r.body == body
    {
      if sessionId.None? {
        return MissingSessionId;
      }
      var id := sessionId.value;
      var transport := if id in servers then servers[id].transport else None;
      if transport.None? {
        return SessionNotFound(404, "Session not found");
      }
      r := HandedToTransport(transport.value, body);
    }
  }

  /** A session's life: a POST is handed to its transport only between
      `server.connect` and the close callback, and is turned away after. */
  method SessionLifecycle(port: int, id: string, body: string)
  {
    var registry := new SessionRegistry(port);
    var endpoint := registry.OpenStream(id);
    var early := registry.HandlePost(Some(id), body);
    assert early == SessionNotFound(404, "Session not found");
    registry.ConnectTransport(id);
    var routed := registry.HandlePost(Some(id), body);
    assert routed == HandedToTransport(ServerTransport(id, endpoint), body);
    registry.CloseSession(id);
    var late := registry.HandlePost(Some(id), body);
    assert late.SessionNotFound?;
  }

  // ------------------------------------------------------------------
  // The `ls` tool
  // ------------------------------------------------------------------

  predicate IsQuote(c: char) {
    c == '"'
  }

  /** `request.arguments["path"]?.toString()?.trim('"') ?: "."`, where the
      argument is given as the JSON text its `toString()` produces: the
      slice of that text left once the quotes at both ends are removed,
      which `TrimWithUnique` shows is the only such slice. */
  function RequestedPath(pathArgument: Option<string>): (path: string)
    ensures pathArgument.None? ==> path == "."
    ensures pathArgument.Some? ==>
              && (path == [] || (path[0] != '"' && path[|path| - 1] != '"'))
              && |path| <= |pathArgument.value|
    ensures pathArgument.Some? ==>
              var json := pathArgument.value;
              var start := TrimOffset(json, IsQuote);
              && start + |path| <= |json|
              && path == json[start..start + |path|]
              && (forall k | 0 <= k < start :: json[k] == '"')
              && (forall k | start + |path| <= k < |json| :: json[k] == '"')
  {
    match pathArgument
    case None => "."
    case Some(json) => TrimWith(json, IsQuote)
  }

  /** A JSON string argument `"p"` names the path `p`, so long as `p` does
      not itself begin or end with a quote. */
  lemma RequestedPathOfJsonString(p: string)
    requires p == [] || (p[0] != '"' && p[|p| - 1] != '"')
    ensures RequestedPath(Some("\"" + p + "\"")) == p
  {
    var json := "\"" + p + "\"";
    assert json[1..|json| - 1] == p;
    TrimWithUnique(json, IsQuote, 1, |json| - 1);
  }

  /** No two slashes in a row, and no trailing slash unless the path is
      "/" itself: the form `UnixFileSystem.normalize` produces. */
  predicate IsNormalPath(p: string) {
    && (forall i | 0 <= i < |p| - 1 :: !(p[i] == '/' && p[i + 1] == '/'))
    && (|p| <= 1 || p[|p| - 1] != '/')
  }

  /** Every run of slashes collapsed into one. */
  function CollapseSlashes(s: string): (r: string)
    ensures |r| <= |s|
    ensures |r| == 0 <==> |s| == 0
    ensures |s| > 0 ==> r[0] == s[0] && r[|r| - 1] == s[|s| - 1]
    ensures forall i | 0 <= i < |r| - 1 :: !(r[i] == '/' && r[i + 1] == '/')
  {
    if |s| <= 1 then s
    else if s[0] == '/' && s[1] == '/' then CollapseSlashes(s[1..])
    else [s[0]] + CollapseSlashes(s[1..])
  }

  /** A string without two slashes in a row has nothing to collapse. */
  lemma {:induction false} CollapseOfCollapsed(s: string)
    requires forall i | 0 <= i < |s| - 1 :: !(s[i] == '/' && s[i + 1] == '/')
    ensures CollapseSlashes(s) == s
  {
    if |s| > 1 {
      var rest := s[1..];
      forall i | 0 <= i < |rest| - 1
        ensures !(rest[i] == '/' && rest[i + 1] == '/')
      {
        assert rest[i] == s[i + 1] && rest[i + 1] == s[i + 2];
      }
      CollapseOfCollapsed(rest);
      assert !(s[0] == '/' && s[1] == '/');
      assert [s[0]] + rest == s;
    }
  }

  /** `UnixFileSystem.normalize`: runs of slashes collapsed and a trailing
      slash dropped, except that a path of slashes only becomes "/". */
  function NormalizePath(s: string): (r: string)
    ensures IsNormalPath(r)
    ensures |r| == 0 <==> |s| == 0
  {
    var c := CollapseSlashes(s);
    if |c| > 1 && c[|c| - 1] == '/' then c[..|c| - 1] else c
  }

  /** Normalising leaves a normal path as it is, so it is idempotent. */
  lemma NormalizeNormal(p: string)
    requires IsNormalPath(p)
    ensures NormalizePath(p) == p
  {
    CollapseOfCollapsed(p);
  }

  /** A trailing slash on a non-empty path makes no difference. */
  lemma TrailingSlashIgnored(p: string)
    requires IsNormalPath(p) && p != ""
    ensures NormalizePath(p + "/") == NormalizePath(p)
  {
    NormalizeNormal(p);
    var q := p + "/";
    if p != "/" {
      assert forall i | 0 <= i < |q| - 1 :: q[i] == p[i];
      CollapseOfCollapsed(q);
      assert q[..|q| - 1] == p;
    } else {
      assert q == "//";
      assert CollapseSlashes(q) == CollapseSlashes(q[1..]);
      assert q[1..] == "/";
    }
  }

  /** `UnixFileSystem.resolve` of a normalised parent and child: the child
      appended under the parent. */
  function JoinPath(parent: string, child: string): (path: string)
    ensures StartsWith(path, parent)
    ensures |path| >= |child| && path[|path| - |child|..] == child
  {
    if child == [] then parent
    else if child[0] == '/' then (if parent == "/" then child else parent + child)
    else if parent == "/" then parent + child
    else parent + "/" + child
  }

  /** `java.io.File(parent, child).path` on Unix: the child is normalised and
      resolved under the normalised parent ("/" when the parent is empty).
      For an absolute parent such as the working directory, this is also
      the `absolutePath`. */
  function Resolve(parent: string, child: string): (path: string)
    ensures StartsWith(path, NormalizePath(parent))
    ensures |path| >= |NormalizePath(child)| && path[|path| - |NormalizePath(child)|..] == NormalizePath(child)
  {
    JoinPath(if parent == "" then "/" else NormalizePath(parent), NormalizePath(child))
  }

  /** A requested path with a trailing slash resolves as it would without it. */
  lemma ResolveIgnoresTrailingSlash(parent: string, p: string)
    requires IsNormalPath(p) && p != ""
    ensures Resolve(parent, p + "/") == Resolve(parent, p)
  {
    TrailingSlashIgnored(p);
  }

  datatype FileEntry = FileEntry(name: string, isDirectory: bool)

  /** What the file system says about the resolved path: it does not exist,
      it is not a directory, or it is a directory whose `listFiles()` gave
      these entries (or null). */
  datatype PathStatus = Missing | NotADirectory | Directory(listing: Option<seq<FileEntry>>)

  /** `String.compareTo(other) <= 0`: lexicographic order on characters. */
  predicate NameLe(a: string, b: string) {
    |a| == 0 || (|b| > 0 && (a[0] < b[0] || (a[0] == b[0] && NameLe(a[1..], b[1..]))))
  }

  /** `compareBy({ !it.isDirectory }, { it.name })`, as "at most": directories
      before files, then by name. */
  predicate EntryLe(a: FileEntry, b: FileEntry) {
    (a.isDirectory && !b.isDirectory) || (a.isDirectory == b.isDirectory && NameLe(a.name, b.name))
  }

  lemma {:induction false} NameLeTotal(a: string, b: string)
    ensures NameLe(a, b) || NameLe(b, a)
  {
    if |a| > 0 && |b| > 0 && a[0] == b[0] {
      NameLeTotal(a[1..], b[1..]);
    }
  }

  lemma {:induction false} NameLeTransitive(a: string, b: string, c: string)
    requires NameLe(a, b) && NameLe(b, c)
    ensures NameLe(a, c)
  {
    if |a| > 0 && a[0] == b[0] && b[0] == c[0] {
      NameLeTransitive(a[1..], b[1..], c[1..]);
    }
  }

  lemma EntryLeTotal(a: FileEntry, b: FileEntry)
    ensures EntryLe(a, b) || EntryLe(b, a)
  {
    NameLeTotal(a.name, b.name);
  }

  lemma EntryLeTransitive(a: FileEntry, b: FileEntry, c: FileEntry)
    requires EntryLe(a, b) && EntryLe(b, c)
    ensures EntryLe(a, c)
  {
    if a.isDirectory == b.isDirectory == c.isDirectory {
      NameLeTransitive(a.name, b.name, c.name);
    }
  }

  predicate SortedEntries(s: seq<FileEntry>) {
    forall i, j | 0 <= i < j < |s| :: EntryLe(s[i], s[j])
  }

  /** Inserts `e` before the first entry it does not follow. */
  function Insert(e: FileEntry, s: seq<FileEntry>): (r: seq<FileEntry>)
    requires SortedEntries(s)
    ensures SortedEntries(r)
    ensures multiset(r) == multiset(s) + multiset{e}
  {
    if |s| == 0 then [e]
    else if EntryLe(e, s[0]) then
      InsertFirst(e, s);
      [e] + s
    else
      EntryLeTotal(e, s[0]);
      var rest := Insert(e, s[1..]);
      InsertAfterFirst(e, s, rest);
      [s[0]] + rest
  }

  /** An entry at most the first of a sorted list goes in front of it. */
  lemma InsertFirst(e: FileEntry, s: seq<FileEntry>)
    requires SortedEntries(s) && |s| > 0 && EntryLe(e, s[0])
    ensures SortedEntries([e] + s)
  {
    forall j | 0 <= j < |s| ensures EntryLe(e, s[j]) {
      if j > 0 { EntryLeTransitive(e, s[0], s[j]); }
    }
  }

  /** An entry that follows the first of a sorted list goes into its tail. */
  lemma InsertAfterFirst(e: FileEntry, s: seq<FileEntry>, rest: seq<FileEntry>)
    requires SortedEntries(s) && |s| > 0 && EntryLe(s[0], e)
    requires SortedEntries(rest) && multiset(rest) == multiset(s[1..]) + multiset{e}
    ensures SortedEntries([s[0]] + rest)
    ensures multiset([s[0]] + rest) == multiset(s) + multiset{e}
  {
    assert s == [s[0]] + s[1..];
    forall j | 0 <= j < |rest| ensures EntryLe(s[0], rest[j]) {
      var x := rest[j];
      assert x in multiset(rest);
      if x != e {
        assert x in multiset(s[1..]);
        var k :| 0 <= k < |s[1..]| && s[1..][k] == x;
        assert x == s[k + 1];
      }
    }
  }

  /** `sortedWith(compareBy({ !it.isDirectory }, { it.name }))`: a stable
      sort of the entries, directories first and by name within each group. */
  function SortEntries(es: seq<FileEntry>): (r: seq<FileEntry>)
    ensures SortedEntries(r)
    ensures multiset(r) == multiset(es)
  {
    if |es| == 0 then []
    else
      assert es == [es[0]] + es[1..];
      Insert(es[0], SortEntries(es[1..]))
  }

  /** The sorted listing holds the same entries, every directory comes
      before every file, and each group is ordered by name. */
  lemma ListingOrder(es: seq<FileEntry>)
    ensures var r := SortEntries(es);
            && multiset(r) == multiset(es)
            && (forall i, j | 0 <= i < j < |r| :: r[i].isDirectory || !r[j].isDirectory)
            && (forall i, j | 0 <= i < j < |r| && r[i].isDirectory == r[j].isDirectory :: NameLe(r[i].name, r[j].name))
  {
  }

  /** One line of the listing: `d ` for a directory, `- ` for anything else. */
  function Line(e: FileEntry): string {
    (if e.isDirectory then "d " else "- ") + e.name
  }

  function Lines(es: seq<FileEntry>): (lines: seq<string>)
    ensures |lines| == |es|
    ensures forall i | 0 <= i < |es| :: lines[i] == Line(es[i])
  {
    if |es| == 0 then [] else [Line(es[0])] + Lines(es[1..])
  }

  /** The text the `ls` tool returns for `path`, given what the file system
      says about it: an error naming the path, "Empty directory" for a null
      listing, or the listing, which is empty or starts with `d` or `-`. */
  function LsText(path: string, status: PathStatus): (text: string)
    ensures status.Missing? ==> StartsWith(text, "Error: ") && OccursAt(text, path, 18)
    ensures status.NotADirectory? ==> StartsWith(text, "Error: ") && OccursAt(text, path, 8)
    ensures status == Directory(None) ==> text == "Empty directory"
    ensures status.Directory? && status.listing.Some? ==> text == [] || text[0] in {'d', '-'}
  {
    match status
    case Missing =>
      var text := "Error: Directory '" + path + "' does not exist";
      assert text[..7] == "Error: " && text[18..18 + |path|] == path;
      text
    case NotADirectory =>
      var text := "Error: '" + path + "' is not a directory";
      assert text[..7] == "Error: " && text[8..8 + |path|] == path;
      text
    case Directory(None) => "Empty directory"
    case Directory(Some(entries)) =>
      ListingStart(entries);
      Join(Lines(SortEntries(entries)), "\n")
  }

  /** A listing is empty or starts with the first line's `d` or `-`. */
  lemma ListingStart(entries: seq<FileEntry>)
    ensures var listing := Join(Lines(SortEntries(entries)), "\n");
            listing == [] || listing[0] in {'d', '-'}
  {
    var lines := Lines(SortEntries(entries));
    if |lines| > 0 {
      assert lines[0] == Line(SortEntries(entries)[0]);
      if |lines| > 1 {
        assert Join(lines, "\n")[0] == lines[0][0];
      }
    }
  }

  /** The `ls` tool handler: the requested path resolved under the working
      directory, then the text for what the file system says about it. A
      missing path is reported by its resolved form, which starts with the
      working directory and ends with the normalised requested path; a
      listing does not depend on the path. */
  function LsTool(workingDirectory: string, pathArgument: Option<string>, status: PathStatus): (text: string)
    ensures status.Missing? ==>
              && StartsWith(text, "Error: Directory '" + NormalizePath(workingDirectory))
              && var tail := NormalizePath(RequestedPath(pathArgument)) + "' does not exist";
                 |text| >= |tail| && text[|text| - |tail|..] == tail
    ensures status.Directory? ==> text == LsText("", status)
  {
    var path := Resolve(workingDirectory, RequestedPath(pathArgument));
    MissingNamesResolvedPath(NormalizePath(workingDirectory), NormalizePath(RequestedPath(pathArgument)), path);
    LsText(path, status)
  }

  /** The missing-path answer for a path that starts with `wd` and ends with
      `child` starts with the first and, before its closing words, ends with
      the second. */
  lemma MissingNamesResolvedPath(wd: string, child: string, path: string)
    requires StartsWith(path, wd)
    requires |path| >= |child| && path[|path| - |child|..] == child
    ensures var text := LsText(path, Missing);
            && StartsWith(text, "Error: Directory '" + wd)
            && var tail := child + "' does not exist";
               |text| >= |tail| && text[|text| - |tail|..] == tail
  {
    var head := "Error: Directory '";
    var text := LsText(path, Missing);
    var tail := child + "' does not exist";
    assert text == head + path + "' does not exist";
    assert text[..|head| + |wd|] == head + path[..|wd|];
    assert text[|text| - |tail|..] == path[|path| - |child|..] + "' does not exist";
  }

  /** The missing-path and not-a-directory answers differ from each other,
      from "Empty directory", and from any listing. A directory with no
      entries lists as the empty text, not as "Empty directory" (that answer
      is kept for a null `listFiles()`). */
  lemma LsAnswersDistinct(path: string, entries: seq<FileEntry>)
    ensures LsText(path, Missing) != LsText(path, NotADirectory)
    ensures LsText(path, Missing) != LsText(path, Directory(None))
    ensures LsText(path, NotADirectory) != LsText(path, Directory(None))
    ensures LsText(path, Missing) != LsText(path, Directory(Some(entries)))
    ensures LsText(path, NotADirectory) != LsText(path, Directory(Some(entries)))
    ensures LsText(path, Directory(Some([]))) == ""
  {
    assert LsText(path, Missing)[7] == 'D';
    assert LsText(path, NotADirectory)[7] == '\'';
    assert LsText(path, Directory(None))[1] == 'm';
  }

  /** Read back line by line, a listing gives one line per entry in sorted
      order, `d ` or `- ` followed by the entry's name, as long as no name
      contains a newline. */
  lemma ListingReadsBack(path: string, entries: seq<FileEntry>)
    requires |entries| > 0
    requires forall i | 0 <= i < |entries| :: '\n' !in entries[i].name
    ensures var lines := Split(LsText(path, Directory(Some(entries))), '\n');
            var sorted := SortEntries(entries);
            && |lines| == |entries|
            && forall i | 0 <= i < |lines| ::
                 lines[i] == (if sorted[i].isDirectory then "d " else "- ") + sorted[i].name
  {
    var lines := Lines(SortEntries(entries));
    LinesWithoutNewline(entries);
    SplitJoin(lines, '\n');
  }

  /** Sorting keeps the names, so no line of the listing holds a newline
      when no name does. */
  lemma LinesWithoutNewline(entries: seq<FileEntry>)
    requires forall i | 0 <= i < |entries| :: '\n' !in entries[i].name
    ensures |Lines(SortEntries(entries))| == |entries|
    ensures forall i | 0 <= i < |entries| :: '\n' !in Lines(SortEntries(entries))[i]
  {
    var sorted := SortEntries(entries);
    assert |multiset(sorted)| == |entries|;
    forall i | 0 <= i < |sorted| ensures '\n' !in Line(sorted[i]) {
      assert sorted[i] in multiset(entries);
      var j :| 0 <= j < |entries| && entries[j] == sorted[i];
    }
  }
}
