/** The key/value store of the server: a line-framed request/response protocol over one hijacked
    connection. Requests and responses travel as bytes; how the network cuts them into chunks and
    when server and client run is left open. */
module Kv {
  import opened Text

  datatype Request = Get(key: string) | Set(key: string, value: string) | Del(key: string)

  /** An empty `error` means success. */
  datatype Response = Response(error: string, value: string)

  /** The JSON encoding of both message types, one line each. A JSON object that was cut off is none. */
  datatype Wire = Wire(
    encodeRequest: Request -> string, decodeRequest: string -> Option<Request>,
    encodeResponse: Response -> string, decodeResponse: string -> Option<Response>)

  ghost predicate Lawful(wire: Wire) {
    && (forall r :: wire.decodeRequest(wire.encodeRequest(r)) == Some(r) && '\n' !in wire.encodeRequest(r))
    && (forall r, n | 0 <= n < |wire.encodeRequest(r)| :: wire.decodeRequest(wire.encodeRequest(r)[..n]).None?)
    && (forall r :: wire.decodeResponse(wire.encodeResponse(r)) == Some(r) && '\n' !in wire.encodeResponse(r))
  }

  type Table = map<string, string>

  function Lookup(table: Table, key: string): string {
    if key in table then table[key] else ""
  }

  /** What a successful request does to the `secrets` table. */
  function Apply(table: Table, request: Request): Table {
    match request
    case Get(_) => table
    case Set(k, v) => table[k := v]
    case Del(k) => table - {k}
  }

  function Answer(table: Table, request: Request): Response {
    if request.Get? then Response("", Lookup(table, request.key)) else Response("", "")
  }

  datatype Exchange = Exchange(request: Request, response: Response)

  /** The table after a history of exchanges; a request answered with an error changed nothing. */
  function Replay(start: Table, history: seq<Exchange>): Table {
    if history == [] then start
    else
      var before, last := Replay(start, history[..|history| - 1]), history[|history| - 1];
      if last.response.error != "" then before else Apply(before, last.request)
  }

  /** Every response is an error or the answer to the request sent with the same number. */
  ghost predicate Lockstep(start: Table, history: seq<Exchange>) {
    forall k | 0 <= k < |history| ::
      || history[k].response.error != ""
      || history[k].response == Answer(Replay(start, history[..k]), history[k].request)
  }

  /** A connection: the server's table and scanner on one side, the client on the other. */
  class KvClient {
    const wire: Wire
    ghost const start: Table
    var table: Table
    var toServer: string      // written by the client, not yet read by the server
    var serverBuffer: string  // read by the server's scanner, not yet a handled line
    var toClient: string      // written by the server, not yet read from the pipe
    var open: bool            // false once the connection broke during a call
    ghost var history: seq<Exchange>
    /** Counts broken connections, calls on one, and requests the database refused. */
    ghost var faults: nat

    /** Between two calls nothing is in flight, so a scanner made for the next call misses nothing. */
    ghost predicate Valid()
      reads this
    {
      && Lawful(wire)
      && (open ==> toServer == "" && serverBuffer == "" && toClient == "" && table == Replay(start, history))
      && Lockstep(start, history)
    }

    constructor (wire: Wire, table: Table)
      requires Lawful(wire)
      ensures Valid() && this.table == table && this.wire == wire && start == table && history == []
      ensures open && faults == 0
    {
      this.wire, this.table, start := wire, table, table;
      toServer, serverBuffer, toClient, history, open, faults := "", "", "", [], true, 0;
    }

    /** One line of the server's loop: parse, execute, answer. The database may refuse. */
    method Serve(line: string) returns (ghost response: Response)
      requires Lawful(wire)
      modifies this`table, this`toClient, this`faults
      ensures faults >= old(faults)
      ensures wire.decodeRequest(line).Some? ==> (response.error == "" <==> faults == old(faults))
      ensures toClient == old(toClient) + wire.encodeResponse(response) + "\n"
      ensures wire.decodeRequest(line).None? ==> table == old(table) && response.error != ""
      ensures forall request | wire.decodeRequest(line) == Some(request) ::
                if response.error != "" then table == old(table)
                else table == Apply(old(table), request) && response == Answer(old(table), request)
    {
      var reply: Response;
      match wire.decodeRequest(line) {
        case None =>
          reply := Response("invalid request", "");
        case Some(request) =>
          var refused := *;
          if refused {
            var message: string := *;
            reply := Response("error: " + message, "");
            faults := faults + 1;
          } else {
            reply := Answer(table, request);
            table := Apply(table, request);
          }
      }
      toClient := toClient + wire.encodeResponse(reply) + "\n";
      response := reply;
    }

    /** The connection breaks after `arrived` characters of the request line have reached the server,
        which takes what it has got for its last line; nobody reads its answer. */
    method Hangup(ghost request: Request, line: string, arrived: nat)
      requires Lawful(wire) && line == wire.encodeRequest(request) && arrived <= |line|
      modifies this`table, this`toServer, this`serverBuffer, this`toClient, this`open, this`faults
      ensures faults > old(faults)
      ensures !open && (table == old(table) || (arrived == |line| && table == Apply(old(table), request)))
    {
      open, faults := false, faults + 1;
      toServer, serverBuffer, toClient := "", "", "";
      assert line[..|line|] == line;
      assert arrived < |line| ==> wire.decodeRequest(line[..arrived]).None?;
      var handled := *;
      if handled && arrived > 0 {
        ghost var response := Serve(line[..arrived]);
      }
    }

    /** The one request line on its way to the server, or the one response line on its way back. */
    ghost predicate InFlight(line: string, reply: Option<string>, buffer: string)
      reads this
    {
      match reply
      case None => serverBuffer + toServer == line + ['\n'] && toClient == "" && buffer == ""
      case Some(text) => serverBuffer == "" && toServer == "" && buffer + toClient == text + ['\n']
    }

    /** What is known about the response: the table is as it was, or the request has been executed. */
    ghost predicate Answered(reply: Option<string>, response: Response, was: Table, request: Request)
      reads this
    {
      match reply
      case None => table == was
      case Some(text) =>
        && text == wire.encodeResponse(response)
        && if response.error != "" then table == was
           else table == Apply(was, request) && response == Answer(was, request)
    }

    /** Server, network or scanner make their next move, whichever is possible. */
    method Turn(ghost request: Request, line: string, ghost reply: Option<string>, buffer: string,
                ghost response: Response, ghost was: Table)
        returns (ghost nextReply: Option<string>, nextBuffer: string, ghost nextResponse: Response)
      requires Lawful(wire) && line == wire.encodeRequest(request) && '\n' !in buffer
      requires InFlight(line, reply, buffer) && Answered(reply, response, was, request)
      modifies this`table, this`toServer, this`serverBuffer, this`toClient, this`faults
      ensures faults >= old(faults) && (nextReply == reply ==> nextResponse == response && faults == old(faults))
      ensures nextReply != reply ==> (nextResponse.error == "" <==> faults == old(faults))
      ensures InFlight(line, nextReply, nextBuffer) && Answered(nextReply, nextResponse, was, request)
      ensures (reply.None? && nextReply.Some?) ||
              (nextReply == reply && |toServer| + |toClient| < old(|toServer| + |toClient|))
    {
      hide Apply, Answer;
      nextReply, nextBuffer, nextResponse := reply, buffer, response;
      SomethingMoves(line, serverBuffer, toServer);
      if reply.Some? {
        SomethingMoves(reply.value, buffer, toClient);
      }
      if
      case toServer != "" =>
        var n :| 1 <= n <= |toServer|;
        ChunkMoves(serverBuffer, toServer, n);
        serverBuffer, toServer := serverBuffer + toServer[..n], toServer[n..];
      case '\n' in serverBuffer =>
        nextResponse := TakeRequest(request, line);
        nextReply := Some(wire.encodeResponse(nextResponse));
      case toClient != "" =>
        var n :| 1 <= n <= |toClient|;
        ChunkMoves(buffer, toClient, n);
        nextBuffer, toClient := buffer + toClient[..n], toClient[n..];
    }

    /** The server's scanner has a whole line: it is the request. */
    method TakeRequest(ghost request: Request, line: string) returns (ghost response: Response)
      requires Lawful(wire) && line == wire.encodeRequest(request)
      requires '\n' in serverBuffer && InFlight(line, None, "")
      modifies this`table, this`serverBuffer, this`toClient, this`faults
      ensures faults >= old(faults) && (response.error == "" <==> faults == old(faults))
      ensures InFlight(line, Some(wire.encodeResponse(response)), "")
      ensures Answered(Some(wire.encodeResponse(response)), response, old(table), request)
    {
      hide Apply, Answer;
      LineIsTheRequest(line, serverBuffer, toServer);
      var parts := SplitFirst(serverBuffer, '\n').value;
      serverBuffer := parts.1;
      response := Serve(parts.0);
    }

    /** Scans one line with a fresh scanner, while server and network run in any interleaving. Some
        step is always possible, at most one response is under way, and the scanner is left with
        nothing it would throw away. When the connection breaks half way the request may or may not
        have been executed. */
    method Scan(ghost request: Request) returns (scanned: Option<string>, ghost response: Response)
      requires Lawful(wire) && open
      requires serverBuffer == "" && toClient == "" && toServer == wire.encodeRequest(request) + ['\n']
      modifies this`table, this`toServer, this`serverBuffer, this`toClient, this`open, this`faults
      ensures faults >= old(faults) && (scanned.Some? && response.error == "" <==> faults == old(faults))
      ensures scanned.None? ==> !open && (table == old(table) || table == Apply(old(table), request))
      ensures scanned.Some? ==> open && scanned.value == wire.encodeResponse(response)
      ensures scanned.Some? ==> toServer == "" && serverBuffer == "" && toClient == ""
      ensures scanned.Some? && response.error != "" ==> table == old(table)
      ensures scanned.Some? && response.error == "" ==>
                table == Apply(old(table), request) && response == Answer(old(table), request)
    {
      hide Apply, Answer;
      var line := toServer[..|toServer| - 1];
      ghost var reply := None;
      response := Response("", "");
      var buffer := "";
      assert serverBuffer + toServer == toServer;
      while '\n' !in buffer
        invariant open && InFlight(line, reply, buffer) && Answered(reply, response, old(table), request)
        invariant faults >= old(faults) && (reply.None? ==> faults == old(faults))
        invariant reply.Some? ==> (response.error == "" <==> faults == old(faults))
        decreases reply.None?, |toServer| + |toClient|
      {
        var connectionLost := *;
        if connectionLost {
          if buffer + toClient == "" {
            var arrived :| 0 <= arrived <= |line|;
            Hangup(request, line, arrived);
          } else {
            open, faults := false, faults + 1;
          }
          return None, response;
        }
        reply, buffer, response := Turn(request, line, reply, buffer, response, old(table));
      }
      LineIsTheRequest(reply.value, buffer, toClient);
      scanned := Some(SplitFirst(buffer, '\n').value.0);
    }

    /** One call of the client: write the request, scan and decode the response. */
    method RoundTrip(request: Request) returns (reply: Option<Response>)
      requires Valid()
      modifies this
      ensures Valid()
      ensures faults >= old(faults) && (reply.Some? && reply.value.error == "" <==> faults == old(faults))
      ensures reply.None? ==> history == old(history)
      ensures reply.None? ==> table == old(table) || (table == Apply(old(table), request) && !open)
      ensures reply.Some? ==> history == old(history) + [Exchange(request, reply.value)]
      ensures reply.Some? && reply.value.error != "" ==> table == old(table)
      ensures reply.Some? && reply.value.error == "" ==>
                table == Apply(old(table), request) && reply.value == Answer(old(table), request)
    {
      if !open {
        faults := faults + 1;
        return None;
      }
      var line := wire.encodeRequest(request);
      var writeFailed := *;
      if writeFailed {
        var arrived :| 0 <= arrived <= |line|;
        Hangup(request, line, arrived);
        return None;
      }
      toServer := line + "\n";
      var scanned;
      ghost var response;
      scanned, response := Scan(request);
      if scanned.None? {
        return None;
      }
      reply := wire.decodeResponse(scanned.value);
      HistoryGrows(start, history, Exchange(request, response));
      history := history + [Exchange(request, response)];
    }

    method Get(key: string) returns (value: Option<string>)
      requires Valid()
      modifies this
      ensures Valid() && table == old(table)
      ensures faults >= old(faults) && (value.Some? <==> faults == old(faults))
      ensures value.Some? ==> value.value == Lookup(table, key)
    {
      var reply := RoundTrip(Request.Get(key));
      value := if reply.None? || reply.value.error != "" then None else Some(reply.value.value);
    }

    method Set(key: string, value: string) returns (ok: bool)
      requires Valid()
      modifies this
      ensures Valid() && faults >= old(faults) && (ok <==> faults == old(faults))
      ensures ok ==> table == old(table)[key := value]
      ensures !ok ==> table == old(table) || (table == old(table)[key := value] && !open)
    {
      var reply := RoundTrip(Request.Set(key, value));
      ok := reply.Some? && reply.value.error == "";
    }

    method Delete(key: string) returns (ok: bool)
      requires Valid()
      modifies this
      ensures Valid() && faults >= old(faults) && (ok <==> faults == old(faults))
      ensures ok ==> table == old(table) - {key}
      ensures !ok ==> table == old(table) || (table == old(table) - {key} && !open)
    {
      var reply := RoundTrip(Request.Del(key));
      ok := reply.Some? && reply.value.error == "";
    }
  }

  lemma SomethingMoves(line: string, read: string, unread: string)
    ensures read + unread == line + ['\n'] && unread == "" ==> '\n' in read
  {
    if read + unread == line + ['\n'] && unread == "" {
      assert read == line + ['\n'];
      assert read[|line|] == '\n';
    }
  }

  lemma ChunkMoves(read: string, unread: string, n: nat)
    requires n <= |unread|
    ensures (read + unread[..n]) + unread[n..] == read + unread
  {
  }

  lemma HistoryGrows(start: Table, history: seq<Exchange>, e: Exchange)
    requires Lockstep(start, history)
    requires e.response.error != "" || e.response == Answer(Replay(start, history), e.request)
    ensures Lockstep(start, history + [e])
    ensures Replay(start, history + [e]) ==
            if e.response.error != "" then Replay(start, history) else Apply(Replay(start, history), e.request)
  {
    var longer := history + [e];
    assert longer[..|history|] == history;
    forall k | 0 <= k < |history| ensures longer[..k] == history[..k] && longer[k] == history[k] {
    }
  }

  /** As soon as a scanner sees a newline it holds exactly the one line in flight. */
  lemma {:induction false} LineIsTheRequest(line: string, buffer: string, rest: string)
    requires '\n' !in line && buffer + rest == line + ['\n'] && '\n' in buffer
    ensures rest == "" && SplitFirst(buffer, '\n') == Some((line, ""))
  {
    var n :| 0 <= n < |buffer| && buffer[n] == '\n';
    assert (line + ['\n'])[n] == '\n';
    assert n == |line|;
    assert buffer == line + ['\n'] + "";
    SplitJoined(line, "", '\n');
  }

  /** The last accepted write to a key, by a plain search from the end of the history. */
  function LastWrite(start: Table, history: seq<Exchange>, key: string): string {
    if history == [] then Lookup(start, key)
    else
      var last := history[|history| - 1];
      if last.response.error == "" && last.request == Del(key) then ""
      else if last.response.error == "" && last.request.Set? && last.request.key == key then last.request.value
      else LastWrite(start, history[..|history| - 1], key)
  }

  lemma {:induction false} ReplayIsLastWrite(start: Table, history: seq<Exchange>, key: string)
    ensures Lookup(Replay(start, history), key) == LastWrite(start, history, key)
  {
    if history != [] {
      ReplayIsLastWrite(start, history[..|history| - 1], key);
    }
  }

  /** Every accepted `get` of a connection returned the last value accepted before it, and the
      empty string when there was none: the store is a total string map. */
  lemma {:induction false} GetsReadTheLastWrite(start: Table, history: seq<Exchange>, k: nat)
    requires Lockstep(start, history) && k < |history|
    requires history[k].request.Get? && history[k].response.error == ""
    ensures history[k].response.value == LastWrite(start, history[..k], history[k].request.key)
  {
    ReplayIsLastWrite(start, history[..k], history[k].request.key);
  }
}
