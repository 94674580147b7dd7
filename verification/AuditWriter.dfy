/** Required audit logging: the handler writes into a staged response, and only after the operation was recorded does
    the real response go out, or an internal error in its place. */
module AuditWriter {
  import opened Common

  type byte = bv8
  type Header = map<string, seq<string>>

  const MAX_STAGED: nat := 0x10_0000
  const STATUS_OK: int := 200
  const STATUS_BAD_REQUEST: int := 400
  const STATUS_ERROR: int := 500

  /** What a handler can do with its response writer. */
  datatype Event =
    | SetHeader(key: string, values: seq<string>)
    | DeleteHeader(key: string)
    | WriteHeader(status: int)
    | WriteHeaderNow
    | Write(data: seq<byte>)
    | Flush

  function EditHeader(h: Header, e: Event): Header {
    match e
    case SetHeader(k, v) => h[k := v]
    case DeleteHeader(k) => h - {k}
    case _ => h
  }

  // ---------- a direct writer ----------

  /** The connection: header and status until the head is sent, then what was sent. */
  datatype Connection = Connection(header: Header, status: int, sent: Option<(Header, int)>, body: seq<byte>, flushed: bool)

  function SendHead(d: Connection): Connection {
    if d.sent.Some? then d else d.(sent := Some((d.header, d.status)))
  }

  function Direct(d: Connection, e: Event): Connection {
    match e
    case SetHeader(_, _) => d.(header := EditHeader(d.header, e))
    case DeleteHeader(_) => d.(header := EditHeader(d.header, e))
    case WriteHeader(status) => if status > 0 && d.sent.None? then d.(status := status) else d
    case WriteHeaderNow => SendHead(d)
    case Write(data) => SendHead(d).(body := d.body + data)
    case Flush => SendHead(d).(flushed := true)
  }

  function DirectAll(d: Connection, events: seq<Event>): Connection {
    if events == [] then d else Direct(DirectAll(d, events[..|events| - 1]), events[|events| - 1])
  }

  /** What the client gets once the handler has returned; the server sends a head that is still pending. */
  datatype Received = Received(header: Header, status: int, body: seq<byte>, flushed: bool)

  function Receive(d: Connection): Received {
    var (header, status) := SendHead(d).sent.value;
    Received(header, status, d.body, d.flushed)
  }

  /** A connection nothing has been written to yet. */
  predicate Untouched(d: Connection) {
    d.sent.None? && d.body == [] && !d.flushed && d.status > 0
  }

  function AllData(events: seq<Event>): seq<byte> {
    if events == [] then []
    else AllData(events[..|events| - 1]) + (if events[|events| - 1].Write? then events[|events| - 1].data else [])
  }

  predicate Wrote(events: seq<Event>) {
    exists i :: 0 <= i < |events| && Writes(events[i])
  }

  // ---------- the staged writer ----------

  datatype Staged = Staged(header: Header, sealedHeader: Option<Header>, body: seq<byte>, status: int, size: int,
                           written: bool, flushed: bool, overflowed: bool, sealed: bool)

  function Stage(d: Connection): Staged {
    Staged(d.header, None, [], if d.status > 0 then d.status else STATUS_OK, -1, false, false, false, false)
  }

  function StageHead(w: Staged): Staged {
    if w.sealed || w.written then w else w.(written := true, size := 0, sealedHeader := Some(w.header))
  }

  function StageWrite(w: Staged, data: seq<byte>): Staged {
    if w.sealed then w
    else
      var h := StageHead(w);
      var sized := h.(size := h.size + |data|);
      if w.overflowed || data == [] then sized
      else if |data| > MAX_STAGED - |w.body| then
        sized.(body := if MAX_STAGED - |w.body| > 0 then w.body + data[..MAX_STAGED - |w.body|] else w.body, overflowed := true)
      else sized.(body := w.body + data)
  }

  function StageEvent(w: Staged, e: Event): Staged {
    if w.sealed then w
    else
      match e
      case SetHeader(_, _) => w.(header := EditHeader(w.header, e))
      case DeleteHeader(_) => w.(header := EditHeader(w.header, e))
      case WriteHeader(status) => if w.written || status <= 0 then w else w.(status := status)
      case WriteHeaderNow => StageHead(w)
      case Write(data) => StageWrite(w, data)
      case Flush => StageHead(w).(flushed := true)
  }

  function StageAll(w: Staged, events: seq<Event>): Staged {
    if events == [] then w else StageEvent(StageAll(w, events[..|events| - 1]), events[|events| - 1])
  }

  function Seal(w: Staged): Staged {
    if w.sealed then w else w.(sealedHeader := if w.sealedHeader.Some? then w.sealedHeader else Some(w.header), sealed := true)
  }

  function Release(w: Staged, d: Connection): Connection {
    var header := if w.sealedHeader.Some? then w.sealedHeader.value else w.header;
    var headed := Direct(d.(header := header), WriteHeader(w.status));
    var written := if |w.body| > 0 then Direct(headed, Write(w.body)) else if w.written then SendHead(headed) else headed;
    if w.flushed then Direct(written, Flush) else written
  }

  // ---------- what the staged writer holds ----------

  function FirstMax(data: seq<byte>): seq<byte> {
    if |data| <= MAX_STAGED then data else data[..MAX_STAGED]
  }

  /** After any events: the staged body is the first MiB of everything written, the overflow mark says whether there was
      more, and the size counts all of it. */
  lemma {:induction false} StagedHoldsTheFirstMiB(d: Connection, events: seq<Event>)
    ensures HoldsFirst(StageAll(Stage(d), events), AllData(events), Wrote(events))
  {
    if events != [] {
      var n := |events| - 1;
      StagedHoldsTheFirstMiB(d, events[..n]);
      WroteStep(events);
      HoldsStep(StageAll(Stage(d), events[..n]), events[n], AllData(events[..n]), Wrote(events[..n]));
    }
  }

  ghost predicate HoldsFirst(w: Staged, data: seq<byte>, wrote: bool) {
    && !w.sealed && w.body == FirstMax(data) && (w.overflowed <==> |data| > MAX_STAGED)
    && (w.written <==> wrote) && w.size == (if w.written then |data| else -1)
    && (!w.written ==> data == [] && !w.flushed) && (w.sealedHeader.Some? <==> w.written)
  }

  predicate Writes(e: Event) {
    e.Write? || e.Flush? || e.WriteHeaderNow?
  }

  lemma WroteStep(events: seq<Event>)
    requires events != []
    ensures Wrote(events) <==> Wrote(events[..|events| - 1]) || Writes(events[|events| - 1])
  {
    var n := |events| - 1;
    if Wrote(events[..n]) {
      var i :| 0 <= i < n && Writes(events[..n][i]);
      assert Writes(events[i]);
    }
    if Wrote(events) {
      var i :| 0 <= i < |events| && Writes(events[i]);
      if i < n { assert Writes(events[..n][i]); }
    }
  }

  lemma HoldsStep(w: Staged, e: Event, data: seq<byte>, wrote: bool)
    requires HoldsFirst(w, data, wrote)
    ensures HoldsFirst(StageEvent(w, e), data + (if e.Write? then e.data else []), wrote || Writes(e))
  {
    if e.Write? {
      WriteStep(w, e.data, data, wrote);
    } else {
      assert data + [] == data;
    }
  }

  lemma WriteStep(w: Staged, more: seq<byte>, data: seq<byte>, wrote: bool)
    requires HoldsFirst(w, data, wrote)
    ensures HoldsFirst(StageWrite(w, more), data + more, true)
  {
    if more == [] { assert data + more == data; }
    assert |data| > MAX_STAGED ==> FirstMax(data + more) == FirstMax(data);
    assert |data| <= MAX_STAGED < |data + more| ==> FirstMax(data + more) == data + more[..MAX_STAGED - |data|];
  }

  /** The staged and the direct writer side by side. */
  ghost predicate Alike(w: Staged, d: Connection, events: seq<Event>) {
    && w.header == d.header && w.status == d.status && w.status > 0 && w.flushed == d.flushed && d.body == AllData(events)
    && (w.written <==> d.sent.Some?) && (d.sent.Some? ==> w.sealedHeader == Some(d.sent.value.0) && w.status == d.sent.value.1)
  }

  lemma {:induction false} WritersAgree(d: Connection, events: seq<Event>)
    requires Untouched(d)
    ensures Alike(StageAll(Stage(d), events), DirectAll(d, events), events)
  {
    if events != [] {
      StagedHoldsTheFirstMiB(d, events[..|events| - 1]);
      WritersAgree(d, events[..|events| - 1]);
    }
  }

  /** Releasing what was staged gives the client exactly what a direct writer would have given, unless more than a MiB was
      written. */
  lemma ReleaseEqualsDirect(d: Connection, events: seq<Event>)
    requires Untouched(d)
    ensures var w := Seal(StageAll(Stage(d), events));
            !w.overflowed ==> Receive(Release(w, d)) == Receive(DirectAll(d, events))
  {
    StagedHoldsTheFirstMiB(d, events);
    WritersAgree(d, events);
    if !StageAll(Stage(d), events).overflowed { ReleaseAlike(StageAll(Stage(d), events), d, DirectAll(d, events), events); }
  }

  lemma ReleaseAlike(w: Staged, d: Connection, direct: Connection, events: seq<Event>)
    requires Untouched(d) && Alike(w, direct, events) && w.body == direct.body && !w.sealed && w.status > 0
    requires !w.written ==> w.body == [] && !w.flushed && w.sealedHeader.None?
    ensures Receive(Release(Seal(w), d)) == Receive(direct)
  {
    var header := if w.written then w.sealedHeader.value else w.header;
    var headed := d.(header := header, status := w.status);
    assert Direct(d.(header := header), WriteHeader(w.status)) == headed;
    if |w.body| > 0 {
      assert Direct(headed, Write(w.body)).body == w.body;
    }
  }

  lemma {:induction false} SealedIsFrozen(w: Staged, events: seq<Event>)
    requires w.sealed
    ensures StageAll(w, events) == w
  {
    if events != [] { SealedIsFrozen(w, events[..|events| - 1]); }
  }

  // ---------- the writer object ----------

  class RequiredAuditWriter {
    var header: Header
    var sealedHeader: Option<Header>
    var body: seq<byte>
    var status: int
    var size: int
    var written: bool
    var flushed: bool
    var overflowed: bool
    var sealed: bool

    function State(): Staged
      reads this
    {
      Staged(header, sealedHeader, body, status, size, written, flushed, overflowed, sealed)
    }

    constructor (d: Connection)
      ensures State() == Stage(d)
    {
      header, sealedHeader, body := d.header, None, [];
      status, size := if d.status > 0 then d.status else STATUS_OK, -1;
      written, flushed, overflowed, sealed := false, false, false, false;
    }

    method WriteHeaderNow()
      modifies this
      ensures State() == StageHead(old(State()))
    {
      if sealed || written { return; }
      written, size, sealedHeader := true, 0, Some(header);
    }

    method Write(data: seq<byte>) returns (n: nat, failed: bool)
      modifies this
      ensures State() == StageWrite(old(State()), data)
      ensures failed <==> old(sealed)
      ensures n == if failed then 0 else |data|
    {
      if sealed { return 0, true; }
      WriteHeaderNow();
      size := size + |data|;
      if overflowed || data == [] { return |data|, false; }
      var remaining := MAX_STAGED - |body|;
      if |data| > remaining {
        if remaining > 0 { body := body + data[..remaining]; }
        overflowed := true;
        return |data|, false;
      }
      body := body + data;
      return |data|, false;
    }

    method Handle(e: Event)
      modifies this
      ensures State() == StageEvent(old(State()), e)
    {
      match e {
        case SetHeader(_, _) => if !sealed { header := EditHeader(header, e); }
        case DeleteHeader(_) => if !sealed { header := EditHeader(header, e); }
        case WriteHeader(code) => if !sealed && !written && code > 0 { status := code; }
        case WriteHeaderNow => WriteHeaderNow();
        case Write(data) => var _, _ := Write(data);
        case Flush => if !sealed { WriteHeaderNow(); flushed := true; }
      }
    }

    method HandleAll(events: seq<Event>)
      modifies this
      ensures State() == StageAll(old(State()), events)
    {
      var i := 0;
      ghost var start := State();
      while i < |events|
        invariant i <= |events| && State() == StageAll(start, events[..i])
      {
        assert events[..i + 1][..i] == events[..i];
        Handle(events[i]);
        i := i + 1;
      }
      assert events[..i] == events;
    }

    method SealResponse()
      modifies this
      ensures State() == Seal(old(State()))
    {
      if sealed { return; }
      if sealedHeader.None? { sealedHeader := Some(header); }
      sealed := true;
    }
  }

  // ---------- the middleware ----------

  datatype RecorderResult = Recorded | RecorderFailed | RecorderPanicked

  /** What the recorder is told about the operation; the response body when there is one to report. */
  datatype Report = Report(status: int, success: bool, response: Option<seq<byte>>)

  /** A call of the recorder, with the client's connection as it was at that moment. */
  datatype Call = Call(report: Report, connection: Connection)

  class Client {
    var connection: Connection

    constructor (d: Connection)
      ensures connection == d
    {
      connection := d;
    }
  }

  class Recorder {
    var calls: seq<Call>

    constructor ()
      ensures calls == []
    {
      calls := [];
    }

    /** A panic of the recorder is caught and counts as a failure. */
    method Record(report: Report, client: Client, answer: RecorderResult) returns (failed: bool)
      modifies this
      ensures calls == old(calls) + [Call(report, client.connection)]
      ensures failed <==> answer != Recorded
    {
      calls := calls + [Call(report, client.connection)];
      failed := answer != Recorded;
    }
  }

  const DROPPED: set<string> := {"Content-Encoding", "Content-Length", "Content-Type", "Etag", "Last-Modified", "Location"}

  /** The internal error the client gets instead of the response; the JSON writer sets its own content type. */
  function InternalFailure(d: Connection, payload: seq<byte>): Connection {
    var header := (d.header - DROPPED)["Cache-Control" := ["no-store, private"]]["Pragma" := ["no-cache"]];
    var typed := header["Content-Type" := ["application/json; charset=utf-8"]];
    Direct(Direct(d.(header := typed), WriteHeader(STATUS_ERROR)), Write(payload))
  }

  ghost predicate OnlyInternalError(d: Connection, d': Connection, payload: seq<byte>) {
    var r := Receive(d');
    && r.status == STATUS_ERROR && r.body == payload
    && (forall k :: k in r.header && k !in {"Cache-Control", "Pragma", "Content-Type"} ==> k in d.header && r.header[k] == d.header[k])
    && (forall k :: k in {"Content-Encoding", "Content-Length", "Etag", "Last-Modified", "Location"} ==> k !in r.header)
    && "Cache-Control" in r.header && r.header["Cache-Control"] == ["no-store, private"]
    && "Pragma" in r.header && r.header["Pragma"] == ["no-cache"]
    && "Content-Type" in r.header && r.header["Content-Type"] == ["application/json; charset=utf-8"]
  }

  ghost predicate Delivered(d: Connection, final: Connection, events: seq<Event>, refused: bool, payload: seq<byte>) {
    if refused then OnlyInternalError(d, final, payload) else Receive(final) == Receive(DirectAll(d, events))
  }

  /** Answers with the internal error instead of what was staged. */
  method Withhold(client: Client, payload: seq<byte>)
    requires Untouched(client.connection)
    modifies client
    ensures client.connection == InternalFailure(old(client.connection), payload)
    ensures OnlyInternalError(old(client.connection), client.connection, payload)
  {
    client.connection := InternalFailure(client.connection, payload);
  }

  /** One required operation with a recorder. The handler issues `events` and may then panic; `late` is what it still tries
      afterwards, from a goroutine it left behind. The recorder is called exactly once, before anything reaches the client;
      the client then gets the response a direct writer would have sent, or only the internal error. */
  method RunRequired(client: Client, recorder: Recorder, events: seq<Event>, panics: bool, late: seq<Event>,
                     answer: RecorderResult, skipResponse: bool, payload: seq<byte>)
    requires Untouched(client.connection)
    modifies client, recorder
    ensures var overflow := |AllData(events)| > MAX_STAGED;
            && Delivered(old(client.connection), client.connection, events, panics || overflow || answer != Recorded, payload)
            && |recorder.calls| == |old(recorder.calls)| + 1
            && recorder.calls[..|old(recorder.calls)|] == old(recorder.calls)
            && var call := recorder.calls[|old(recorder.calls)|];
               && call.connection == old(client.connection)
               && if panics || overflow then call.report == Report(STATUS_ERROR, false, None)
                  else
                    var direct := Receive(DirectAll(old(client.connection), events));
                    call.report == Report(direct.status, direct.status < STATUS_BAD_REQUEST,
                                          if skipResponse then None else Some(direct.body))
  {
    ghost var d := client.connection;
    var staged := new RequiredAuditWriter(client.connection);
    staged.HandleAll(events);
    staged.SealResponse();
    StagedHoldsTheFirstMiB(d, events);
    WritersAgree(d, events);
    ReleaseEqualsDirect(d, events);
    SealedIsFrozen(staged.State(), late);
    staged.HandleAll(late);
    if panics {
      var _ := recorder.Record(Report(STATUS_ERROR, false, None), client, answer);
      Withhold(client, payload);
      return;
    }
    var report := Report(staged.status, staged.status < STATUS_BAD_REQUEST,
                         if skipResponse || staged.overflowed then None else Some(staged.body));
    if staged.overflowed { report := Report(STATUS_ERROR, false, None); }
    var failed := recorder.Record(report, client, answer);
    if failed || staged.overflowed {
      Withhold(client, payload);
      return;
    }
    client.connection := Release(staged.State(), client.connection);
  }

  /** What is withheld is withheld whole: more than a MiB is never delivered in part. */
  lemma OverflowIsRefused(d: Connection, events: seq<Event>, payload: seq<byte>)
    requires Untouched(d)
    ensures OnlyInternalError(d, InternalFailure(d, payload), payload)
    ensures |AllData(events)| > MAX_STAGED ==> StageAll(Stage(d), events).overflowed && |StageAll(Stage(d), events).body| == MAX_STAGED
  {
    StagedHoldsTheFirstMiB(d, events);
  }
}
