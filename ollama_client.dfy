/**
 * The upstream stream producer and health probe of the .NET relay (OllamaClient).
 *
 * The generation endpoint answers with a newline-delimited JSON body. Here the body
 * is a sequence of lines already classified by the JSON deserializer, the network
 * exchange is a `Reply` value, and the caller's cancellation token is a point in the
 * read sequence after which the token reads as set.
 *
 * The producer is a lazy generator (`IAsyncEnumerable<string>`). Its suspended state
 * is a `Cursor`; `MoveNext` resumes the read loop until the next fragment, the end, or
 * an exception, exactly as one `MoveNextAsync` of the generated enumerator does.
 */
module OllamaClient {
  import opened Base

  const DefaultModel := "mistral"
  const ConnectFailureMessage := "Unable to connect to Ollama. Please ensure Ollama is running and accessible."
  const TimeoutMessage := "Ollama request timed out. The model might be loading or overloaded."

  /** The generation request body; the float sampling options (temperature, top-p) are not modelled. */
  datatype GenerateRequest = GenerateRequest(model: string, prompt: string, stream: bool, topK: int)

  /** The request `StreamChatAsync` sends for a prompt and model. */
  function BuildRequest(prompt: string, model: string): (r: GenerateRequest)
    ensures r.prompt == prompt && r.model == model
    ensures r.stream && r.topK == 40
  {
    GenerateRequest(model, prompt, true, 40)
  }

  /**
   * One line of the upstream body as the deserializer sees it: null, empty or white
   * space; not parseable as JSON; or a parsed record with its optional `response`
   * text and its `done` flag (other fields are ignored).
   */
  datatype Line = Blank | Malformed | Record(response: Option<string>, done: bool)

  /**
   * A failure raised inside the exchange: an `HttpRequestException` (refused, reset,
   * DNS); a `TaskCanceledException` whose inner exception is a `TimeoutException`;
   * a `TaskCanceledException` caused by the caller's token; anything else.
   */
  datatype Fault = ConnectFailure | TimedOut | TokenCancelled | Unexpected

  /** How the body ends once its lines are used up: cleanly, or by a failing read. */
  datatype BodyEnd = EndOfStream | BrokenBy(fault: Fault)

  /** What sending the generation request yields. */
  datatype Reply =
    | Unreachable(fault: Fault)
    | Answered(success: bool, body: seq<Line>, end: BodyEnd)

  /** The caller's token: never set, or set once `count` lines of the body have been read. */
  datatype Cancellation = NotRequested | AfterReads(count: nat)

  /** `IsCancellationRequested` at a point where `consumed` lines have been read. */
  predicate Requested(c: Cancellation, consumed: nat) {
    c.AfterReads? && c.count <= consumed
  }

  /** The exceptions a consumer of the producer can observe. */
  datatype Exception =
    | InvalidOperation(message: string)
    | Timeout(message: string)
    | OperationCanceled
    | Unclassified

  /**
   * The producer's catch clauses: a connection failure becomes an
   * `InvalidOperationException` and a timeout a `TimeoutException`, each with a fixed
   * message; a cancellation and anything else propagate unchanged.
   */
  function Surface(f: Fault): Exception {
    match f
    case ConnectFailure => InvalidOperation(ConnectFailureMessage)
    case TimedOut => Timeout(TimeoutMessage)
    case TokenCancelled => OperationCanceled
    case Unexpected => Unclassified
  }

  /**
   * The suspended generator: not started, reading with `consumed` lines read, or
   * finished (after the end, an exception, or the yield of a `done` record).
   */
  datatype Cursor = Fresh | Reading(consumed: nat) | Done(consumed: nat)

  /** The outcome of one `MoveNextAsync`. */
  datatype Step = Yielded(fragment: string) | Ended | Threw(error: Exception)

  predicate ValidCursor(reply: Reply, cur: Cursor) {
    cur.Reading? ==> reply.Answered? && reply.success && cur.consumed <= |reply.body|
  }

  /** How much work the generator has left; every yield makes it smaller. */
  function Measure(reply: Reply, cur: Cursor): nat {
    var size := if reply.Answered? then |reply.body| else 0;
    match cur
    case Fresh => size + 2
    case Reading(n) => if n <= size then size - n + 1 else 0
    case Done(_) => 0
  }

  /**
   * The read loop from line `n` on: blank and malformed lines and records without a
   * response are skipped; a record with a response yields it (and finishes the
   * generator when it is also `done`); a `done` record without a response ends it.
   * The end-of-stream test comes before the cancellation test, as in the loop guard.
   */
  function Scan(body: seq<Line>, end: BodyEnd, cancel: Cancellation, n: nat): (r: (Step, Cursor))
    requires n <= |body|
    ensures r.1.Reading? ==> n < r.1.consumed <= |body|
    ensures r.0.Yielded? ==> !r.1.Fresh? && n < r.1.consumed <= |body|
    ensures !r.0.Yielded? ==> r.1.Done?
    decreases |body| - n
  {
    if n == |body| then
      match end
      case EndOfStream => (Ended, Done(n))
      case BrokenBy(f) => (Threw(Surface(f)), Done(n))
    else if Requested(cancel, n) then (Ended, Done(n))
    else
      match body[n]
      case Blank => Scan(body, end, cancel, n + 1)
      case Malformed => Scan(body, end, cancel, n + 1)
      case Record(response, done) =>
        if response.Some? then (Yielded(response.value), if done then Done(n + 1) else Reading(n + 1))
        else if done then (Ended, Done(n + 1))
        else Scan(body, end, cancel, n + 1)
  }

  /**
   * One `MoveNextAsync`. The first one sends the request: an unreachable server or a
   * non-success status surfaces as an exception before any line is read.
   */
  function Advance(reply: Reply, cancel: Cancellation, cur: Cursor): (r: (Step, Cursor))
    requires ValidCursor(reply, cur)
    ensures ValidCursor(reply, r.1)
    ensures r.0.Yielded? ==> Measure(reply, r.1) < Measure(reply, cur)
    ensures !r.0.Yielded? ==> r.1.Done?
  {
    match cur
    case Done(n) => (Ended, Done(n))
    case Fresh =>
      if reply.Unreachable? then (Threw(Surface(reply.fault)), Done(0))
      else if !reply.success then (Threw(Surface(ConnectFailure)), Done(0))
      else Scan(reply.body, reply.end, cancel, 0)
    case Reading(n) => Scan(reply.body, reply.end, cancel, n)
  }

  /** `MoveNextAsync` of the producer: resumes the read loop of `StreamChatAsync`. */
  method MoveNext(reply: Reply, cancel: Cancellation, cur: Cursor) returns (step: Step, next: Cursor)
    requires ValidCursor(reply, cur)
    ensures (step, next) == Advance(reply, cancel, cur)
    ensures step.Yielded? ==> Measure(reply, next) < Measure(reply, cur)
  {
    var n: nat;
    match cur {
      case Done(k) =>
        return Ended, cur;
      case Fresh =>
        if reply.Unreachable? {
          return Threw(Surface(reply.fault)), Done(0);
        }
        if !reply.success {
          return Threw(Surface(ConnectFailure)), Done(0);
        }
        n := 0;
      case Reading(k) =>
        n := k;
    }
    var body := reply.body;
    while true
      invariant n <= |body|
      invariant Scan(body, reply.end, cancel, n) == Advance(reply, cancel, cur)
      decreases |body| - n
    {
      if n == |body| {
        if reply.end.BrokenBy? {
          return Threw(Surface(reply.end.fault)), Done(n);
        }
        return Ended, Done(n);
      }
      if Requested(cancel, n) {
        return Ended, Done(n);
      }
      var line := body[n];
      n := n + 1;
      if line.Record? {
        if line.response.Some? {
          return Yielded(line.response.value), if line.done then Done(n) else Reading(n);
        }
        if line.done {
          return Ended, Done(n);
        }
      }
    }
  }

  /** Everything the producer yields when drained, and the exception that ends it, if any. */
  datatype Drained = Drained(fragments: seq<string>, failure: Option<Exception>)

  function Drain(reply: Reply, cancel: Cancellation, cur: Cursor): Drained
    requires ValidCursor(reply, cur)
    decreases Measure(reply, cur)
  {
    var r := Advance(reply, cancel, cur);
    match r.0
    case Yielded(s) =>
      var rest := Drain(reply, cancel, r.1);
      Drained([s] + rest.fragments, rest.failure)
    case Ended => Drained([], None)
    case Threw(e) => Drained([], Some(e))
  }

  // ----- An independent reference description of the producer's output -----

  predicate IsDoneRecord(l: Line) {
    l.Record? && l.done
  }

  /** The lines up to and including the first `done` record (all of them if there is none). */
  function UpToDone(lines: seq<Line>): (r: seq<Line>)
    ensures |r| <= |lines| && r == lines[..|r|]
    ensures forall i :: 0 <= i < |r| - 1 ==> !IsDoneRecord(r[i])
    ensures r == lines || (r != [] && IsDoneRecord(r[|r| - 1]))
  {
    if lines == [] then []
    else if IsDoneRecord(lines[0]) then [lines[0]]
    else [lines[0]] + UpToDone(lines[1..])
  }

  /** Some line is a `done` record. */
  predicate HasDone(lines: seq<Line>) {
    exists i :: 0 <= i < |lines| && IsDoneRecord(lines[i])
  }

  /** The `response` text a line contributes: one for a parsed record with a non-null response. */
  function Response(l: Line): seq<string> {
    if l.Record? && l.response.Some? then [l.response.value] else []
  }

  /** The non-null `response` texts of the parsed records, in line order (empty texts included). */
  function Responses(lines: seq<Line>): seq<string> {
    if lines == [] then []
    else Response(lines[0]) + Responses(lines[1..])
  }

  /** How many lines the producer may read before the cancellation test stops it. */
  function Limit(cancel: Cancellation, size: nat): (lim: nat)
    ensures lim <= size
    ensures lim < size <==> cancel.AfterReads? && cancel.count < size
  {
    if cancel.AfterReads? && cancel.count < size then cancel.count else size
  }

  /** The exception a body end raises when the loop reaches it. */
  function EndFailure(end: BodyEnd): Option<Exception> {
    if end.BrokenBy? then Some(Surface(end.fault)) else None
  }

  /** The reference description, one line at a time. */
  lemma ReferenceHead(seen: seq<Line>)
    requires seen != []
    ensures Responses(UpToDone(seen))
      == Response(seen[0]) + (if IsDoneRecord(seen[0]) then [] else Responses(UpToDone(seen[1..])))
    ensures HasDone(seen) <==> IsDoneRecord(seen[0]) || HasDone(seen[1..])
  {
    if IsDoneRecord(seen[0]) {
      assert UpToDone(seen) == [seen[0]];
      assert Responses([seen[0]]) == Response(seen[0]) + Responses([]);
    } else {
      assert UpToDone(seen) == [seen[0]] + UpToDone(seen[1..]);
      assert ([seen[0]] + UpToDone(seen[1..]))[1..] == UpToDone(seen[1..]);
    }
    if HasDone(seen[1..]) {
      var i :| 0 <= i < |seen[1..]| && IsDoneRecord(seen[1..][i]);
      assert seen[i + 1] == seen[1..][i];
    }
    if HasDone(seen) && !IsDoneRecord(seen[0]) {
      var i :| 0 <= i < |seen| && IsDoneRecord(seen[i]);
      assert seen[1..][i - 1] == seen[i];
    }
  }

  /**
   * One line read by the producer: it contributes its response, and the rest of the
   * output follows unless it is a `done` record.
   */
  lemma DrainLine(body: seq<Line>, end: BodyEnd, cancel: Cancellation, n: nat)
    requires n < |body| && !Requested(cancel, n)
    ensures var reply := Answered(true, body, end);
      var d, rest := Drain(reply, cancel, Reading(n)), Drain(reply, cancel, Reading(n + 1));
      && d.fragments == Response(body[n]) + (if IsDoneRecord(body[n]) then [] else rest.fragments)
      && d.failure == (if IsDoneRecord(body[n]) then None else rest.failure)
  {
    var reply := Answered(true, body, end);
    if body[n].Blank? || body[n].Malformed? || body[n] == Record(None, false) {
      assert Advance(reply, cancel, Reading(n)) == Advance(reply, cancel, Reading(n + 1));
    } else if body[n].done {
      assert Drain(reply, cancel, Done(n + 1)) == Drained([], None);
    }
  }

  /**
   * Drained from line `n`, the producer yields the responses of the lines it reads,
   * through the first `done` record, and ends with the body's failure only when it
   * reached the end of the body without a `done` record and without cancellation.
   */
  lemma {:induction false} DrainFrom(body: seq<Line>, end: BodyEnd, cancel: Cancellation, n: nat)
    requires n <= Limit(cancel, |body|)
    ensures var d := Drain(Answered(true, body, end), cancel, Reading(n));
      var lim := Limit(cancel, |body|);
      && d.fragments == Responses(UpToDone(body[n..lim]))
      && d.failure == (if HasDone(body[n..lim]) || lim < |body| then None else EndFailure(end))
    decreases |body| - n
  {
    var lim := Limit(cancel, |body|);
    var seen := body[n..lim];
    if n == lim {
      assert seen == [];
    } else {
      assert !Requested(cancel, n);
      assert seen[0] == body[n] && seen[1..] == body[n + 1..lim];
      ReferenceHead(seen);
      DrainFrom(body, end, cancel, n + 1);
      DrainLine(body, end, cancel, n);
    }
  }

  /**
   * The producer's whole output for an answered request: the non-null responses of
   * the parsed records among the lines it reads, in order, up to and including the
   * first `done` record; blank and malformed lines never stop it. A non-success
   * status yields nothing and surfaces as the connection-failure exception.
   */
  lemma ProducerOutput(reply: Reply, cancel: Cancellation)
    requires reply.Answered?
    ensures var d := Drain(reply, cancel, Fresh);
      var lim := Limit(cancel, |reply.body|);
      var seen := reply.body[..lim];
      if reply.success then
        && d.fragments == Responses(UpToDone(seen))
        && d.failure == (if HasDone(seen) || lim < |reply.body| then None else EndFailure(reply.end))
      else
        d == Drained([], Some(InvalidOperation(ConnectFailureMessage)))
  {
    if reply.success {
      DrainFrom(reply.body, reply.end, cancel, 0);
      assert Advance(reply, cancel, Fresh) == Advance(reply, cancel, Reading(0));
      assert reply.body[0..Limit(cancel, |reply.body|)] == reply.body[..Limit(cancel, |reply.body|)];
    }
  }

  /** A request that never reached the server yields nothing and surfaces its failure. */
  lemma UnreachableOutput(reply: Reply, cancel: Cancellation)
    requires reply.Unreachable?
    ensures Drain(reply, cancel, Fresh) == Drained([], Some(Surface(reply.fault)))
  {
  }

  /** The result of the health probe `GET /api/tags`: a status, or an exception. */
  datatype Probe = Responded(success: bool) | ProbeFailed

  /** `IsHealthyAsync`: true exactly for a success status; an exception reads as false. */
  function IsHealthy(p: Probe): (healthy: bool)
    ensures healthy <==> p.Responded? && p.success
  {
    match p
    case Responded(success) => success
    case ProbeFailed => false
  }
}
