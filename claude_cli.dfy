/**
 * The bridge to the interactive CLI subprocess
 * (mini-services/ai-orchestrator/claude-cli.ts): a connector that holds at
 * most one child-process handle and an ordered list of message handlers,
 * classifies every stdout chunk line by line, forwards every stderr chunk
 * whole as an error, and writes user input to the child's stdin.
 *
 * The child process is an abstract handle that records what was written to
 * its stdin and whether it was killed; handlers are opaque identities, and
 * calling a handler is recorded as a delivery.
 */
module ClaudeCli {
  import opened Wrappers
  import opened Text
  import opened Types

  const ThinkingTag := "<thinking>"
  const ExecuteTag := "<execute>"
  const ResultTag := "<result>"

  /** The message text `sendMessage` throws with when no child is held. */
  const NotRunning := "CLI process not running"

  /** Prefix of the message reported when the child emits an `error` event. */
  const ProcessErrorPrefix := "CLI process error: "

  // ---------------------------------------------------------------------
  // Classification of stdout (parseOutput)
  // ---------------------------------------------------------------------

  /** The message one stdout line becomes: the first tag the line starts
      with decides the kind, and a line with no known tag is a result. The
      content is the line itself. */
  function Classify(line: string): (m: ClaudeMessage)
    ensures m.content == line && m.kind != Error
    ensures m.kind == Thinking <==> StartsWith(line, ThinkingTag)
    ensures m.kind == Command <==> !StartsWith(line, ThinkingTag) && StartsWith(line, ExecuteTag)
    ensures m.kind == Result <==> !StartsWith(line, ThinkingTag) && !StartsWith(line, ExecuteTag)
  {
    if StartsWith(line, ThinkingTag) then ClaudeMessage(Thinking, line)
    else if StartsWith(line, ExecuteTag) then ClaudeMessage(Command, line)
    else if StartsWith(line, ResultTag) then ClaudeMessage(Result, line)
    else ClaudeMessage(Result, line)
  }

  /** No tag is a prefix of another, so a line starts with at most one of
      them and the order of the tests never matters; in particular a line
      tagged `<result>` and an untagged line are classified alike. */
  lemma TagsExclusive(line: string)
    ensures !(StartsWith(line, ThinkingTag) && StartsWith(line, ExecuteTag))
    ensures !(StartsWith(line, ThinkingTag) && StartsWith(line, ResultTag))
    ensures !(StartsWith(line, ExecuteTag) && StartsWith(line, ResultTag))
    ensures StartsWith(line, ResultTag) ==> Classify(line).kind == Result
  {
    assert ThinkingTag[1] == 't' && ExecuteTag[1] == 'e' && ResultTag[1] == 'r';
  }

  /** The pieces of `pieces` whose `trim()` is not empty, in order. */
  function KeepNonBlank(pieces: seq<string>): (kept: seq<string>)
    ensures |kept| <= |pieces|
  {
    if |pieces| == 0 then []
    else if IsBlank(pieces[0]) then KeepNonBlank(pieces[1..])
    else [pieces[0]] + KeepNonBlank(pieces[1..])
  }

  /** The filter keeps exactly the non-blank pieces. */
  lemma {:induction false} KeepNonBlankMembers(pieces: seq<string>)
    ensures forall l :: l in KeepNonBlank(pieces) ==> l in pieces && !IsBlank(l)
    ensures forall p :: p in pieces && !IsBlank(p) ==> p in KeepNonBlank(pieces)
  {
    if |pieces| > 0 {
      KeepNonBlankMembers(pieces[1..]);
      forall p | p in pieces && !IsBlank(p) ensures p in KeepNonBlank(pieces) {
        if p != pieces[0] {
          var i :| 0 <= i < |pieces| && pieces[i] == p;
          assert pieces[1..][i - 1] == p;
        }
      }
    }
  }

  /** `output.split('\n').filter(line => line.trim())`: the lines of one
      chunk, taken on their own, without the blank ones. */
  function ChunkLines(output: string): seq<string>
  {
    KeepNonBlank(Split(output, '\n'))
  }

  /** The messages one stdout chunk produces, in order. */
  function ChunkMessages(output: string): (ms: seq<ClaudeMessage>)
    ensures |ms| == |ChunkLines(output)|
  {
    ClassifyAll(ChunkLines(output))
  }

  function ClassifyAll(lines: seq<string>): (ms: seq<ClaudeMessage>)
    ensures |ms| == |lines|
    ensures forall i :: 0 <= i < |lines| ==> ms[i] == Classify(lines[i])
  {
    if |lines| == 0 then [] else ClassifyAll(lines[..|lines| - 1]) + [Classify(lines[|lines| - 1])]
  }

  /** Every message of a chunk carries one non-blank line of it, untrimmed and
      without a line break; and every non-blank line of the chunk is carried. */
  lemma ChunkMessagesAreLines(output: string)
    ensures forall m :: m in ChunkMessages(output) ==>
      m.kind != Error && !IsBlank(m.content) && '\n' !in m.content && m.content in Split(output, '\n')
    ensures forall p :: p in Split(output, '\n') && !IsBlank(p) ==>
      exists i :: 0 <= i < |ChunkMessages(output)| && ChunkMessages(output)[i].content == p
  {
    var lines := ChunkLines(output);
    var ms := ChunkMessages(output);
    SplitPiecesAvoidSeparator(output, '\n');
    KeepNonBlankMembers(Split(output, '\n'));
    forall m | m in ms
      ensures m.kind != Error && !IsBlank(m.content) && '\n' !in m.content && m.content in Split(output, '\n')
    {
      var i :| 0 <= i < |ms| && ms[i] == m;
      assert lines[i] in lines;
    }
    forall p | p in Split(output, '\n') && !IsBlank(p)
      ensures exists i :: 0 <= i < |ms| && ms[i].content == p
    {
      var i :| 0 <= i < |lines| && lines[i] == p;
      assert ms[i].content == p;
    }
  }

  /** A chunk that carries two stretches of output joined at a line break
      yields the messages of each stretch in turn. */
  lemma {:induction false} ChunkAtLineBreak(a: string, b: string)
    ensures ChunkMessages(a + "\n" + b) == ChunkMessages(a) + ChunkMessages(b)
  {
    SplitAtSeparator(a, b, '\n');
    KeepNonBlankAppend(Split(a, '\n'), Split(b, '\n'));
    ClassifyAllAppend(ChunkLines(a), ChunkLines(b));
  }

  lemma {:induction false} KeepNonBlankAppend(xs: seq<string>, ys: seq<string>)
    ensures KeepNonBlank(xs + ys) == KeepNonBlank(xs) + KeepNonBlank(ys)
  {
    if |xs| > 0 {
      var zs := xs + ys;
      KeepNonBlankAppend(xs[1..], ys);
      assert zs[0] == xs[0] && zs[1..] == xs[1..] + ys;
      if !IsBlank(xs[0]) {
        var rest := KeepNonBlank(xs[1..]);
        assert KeepNonBlank(zs) == [xs[0]] + (rest + KeepNonBlank(ys));
        assert [xs[0]] + (rest + KeepNonBlank(ys)) == ([xs[0]] + rest) + KeepNonBlank(ys);
      }
    } else {
      assert xs + ys == ys;
    }
  }

  lemma ClassifyAllAppend(xs: seq<string>, ys: seq<string>)
    ensures ClassifyAll(xs + ys) == ClassifyAll(xs) + ClassifyAll(ys)
  {
  }

  /** A chunk holding one non-blank line, with or without its line break,
      yields exactly that line's message. */
  lemma OneLineChunk(line: string)
    requires '\n' !in line && !IsBlank(line)
    ensures ChunkMessages(line) == [Classify(line)]
    ensures ChunkMessages(line + "\n") == [Classify(line)]
  {
    SplitWithoutSeparator(line, '\n');
    SplitAtSeparator(line, "", '\n');
    assert line + "\n" == line + ['\n'] + "";
    assert Split(line + "\n", '\n') == [line, ""];
    assert IsBlank("") && [line, ""][1..] == [""] && [""][1..] == [];
    assert KeepNonBlank([line, ""]) == [line];
  }

  /** There is no buffering across chunks: a `<thinking>` line cut in two by
      a chunk boundary is classified as two lines, and the second half,
      having lost its tag, becomes a result; delivered in one chunk the same
      line is one thinking message. */
  lemma CutLineIsTwoMessages(head: string, tail: string)
    requires StartsWith(head, ThinkingTag) && '\n' !in head
    requires '\n' !in tail && |tail| > 0 && !IsSpace(tail[0])
    requires !StartsWith(tail, ThinkingTag) && !StartsWith(tail, ExecuteTag)
    ensures ChunkMessages(head) + ChunkMessages(tail + "\n")
         == [ClaudeMessage(Thinking, head), ClaudeMessage(Result, tail)]
    ensures ChunkMessages(head + tail + "\n") == [ClaudeMessage(Thinking, head + tail)]
  {
    assert head[0] == '<' && !IsSpace(head[0]);
    OneLineChunk(head);
    OneLineChunk(tail);
    WholeLine(head, tail);
  }

  lemma WholeLine(head: string, tail: string)
    requires StartsWith(head, ThinkingTag) && '\n' !in head && '\n' !in tail
    ensures ChunkMessages(head + tail + "\n") == [ClaudeMessage(Thinking, head + tail)]
  {
    var whole := head + tail;
    assert whole[0] == '<' && !IsSpace(whole[0]);
    assert whole[..|ThinkingTag|] == head[..|ThinkingTag|];
    assert '\n' !in whole;
    OneLineChunk(whole);
  }

  // ---------------------------------------------------------------------
  // Fan-out to handlers (notify)
  // ---------------------------------------------------------------------

  /** A registered handler, known only by its identity. */
  type HandlerId = nat

  /** One call of a handler with a message. */
  datatype Delivery = Delivery(handler: HandlerId, message: ClaudeMessage)

  /** The calls `notify(m)` makes: every handler, in registration order. */
  function FanOut(handlers: seq<HandlerId>, m: ClaudeMessage): (ds: seq<Delivery>)
    ensures |ds| == |handlers|
    ensures forall i :: 0 <= i < |handlers| ==> ds[i] == Delivery(handlers[i], m)
  {
    seq(|handlers|, i requires 0 <= i < |handlers| => Delivery(handlers[i], m))
  }

  /** The calls made by notifying each message of `ms` in turn. */
  function FanOutAll(handlers: seq<HandlerId>, ms: seq<ClaudeMessage>): seq<Delivery>
  {
    if |ms| == 0 then [] else FanOutAll(handlers, ms[..|ms| - 1]) + FanOut(handlers, ms[|ms| - 1])
  }

  /** The messages delivered to handler `h`, in delivery order. */
  function ReceivedBy(ds: seq<Delivery>, h: HandlerId): seq<ClaudeMessage>
  {
    if |ds| == 0 then []
    else ReceivedBy(ds[..|ds| - 1], h) + (if ds[|ds| - 1].handler == h then [ds[|ds| - 1].message] else [])
  }

  lemma {:induction false} ReceivedByAppend(xs: seq<Delivery>, ys: seq<Delivery>, h: HandlerId)
    ensures ReceivedBy(xs + ys, h) == ReceivedBy(xs, h) + ReceivedBy(ys, h)
  {
    if |ys| > 0 {
      ReceivedByAppend(xs, ys[..|ys| - 1], h);
      assert (xs + ys)[..|xs + ys| - 1] == xs + ys[..|ys| - 1];
    } else {
      assert xs + ys == xs;
    }
  }

  /** A handler registered once is called exactly once per notification. */
  lemma {:induction false} FanOutReachesHandlerOnce(handlers: seq<HandlerId>, m: ClaudeMessage, j: nat)
    requires j < |handlers|
    requires forall k :: 0 <= k < |handlers| && k != j ==> handlers[k] != handlers[j]
    ensures ReceivedBy(FanOut(handlers, m), handlers[j]) == [m]
  {
    var h := handlers[j];
    var n := |handlers|;
    if n - 1 == j {
      NotRegistered(handlers[..n - 1], m, h);
      assert FanOut(handlers, m)[..n - 1] == FanOut(handlers[..n - 1], m);
    } else {
      FanOutReachesHandlerOnce(handlers[..n - 1], m, j);
      assert FanOut(handlers, m)[..n - 1] == FanOut(handlers[..n - 1], m);
    }
  }

  /** A handler that is not registered is never called. */
  lemma {:induction false} NotRegistered(handlers: seq<HandlerId>, m: ClaudeMessage, h: HandlerId)
    requires h !in handlers
    ensures ReceivedBy(FanOut(handlers, m), h) == []
  {
    var n := |handlers|;
    if n > 0 {
      NotRegistered(handlers[..n - 1], m, h);
      assert FanOut(handlers, m)[..n - 1] == FanOut(handlers[..n - 1], m);
    }
  }

  /** Every handler registered once receives the whole message stream, in
      the order it was produced. */
  lemma {:induction false} EveryHandlerSeesEveryMessage(handlers: seq<HandlerId>, ms: seq<ClaudeMessage>, j: nat)
    requires j < |handlers|
    requires forall k :: 0 <= k < |handlers| && k != j ==> handlers[k] != handlers[j]
    ensures ReceivedBy(FanOutAll(handlers, ms), handlers[j]) == ms
  {
    if |ms| > 0 {
      EveryHandlerSeesEveryMessage(handlers, ms[..|ms| - 1], j);
      ReceivedByAppend(FanOutAll(handlers, ms[..|ms| - 1]), FanOut(handlers, ms[|ms| - 1]), handlers[j]);
      FanOutReachesHandlerOnce(handlers, ms[|ms| - 1], j);
      assert ms == ms[..|ms| - 1] + [ms[|ms| - 1]];
    }
  }

  /** Notifying one more line of a chunk extends the calls by that line's fan-out. */
  lemma FanOutAllStep(handlers: seq<HandlerId>, ms: seq<ClaudeMessage>, i: nat)
    requires i < |ms|
    ensures FanOutAll(handlers, ms[..i + 1]) == FanOutAll(handlers, ms[..i]) + FanOut(handlers, ms[i])
  {
    assert ms[..i + 1][..i] == ms[..i];
  }

  // ---------------------------------------------------------------------
  // The child process and the promise `start` returns
  // ---------------------------------------------------------------------

  /** A spawned child process, seen through what the connector does to it. */
  class ChildProcess {
    /** Whether the handle has a writable stdin (it does when stdin is piped). */
    const hasStdin: bool
    /** Everything written to stdin, one entry per `write`. */
    var written: seq<string>
    var killed: bool

    constructor (hasStdin: bool)
      ensures this.hasStdin == hasStdin && written == [] && !killed
    {
      this.hasStdin := hasStdin;
      written := [];
      killed := false;
    }

    method Write(data: string)
      modifies this
      ensures written == old(written) + [data] && killed == old(killed)
    {
      written := written + [data];
    }

    method Kill()
      modifies this
      ensures killed && written == old(written)
    {
      killed := true;
    }
  }

  datatype PromiseState = Unsettled | Fulfilled | Rejected(reason: string)

  /** The promise `start()` returns; once settled it never changes. */
  class StartPromise {
    var state: PromiseState

    constructor ()
      ensures state == Unsettled
    {
      state := Unsettled;
    }

    method Resolve()
      modifies this
      ensures state == if old(state) == Unsettled then Fulfilled else old(state)
    {
      if state == Unsettled {
        state := Fulfilled;
      }
    }

    method Reject(reason: string)
      modifies this
      ensures state == if old(state) == Unsettled then Rejected(reason) else old(state)
    {
      if state == Unsettled {
        state := Rejected(reason);
      }
    }
  }

  // ---------------------------------------------------------------------
  // The connector
  // ---------------------------------------------------------------------

  class Connector {
    /** The working directory the child is spawned in. */
    const cwd: string
    /** The child process held, or null. */
    var process: ChildProcess?
    /** The registered handlers, in registration order. */
    var handlers: seq<HandlerId>
    /** Every handler call made so far, in order. */
    var delivered: seq<Delivery>

    constructor (cwd: string)
      ensures this.cwd == cwd && process == null && handlers == [] && delivered == []
    {
      this.cwd := cwd;
      process := null;
      handlers := [];
      delivered := [];
    }

    /** `start()`: takes the freshly spawned child as the held process,
        replacing any process held before without stopping it, and returns
        the pending promise that the child's first `error` event rejects and
        the 500 ms timer resolves. */
    method Start(child: ChildProcess) returns (p: StartPromise)
      modifies this`process
      ensures process == child && fresh(p) && p.state == Unsettled
    {
      process := child;
      p := new StartPromise();
    }

    /** The 500 ms timer `start` sets: resolves its promise unless the
        child's `error` event already rejected it. */
    method OnStartTimer(p: StartPromise)
      modifies p
      ensures p.state == if old(p.state) == Unsettled then Fulfilled else old(p.state)
    {
      p.Resolve();
    }

    /** `onMessage(handler)`: appends the handler and does nothing else. */
    method OnMessage(h: HandlerId)
      modifies this`handlers
      ensures handlers == old(handlers) + [h]
    {
      handlers := handlers + [h];
    }

    /** `notify(message)`: calls every handler with the message, in order. */
    method Notify(m: ClaudeMessage)
      modifies this`delivered
      ensures delivered == old(delivered) + FanOut(handlers, m)
    {
      var i := 0;
      while i < |handlers|
        invariant 0 <= i <= |handlers|
        invariant delivered == old(delivered) + FanOut(handlers[..i], m)
      {
        assert FanOut(handlers[..i + 1], m) == FanOut(handlers[..i], m) + [Delivery(handlers[i], m)];
        delivered := delivered + [Delivery(handlers[i], m)];
        i := i + 1;
      }
      assert handlers[..i] == handlers;
    }

    /** `parseOutput(output)`, run on every stdout chunk: notifies the
        classified message of every non-blank line of the chunk, in order. */
    method ParseOutput(output: string)
      modifies this`delivered
      ensures delivered == old(delivered) + FanOutAll(handlers, ChunkMessages(output))
    {
      var lines := ChunkLines(output);
      NotifyLines(lines);
    }

    /** The `forEach` of `parseOutput`: classifies each line and notifies
        its message, in order. */
    method NotifyLines(lines: seq<string>)
      modifies this`delivered
      ensures delivered == old(delivered) + FanOutAll(handlers, ClassifyAll(lines))
    {
      ghost var ms := ClassifyAll(lines);
      var i := 0;
      while i < |lines|
        invariant 0 <= i <= |lines|
        invariant delivered == old(delivered) + FanOutAll(handlers, ms[..i])
      {
        var m := Classify(lines[i]);
        FanOutAllStep(handlers, ms, i);
        Notify(m);
        i := i + 1;
      }
      assert ms[..i] == ms;
    }

    /** The child's stderr `data` handler: one error message with the whole chunk. */
    method OnStderrData(data: string)
      modifies this`delivered
      ensures delivered == old(delivered) + FanOut(handlers, ClaudeMessage(Error, data))
    {
      Notify(ClaudeMessage(Error, data));
    }

    /** The child's `error` event handler: notifies an error message and
        rejects the promise of the `start` that spawned the child. */
    method OnProcessError(p: StartPromise, message: string)
      modifies this`delivered, p
      ensures delivered == old(delivered) + FanOut(handlers, ClaudeMessage(Error, ProcessErrorPrefix + message))
      ensures p.state == if old(p.state) == Unsettled then Rejected(message) else old(p.state)
    {
      Notify(ClaudeMessage(Error, ProcessErrorPrefix + message));
      p.Reject(message);
    }

    /** `sendMessage(message)`: throws `NotRunning` unless a process with a
        stdin is held; otherwise writes the message and one line break. */
    method SendMessage(message: string) returns (r: Outcome<string>)
      modifies process
      ensures process == old(process)
      ensures r == (if process == null || !process.hasStdin then Fail(NotRunning) else Pass)
      ensures process != null ==> process.killed == old(process.killed)
      ensures process != null ==>
        process.written == if r.Pass? then old(process.written) + [message + "\n"] else old(process.written)
    {
      if process == null || !process.hasStdin {
        return Fail(NotRunning);
      }
      process.Write(message + "\n");
      r := Pass;
    }

    /** `stop()`: kills the held process, if any, and lets go of it. */
    method Stop()
      modifies this`process, process
      ensures process == null
      ensures old(process) != null ==> old(process).killed && old(process).written == old(process.written)
    {
      if process != null {
        process.Kill();
        process := null;
      }
    }
  }

  /** A connector that was stopped refuses to send, and nothing reaches the
      child it held. */
  method SendAfterStop(c: Connector, message: string) returns (r: Outcome<string>)
    modifies c, c.process
    ensures r == Fail(NotRunning)
    ensures old(c.process) != null ==> old(c.process).killed && old(c.process).written == old(c.process.written)
  {
    c.Stop();
    r := c.SendMessage(message);
  }

  /** `start()` twice without `stop()`: the connector lets go of the first
      child without killing it, and only the second one is reachable. */
  method StartTwice(c: Connector, first: ChildProcess, second: ChildProcess)
    returns (p1: StartPromise, p2: StartPromise)
    modifies c
    ensures c.process == second
    ensures first.killed == old(first.killed) && first.written == old(first.written)
  {
    p1 := c.Start(first);
    p2 := c.Start(second);
  }
}
