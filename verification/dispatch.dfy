/**
 Frame dispatch and the read loop. Decoding and the user's handler are
 function parameters: `decode` turns a text payload into an event or fails
 with a cause, and `handle` receives the events it was handed before (the
 handler is a stateful closure in the client, so its answer may depend on
 them) together with the new event. The loop runs over the finite list of
 values the running flag has at each check and the finite list of what the
 socket yields on each read; it reports the events handed to the handler,
 how many reads it consumed and how it ended.
 */
module Dispatch {

  import opened Options
  import opened Errors
  import opened Connection

  datatype Frame =
    | Text(payload: string)
    | Ping
    | Pong
    | Binary
    | RawFrame
    | Close(frame: Option<CloseFrame>)

  /** What one read of the socket yields: `None` once the stream is exhausted,
      otherwise a frame or the transport's error. */
  type Poll = Option<External<Frame>>

  /** The effect of processing one frame: the text handed to the decoder,
      the event handed to the handler, and the result. */
  datatype Step<E> = Step(decoded: Option<string>, handled: Option<E>, result: Result<()>)

  datatype Exit = Returned(result: Result<()>) | StillRunning

  /** A run of the loop: the events handed to the handler, in order, the
      number of reads taken from the socket, and how the run ended.
      `StillRunning` means the flag values or the reads supplied ran out while
      the loop was still going. */
  datatype Run<E> = Run(handled: seq<E>, consumed: nat, exit: Exit)

  /** Processes one frame. Only a non-empty text frame reaches the decoder,
      and only a successfully decoded one reaches the handler, exactly once;
      a close frame always fails; every other frame is ignored. */
  function ProcessMessage<E>(decode: string -> External<E>, handle: (seq<E>, E) -> Result<()>,
                             history: seq<E>, frame: Frame): (r: Step<E>)
    ensures r.decoded.Some? <==> frame.Text? && |frame.payload| > 0
    ensures r.decoded.Some? ==> r.decoded.value == frame.payload
    ensures r.handled.Some? <==> r.decoded.Some? && decode(r.decoded.value).Done?
    ensures r.handled.Some? ==> r.handled.value == decode(r.decoded.value).value
    ensures r.handled.Some? ==> r.result == handle(history, r.handled.value)
    ensures r.decoded.Some? && decode(r.decoded.value).Failed? ==>
              r.result == Err(Json(decode(r.decoded.value).cause))
    ensures frame.Close? ==> r.result == Err(Disconnected(frame.frame))
    ensures r.result.Err? ==> frame.Close? || r.decoded.Some?
  {
    match frame
    case Text(s) =>
      if |s| == 0 then Step(None, None, Ok(()))
      else
        (match decode(s)
         case Failed(e) => Step(Some(s), None, Err(Json(e)))
         case Done(event) => Step(Some(s), Some(event), handle(history, event)))
    case Close(payload) => Step(None, None, Err(Disconnected(payload)))
    case _ => Step(None, None, Ok(()))
  }

  /** One read of the loop: a read error stops it, an exhausted stream does
      nothing, a frame is processed. */
  function Iterate<E>(decode: string -> External<E>, handle: (seq<E>, E) -> Result<()>,
                      history: seq<E>, poll: Poll): (r: Step<E>)
    ensures poll.None? ==> r == Step(None, None, Ok(()))
    ensures poll.Some? && poll.value.Failed? ==> r.result == Err(WebSocket(poll.value.cause)) && r.handled.None?
    ensures poll.Some? && poll.value.Done? ==> r == ProcessMessage(decode, handle, history, poll.value.value)
  {
    match poll
    case None => Step(None, None, Ok(()))
    case Some(Failed(e)) => Step(None, None, Err(WebSocket(e)))
    case Some(Done(frame)) => ProcessMessage(decode, handle, history, frame)
  }

  function AsSeq<E>(o: Option<E>): seq<E> {
    match o
    case None => []
    case Some(e) => [e]
  }

  /** The event a read delivers to the handler, stated without the handler:
      the decoded event of a non-empty text frame that decodes. */
  function Delivered<E>(decode: string -> External<E>, poll: Poll): seq<E> {
    match poll
    case Some(Done(Text(s))) => if |s| > 0 && decode(s).Done? then [decode(s).value] else []
    case _ => []
  }

  /** The events a sequence of reads delivers, in order. */
  function DeliveredAll<E>(decode: string -> External<E>, polls: seq<Poll>): seq<E> {
    if |polls| == 0 then [] else Delivered(decode, polls[0]) + DeliveredAll(decode, polls[1..])
  }

  /** The event loop, `running[i]` being the flag's value at the i-th check.
      While the flag is set it reads the socket if a connection is held
      (otherwise the iteration does nothing), processes the frame, and stops
      at the first error. */
  function EventLoop<E>(socket: Option<Transport>, running: seq<bool>, polls: seq<Poll>,
                        decode: string -> External<E>, handle: (seq<E>, E) -> Result<()>,
                        history: seq<E>): (r: Run<E>)
    ensures r.consumed <= |polls| && r.consumed <= |running|
    ensures socket.None? ==> r.consumed == 0 && r.handled == []
    ensures |r.handled| <= r.consumed
    decreases |running|
  {
    if |running| == 0 then Run([], 0, StillRunning)
    else if !running[0] then Run([], 0, Returned(Ok(())))
    else if socket.None? then EventLoop(socket, running[1..], polls, decode, handle, history)
    else if |polls| == 0 then Run([], 0, StillRunning)
    else
      var step := Iterate(decode, handle, history, polls[0]);
      var handed := AsSeq(step.handled);
      if step.result.Err? then Run(handed, 1, Returned(step.result))
      else
        var rest := EventLoop(socket, running[1..], polls[1..], decode, handle, history + handed);
        Run(handed + rest.handled, 1 + rest.consumed, rest.exit)
  }

  /** The step the loop takes at the j-th read, once it got there: the
      handler has by then seen `history` and everything delivered before. */
  function StepAt<E>(decode: string -> External<E>, handle: (seq<E>, E) -> Result<()>,
                     history: seq<E>, polls: seq<Poll>, j: nat): Step<E>
    requires j < |polls|
  {
    Iterate(decode, handle, history + DeliveredAll(decode, polls[..j]), polls[j])
  }

  /** The j-th read stops the loop with an error. */
  predicate FailsAt<E>(decode: string -> External<E>, handle: (seq<E>, E) -> Result<()>,
                       history: seq<E>, polls: seq<Poll>, j: nat)
    requires j < |polls|
  {
    StepAt(decode, handle, history, polls, j).result.Err?
  }

  /** A read hands the handler exactly the event `Delivered` names. */
  lemma IterateDelivers<E>(decode: string -> External<E>, handle: (seq<E>, E) -> Result<()>,
                           history: seq<E>, poll: Poll)
    ensures AsSeq(Iterate(decode, handle, history, poll).handled) == Delivered(decode, poll)
  {
  }

  lemma DeliveredAllPrefix<E>(decode: string -> External<E>, polls: seq<Poll>, j: nat)
    requires j < |polls|
    ensures DeliveredAll(decode, polls[..j + 1]) == Delivered(decode, polls[0]) + DeliveredAll(decode, polls[1..][..j])
  {
    assert polls[..j + 1][0] == polls[0];
    assert polls[..j + 1][1..] == polls[1..][..j];
  }

  /** The loop after its first read sees the same steps, one position on. */
  lemma StepAtShift<E>(decode: string -> External<E>, handle: (seq<E>, E) -> Result<()>,
                       history: seq<E>, polls: seq<Poll>, j: nat)
    requires 0 < j < |polls|
    ensures StepAt(decode, handle, history, polls, j)
         == StepAt(decode, handle, history + Delivered(decode, polls[0]), polls[1..], j - 1)
  {
    DeliveredAllPrefix(decode, polls, j - 1);
    assert history + DeliveredAll(decode, polls[..j])
        == history + Delivered(decode, polls[0]) + DeliveredAll(decode, polls[1..][..j - 1]);
  }

  /** The first step of the loop is the step at read 0. */
  lemma StepAtZero<E>(decode: string -> External<E>, handle: (seq<E>, E) -> Result<()>,
                      history: seq<E>, polls: seq<Poll>)
    requires |polls| > 0
    ensures StepAt(decode, handle, history, polls, 0) == Iterate(decode, handle, history, polls[0])
  {
    assert polls[..0] == [];
    assert history + DeliveredAll(decode, polls[..0]) == history;
  }

  /** With a connection held, the handler receives exactly the events the
      consumed reads deliver, in arrival order, and every consumed read was
      taken while the flag was set. */
  lemma {:induction false} EventLoopTrace<E>(socket: Option<Transport>, running: seq<bool>, polls: seq<Poll>,
                                             decode: string -> External<E>, handle: (seq<E>, E) -> Result<()>,
                                             history: seq<E>)
    requires socket.Some?
    ensures var r := EventLoop(socket, running, polls, decode, handle, history);
      && r.handled == DeliveredAll(decode, polls[..r.consumed])
      && (forall j :: 0 <= j < r.consumed ==> running[j])
    decreases |running|
  {
    var r := EventLoop(socket, running, polls, decode, handle, history);
    assert polls[..0] == [];
    if |running| > 0 && running[0] && |polls| > 0 {
      var step := Iterate(decode, handle, history, polls[0]);
      IterateDelivers(decode, handle, history, polls[0]);
      DeliveredAllPrefix(decode, polls, 0);
      assert polls[1..][..0] == [];
      if step.result.Ok? {
        var history' := history + AsSeq(step.handled);
        var rest := EventLoop(socket, running[1..], polls[1..], decode, handle, history');
        EventLoopTrace(socket, running[1..], polls[1..], decode, handle, history');
        DeliveredAllPrefix(decode, polls, rest.consumed);
        forall j | 0 < j < r.consumed
          ensures running[j] == running[1..][j - 1]
        {
        }
      }
    }
  }

  /** With a connection held, no consumed read but the last one failed, and
      the loop ends with an error exactly when the last consumed read failed,
      and then with that read's error. */
  lemma {:induction false} EventLoopFailures<E>(socket: Option<Transport>, running: seq<bool>, polls: seq<Poll>,
                                                decode: string -> External<E>, handle: (seq<E>, E) -> Result<()>,
                                                history: seq<E>)
    requires socket.Some?
    ensures var r := EventLoop(socket, running, polls, decode, handle, history);
      && (forall j :: 0 <= j && j + 1 < r.consumed ==> !FailsAt(decode, handle, history, polls, j))
      && (r.exit.Returned? && r.exit.result.Err? ==>
            r.consumed > 0 && r.exit.result == StepAt(decode, handle, history, polls, r.consumed - 1).result)
      && (r.consumed > 0 && FailsAt(decode, handle, history, polls, r.consumed - 1) ==>
            r.exit.Returned? && r.exit.result.Err?)
    decreases |running|
  {
    var r := EventLoop(socket, running, polls, decode, handle, history);
    if |running| > 0 && running[0] && |polls| > 0 {
      var step := Iterate(decode, handle, history, polls[0]);
      StepAtZero(decode, handle, history, polls);
      if step.result.Ok? {
        var history' := history + AsSeq(step.handled);
        IterateDelivers(decode, handle, history, polls[0]);
        EventLoopFailures(socket, running[1..], polls[1..], decode, handle, history');
        forall j | 0 < j < r.consumed
          ensures StepAt(decode, handle, history, polls, j) == StepAt(decode, handle, history', polls[1..], j - 1)
        {
          StepAtShift(decode, handle, history, polls, j);
        }
        forall j | 0 <= j && j + 1 < r.consumed
          ensures !FailsAt(decode, handle, history, polls, j)
        {
          if j > 0 {
            assert !FailsAt(decode, handle, history', polls[1..], j - 1);
          }
        }
      }
    }
  }

  /** With a connection held, the loop returns Ok only when it finds the flag
      cleared, and is still running only when the flag values or the reads
      ran out. */
  lemma {:induction false} EventLoopExit<E>(socket: Option<Transport>, running: seq<bool>, polls: seq<Poll>,
                                            decode: string -> External<E>, handle: (seq<E>, E) -> Result<()>,
                                            history: seq<E>)
    requires socket.Some?
    ensures var r := EventLoop(socket, running, polls, decode, handle, history);
      && (r.exit.Returned? && r.exit.result.Ok? ==> r.consumed < |running| && !running[r.consumed])
      && (r.exit.StillRunning? ==>
            r.consumed == |running| || (r.consumed == |polls| && r.consumed < |running| && running[r.consumed]))
    decreases |running|
  {
    if |running| > 0 && running[0] && |polls| > 0 {
      var step := Iterate(decode, handle, history, polls[0]);
      if step.result.Ok? {
        EventLoopExit(socket, running[1..], polls[1..], decode, handle, history + AsSeq(step.handled));
      }
    }
  }

  /** With a connection held the run is fully determined by the reads and the
      flag: the trace, the failures and the way the loop ends, together. */
  lemma EventLoopConnected<E>(socket: Option<Transport>, running: seq<bool>, polls: seq<Poll>,
                              decode: string -> External<E>, handle: (seq<E>, E) -> Result<()>,
                              history: seq<E>)
    requires socket.Some?
    ensures var r := EventLoop(socket, running, polls, decode, handle, history);
      && r.handled == DeliveredAll(decode, polls[..r.consumed])
      && (forall j :: 0 <= j < r.consumed ==> running[j])
      && (forall j :: 0 <= j && j + 1 < r.consumed ==> !FailsAt(decode, handle, history, polls, j))
      && (r.exit.Returned? && r.exit.result.Err? ==>
            r.consumed > 0 && r.exit.result == StepAt(decode, handle, history, polls, r.consumed - 1).result)
      && (r.consumed > 0 && FailsAt(decode, handle, history, polls, r.consumed - 1) ==>
            r.exit.Returned? && r.exit.result.Err?)
      && (r.exit.Returned? && r.exit.result.Ok? ==> r.consumed < |running| && !running[r.consumed])
      && (r.exit.StillRunning? ==>
            r.consumed == |running| || (r.consumed == |polls| && r.consumed < |running| && running[r.consumed]))
  {
    EventLoopTrace(socket, running, polls, decode, handle, history);
    EventLoopFailures(socket, running, polls, decode, handle, history);
    EventLoopExit(socket, running, polls, decode, handle, history);
  }

  /** The first failing read ends the loop: if the flag is set up to and
      including the j-th check, no earlier read fails and the j-th does, then
      exactly j + 1 reads are consumed and the loop returns that read's error;
      no later frame is processed. */
  lemma {:induction false} EventLoopStopsAtFirstError<E>(socket: Option<Transport>, running: seq<bool>, polls: seq<Poll>,
                                                         decode: string -> External<E>, handle: (seq<E>, E) -> Result<()>,
                                                         history: seq<E>, j: nat)
    requires socket.Some?
    requires j < |polls| && j < |running|
    requires forall i :: 0 <= i <= j ==> running[i]
    requires forall i :: 0 <= i < j ==> !FailsAt(decode, handle, history, polls, i)
    requires FailsAt(decode, handle, history, polls, j)
    ensures var r := EventLoop(socket, running, polls, decode, handle, history);
      && r.consumed == j + 1
      && r.exit == Returned(StepAt(decode, handle, history, polls, j).result)
      && r.handled == DeliveredAll(decode, polls[..j + 1])
    decreases j
  {
    var step := Iterate(decode, handle, history, polls[0]);
    StepAtZero(decode, handle, history, polls);
    IterateDelivers(decode, handle, history, polls[0]);
    DeliveredAllPrefix(decode, polls, j);
    if j == 0 {
      assert polls[1..][..0] == [];
    } else {
      var history' := history + AsSeq(step.handled);
      assert running[0] && !FailsAt(decode, handle, history, polls, 0);
      forall i | 0 <= i <= j - 1
        ensures running[1..][i] && (i < j - 1 ==> !FailsAt(decode, handle, history', polls[1..], i))
      {
        assert running[1..][i] == running[i + 1];
        if i < j - 1 {
          assert !FailsAt(decode, handle, history, polls, i + 1);
          StepAtShift(decode, handle, history, polls, i + 1);
        }
      }
      StepAtShift(decode, handle, history, polls, j);
      EventLoopStopsAtFirstError(socket, running[1..], polls[1..], decode, handle, history', j - 1);
    }
  }

  /** A close frame ends the loop with the disconnected error carrying its
      payload, whatever the handler would do. */
  lemma CloseFrameStopsLoop<E>(socket: Option<Transport>, running: seq<bool>, polls: seq<Poll>,
                               decode: string -> External<E>, handle: (seq<E>, E) -> Result<()>,
                               history: seq<E>, j: nat, payload: Option<CloseFrame>)
    requires socket.Some?
    requires j < |polls| && j < |running|
    requires forall i :: 0 <= i <= j ==> running[i]
    requires forall i :: 0 <= i < j ==> !FailsAt(decode, handle, history, polls, i)
    requires polls[j] == Some(Done(Close(payload)))
    ensures var r := EventLoop(socket, running, polls, decode, handle, history);
      r.consumed == j + 1 && r.exit == Returned(Err(Disconnected(payload)))
  {
    EventLoopStopsAtFirstError(socket, running, polls, decode, handle, history, j);
  }

  /** A handler error ends the loop at once and is returned unchanged. */
  lemma HandlerErrorStopsLoop<E>(socket: Option<Transport>, running: seq<bool>, polls: seq<Poll>,
                                 decode: string -> External<E>, handle: (seq<E>, E) -> Result<()>,
                                 history: seq<E>, j: nat, text: string, event: E, error: Error)
    requires socket.Some?
    requires j < |polls| && j < |running|
    requires forall i :: 0 <= i <= j ==> running[i]
    requires forall i :: 0 <= i < j ==> !FailsAt(decode, handle, history, polls, i)
    requires polls[j] == Some(Done(Text(text))) && |text| > 0 && decode(text) == Done(event)
    requires handle(history + DeliveredAll(decode, polls[..j]), event) == Err(error)
    ensures var r := EventLoop(socket, running, polls, decode, handle, history);
      && r.consumed == j + 1 && r.exit == Returned(Err(error))
      && r.handled == DeliveredAll(decode, polls[..j]) + [event]
  {
    EventLoopStopsAtFirstError(socket, running, polls, decode, handle, history, j);
    DeliveredAllSnoc(decode, polls, j);
  }

  lemma {:induction false} DeliveredAllSnoc<E>(decode: string -> External<E>, polls: seq<Poll>, j: nat)
    requires j < |polls|
    ensures DeliveredAll(decode, polls[..j + 1]) == DeliveredAll(decode, polls[..j]) + Delivered(decode, polls[j])
  {
    if j == 0 {
      assert polls[..1][1..] == [];
    } else {
      DeliveredAllPrefix(decode, polls, j);
      DeliveredAllPrefix(decode, polls, j - 1);
      DeliveredAllSnoc(decode, polls[1..], j - 1);
    }
  }

  /** If the flag is already clear at the first check, the loop returns Ok
      without reading anything. */
  lemma EventLoopStoppedFirst<E>(socket: Option<Transport>, running: seq<bool>, polls: seq<Poll>,
                                 decode: string -> External<E>, handle: (seq<E>, E) -> Result<()>,
                                 history: seq<E>)
    requires |running| > 0 && !running[0]
    ensures var r := EventLoop(socket, running, polls, decode, handle, history);
      r.handled == [] && r.consumed == 0 && r.exit == Returned(Ok(()))
  {
  }

  /** Without a connection every iteration is a no-op: nothing is read, the
      handler is never called, no error arises, and the loop returns Ok
      exactly when it finds the flag cleared. */
  lemma {:induction false} EventLoopWithoutConnection<E>(socket: Option<Transport>, running: seq<bool>, polls: seq<Poll>,
                                                         decode: string -> External<E>, handle: (seq<E>, E) -> Result<()>,
                                                         history: seq<E>)
    requires socket.None?
    ensures var r := EventLoop(socket, running, polls, decode, handle, history);
      && r.handled == [] && r.consumed == 0
      && (r.exit == Returned(Ok(())) <==> false in running)
      && (r.exit.StillRunning? <==> false !in running)
    decreases |running|
  {
    if |running| > 0 && running[0] {
      EventLoopWithoutConnection(socket, running[1..], polls, decode, handle, history);
      assert running == [running[0]] + running[1..];
    }
  }
}
