/**
 * The adapter that turns a source node (a producer of morsels) into a compute node of the
 * streaming engine, with the small types it hands to the producer each phase.
 *
 * The engine's tasks are asynchronous; this model is their sequential abstraction:
 *  - a join handle is the result its task ends with, and the set of handles is the sequence
 *    of those results in the order the tasks complete;
 *  - sending the phase output through the single-slot connector is the boolean outcome of
 *    the send;
 *  - the wait group is a counter of the tokens not yet dropped;
 *  - what the producer does with a phase output it receives is one step,
 *    ConsumePhaseOutput, parameterised by whether it is stopped before it finishes.
 */
module IoSources {
  import opened Wrappers

  // ---------------------------------------------------------------------------------------
  // Results, ports and senders of the compute graph.

  datatype PolarsError = PolarsError(message: string)

  /** `PolarsResult<()>`. */
  datatype PolarsResult = Ok | Err(error: PolarsError)

  /** The readiness a compute node reports for one of its ports. */
  datatype PortState = Blocked | Ready | Done

  /** A receive port of the graph; a source node must not have any. */
  type RecvPort

  /** A `Sender<Morsel>`: the sending end of one lane towards the consumer. */
  datatype MorselSender = MorselSender(lane: nat)

  /** A send port of the graph: whether its receiver is serial, and how many lanes it has. */
  datatype SendPort = SendPort(isReceiverSerial: bool, numPipelines: nat) {

    /** The port as one sender. */
    function SerialSender(): (sender: MorselSender)
      ensures sender.lane == 0
    {
      MorselSender(0)
    }

    /** The port as one sender per pipeline. */
    function ParallelSenders(): (senders: seq<MorselSender>)
      ensures |senders| == numPipelines
      ensures forall i :: 0 <= i < |senders| ==> senders[i].lane == i
    {
      seq(numPipelines, (i: nat) => MorselSender(i))
    }
  }

  /** `SourceOutputPort`: the owned send port a producer writes into during one phase. */
  datatype SourceOutputPort = Serial(sender: MorselSender) | Parallel(senders: seq<MorselSender>) {

    /** `serial()`: the wrapped sender; on a `Parallel` port the source panics. */
    function IntoSerial(): (sender: MorselSender)
      requires Serial?
      ensures Serial(sender) == this
    {
      this.sender
    }

    /** `parallel()`: the wrapped senders; on a `Serial` port the source panics. */
    function IntoParallel(): (senders: seq<MorselSender>)
      requires Parallel?
      ensures Parallel(senders) == this
    {
      this.senders
    }
  }

  // ---------------------------------------------------------------------------------------
  // The phase outcome token: a one-way stop flag shared by all clones.

  /** The `Arc<AtomicBool>` inside a token: one heap cell that every clone refers to. */
  class StopFlag {
    var stopped: bool

    constructor ()
      ensures !stopped
    {
      stopped := false;
    }
  }

  /** `PhaseOutcomeToken`: `false` means finished, `true` means stopped before finishing. */
  datatype PhaseOutcomeToken = PhaseOutcomeToken(stop: StopFlag) {

    /** `PhaseOutcomeToken::new`. */
    static method New() returns (token: PhaseOutcomeToken)
      ensures fresh(token.stop)
      ensures !token.WasStopped() && token.DidFinish()
    {
      var flag := new StopFlag();
      token := PhaseOutcomeToken(flag);
    }

    /** The derived `Clone`: the clone shares the flag, so it observes every `Stop`. */
    function Clone(): (clone: PhaseOutcomeToken)
      ensures clone.stop == stop
      ensures clone.WasStopped() == WasStopped()
    {
      this
    }

    predicate WasStopped()
      reads stop
    {
      stop.stopped
    }

    predicate DidFinish()
      reads stop
      ensures DidFinish() <==> !WasStopped()
    {
      !WasStopped()
    }

    /** `stop`: idempotent, and nothing ever clears the flag again. */
    method Stop()
      modifies stop
      ensures WasStopped() && !DidFinish()
    {
      stop.stopped := true;
    }
  }

  // ---------------------------------------------------------------------------------------
  // The wait group: a counter of outstanding wait tokens.

  /** `WaitToken`: dropping it tells its group that one holder is done. */
  class WaitToken {
    const group: WaitGroup

    constructor (group: WaitGroup)
      ensures this.group == group
    {
      this.group := group;
    }
  }

  /** `WaitGroup`: `wait()` resolves once every token it issued has been dropped. */
  class WaitGroup {
    var outstanding: nat
    ghost var live: set<WaitToken>

    ghost predicate Valid()
      reads this
    {
      outstanding == |live| && forall t :: t in live ==> t.group == this
    }

    /** `WaitGroup::default`. */
    constructor ()
      ensures Valid() && live == {}
    {
      outstanding := 0;
      live := {};
    }

    /** `token()`: issue one more token. */
    method Token() returns (token: WaitToken)
      requires Valid()
      modifies this
      ensures Valid() && fresh(token) && token.group == this
      ensures live == old(live) + {token} && outstanding == old(outstanding) + 1
    {
      token := new WaitToken(this);
      live := live + {token};
      outstanding := outstanding + 1;
    }

    /** Dropping a live token issued by this group. */
    method Drop(token: WaitToken)
      requires Valid() && token in live
      modifies this
      ensures Valid()
      ensures live == old(live) - {token} && outstanding == old(outstanding) - 1
    {
      live := live - {token};
      outstanding := outstanding - 1;
    }

    /** Whether `wait()` resolves now: exactly when no issued token is still held. */
    predicate WaitResolves()
      reads this
      ensures Valid() ==> (WaitResolves() <==> live == {})
    {
      outstanding == 0
    }
  }

  // ---------------------------------------------------------------------------------------
  // The bundles handed to a producer for one phase.

  /** `SourceOutput`: what the producer receives through the connector for one phase. */
  datatype SourceOutput = SourceOutput(outcome: PhaseOutcomeToken, port: SourceOutputPort,
                                       waitToken: WaitToken)
  {
    /**
     * `SourceOutput::from_port`: a fresh outcome token, a fresh wait group, and an output
     * that holds a clone of the token and the group's only token.
     */
    static method FromPort(port: SourceOutputPort)
      returns (outcome: PhaseOutcomeToken, waitGroup: WaitGroup, output: SourceOutput)
      ensures fresh(outcome.stop) && !outcome.WasStopped()
      ensures fresh(waitGroup) && waitGroup.Valid() && waitGroup.live == {output.waitToken}
      ensures output.outcome.stop == outcome.stop && output.port == port
    {
      outcome := PhaseOutcomeToken.New();
      waitGroup := new WaitGroup();
      var token := waitGroup.Token();
      output := SourceOutput(outcome.Clone(), port, token);
    }
  }

  /** An opaque `SourceToken` naming where morsels come from. */
  type SourceToken(==)

  /** `MorselOutput`: the per-lane bundle a multi-lane producer uses. */
  datatype MorselOutput = MorselOutput(outcome: PhaseOutcomeToken, port: MorselSender,
                                       sourceToken: SourceToken, waitToken: WaitToken)
  {
    /** `MorselOutput::from_port`, the per-lane counterpart of `SourceOutput::from_port`. */
    static method FromPort(port: MorselSender, sourceToken: SourceToken)
      returns (outcome: PhaseOutcomeToken, waitGroup: WaitGroup, output: MorselOutput)
      ensures fresh(outcome.stop) && !outcome.WasStopped()
      ensures fresh(waitGroup) && waitGroup.Valid() && waitGroup.live == {output.waitToken}
      ensures output.outcome.stop == outcome.stop
      ensures output.port == port && output.sourceToken == sourceToken
    {
      outcome := PhaseOutcomeToken.New();
      waitGroup := new WaitGroup();
      var token := waitGroup.Token();
      output := MorselOutput(outcome.Clone(), port, sourceToken, token);
    }
  }

  /**
   * What a producer does with one phase output it receives: it is either stopped (it sets
   * the outcome to stopped) or runs out of data, and in both cases it drops the output,
   * and with it the output's wait token.
   */
  method ConsumePhaseOutput(output: SourceOutput, waitGroup: WaitGroup, stopRequested: bool)
    requires waitGroup.Valid() && output.waitToken in waitGroup.live
    modifies output.outcome.stop, waitGroup
    ensures waitGroup.Valid() && waitGroup.live == old(waitGroup.live) - {output.waitToken}
    ensures output.outcome.WasStopped() == (old(output.outcome.WasStopped()) || stopRequested)
  {
    if stopRequested {
      output.outcome.Stop();
    }
    waitGroup.Drop(output.waitToken);
  }

  // ---------------------------------------------------------------------------------------
  // Pure specifications of the adapter's decisions.

  /** A source node as the adapter sees it. */
  datatype SourceNode = SourceNode(
    name: string,
    /** `is_source_output_parallel(is_receiver_serial)`. */
    isSourceOutputParallel: bool -> bool,
    /** What `spawn_source` registers: its tasks' results, in the order they complete. */
    spawnedTasks: seq<PolarsResult>)

  /** The state of the single send port after `update_state`. */
  function NextSendState(current: PortState, exhausted: bool): (next: PortState)
    ensures next == Done <==> current == Done || exhausted
    ensures next == Ready <==> current != Done && !exhausted
    ensures next != Blocked
  {
    if exhausted || current == Done then Done else Ready
  }

  /** The output port shape `spawn` builds from the send port. */
  function ChooseOutputPort(source: SourceNode, send: SendPort): (port: SourceOutputPort)
    ensures port.Parallel? <==> source.isSourceOutputParallel(send.isReceiverSerial)
    ensures port.Parallel? ==> |port.senders| == send.numPipelines
    ensures port.Parallel? ==> port.IntoParallel() == send.ParallelSenders()
    ensures port.Serial? ==> port.IntoSerial() == send.SerialSender()
  {
    if source.isSourceOutputParallel(send.isReceiverSerial) then
      Parallel(send.ParallelSenders())
    else
      Serial(send.SerialSender())
  }

  /**
   * The result of draining the join handles with `while let Some(ret) = next() { ret?; }`:
   * the first error in completion order, or `Ok` when every task succeeded.
   */
  function FirstError(handles: seq<PolarsResult>): (result: PolarsResult)
    ensures result.Err? <==> exists i :: 0 <= i < |handles| && handles[i].Err?
    ensures result.Err? ==> result in handles
  {
    if handles == [] then Ok
    else if handles[0].Err? then handles[0]
    else
      assert forall i :: 0 < i < |handles| ==> handles[i] == handles[1..][i - 1];
      FirstError(handles[1..])
  }

  /**
   * The handles still held after that drain: none when every task succeeded, and those
   * after the first failing one otherwise, since `?` returns without dropping them.
   */
  function RemainingAfterDrain(handles: seq<PolarsResult>): (rest: seq<PolarsResult>)
    ensures |rest| <= |handles| && rest == handles[|handles| - |rest|..]
    ensures handles != [] ==> |rest| < |handles|
  {
    if handles == [] then []
    else if handles[0].Err? then handles[1..]
    else RemainingAfterDrain(handles[1..])
  }

  /** If the handle at `i` is the first to fail, the drain returns its error and keeps the rest. */
  lemma {:induction false} DrainStopsAtFirstError(handles: seq<PolarsResult>, i: nat)
    requires i < |handles| && handles[i].Err?
    requires forall j :: 0 <= j < i ==> handles[j].Ok?
    ensures FirstError(handles) == handles[i]
    ensures RemainingAfterDrain(handles) == handles[i + 1..]
  {
    if i > 0 {
      assert handles[1..][i - 1] == handles[i];
      assert handles[1..][i..] == handles[i + 1..];
      DrainStopsAtFirstError(handles[1..], i - 1);
    }
  }

  /** When every task succeeds, the drain returns `Ok` and empties the handle set. */
  lemma {:induction false} DrainAllSucceed(handles: seq<PolarsResult>)
    requires forall j :: 0 <= j < |handles| ==> handles[j].Ok?
    ensures FirstError(handles) == Ok
    ensures RemainingAfterDrain(handles) == []
  {
    if handles != [] {
      assert forall j :: 0 <= j < |handles| - 1 ==> handles[1..][j] == handles[j + 1];
      DrainAllSucceed(handles[1..]);
    }
  }

  /** The drain leaves nothing behind exactly when it fails on the last handle or not at all. */
  lemma {:induction false} DrainEmptiesHandles(handles: seq<PolarsResult>)
    ensures RemainingAfterDrain(handles) == [] <==>
      (FirstError(handles) == Ok || (handles != [] && handles[|handles| - 1] == FirstError(handles)
        && forall j :: 0 <= j < |handles| - 1 ==> handles[j].Ok?))
  {
    if handles != [] && handles[0].Ok? {
      var tail := handles[1..];
      DrainEmptiesHandles(tail);
      assert forall j :: 0 <= j < |tail| ==> tail[j] == handles[j + 1];
      if tail != [] {
        assert tail[|tail| - 1] == handles[|handles| - 1];
      }
    }
  }

  // ---------------------------------------------------------------------------------------
  // The adapter.

  /** `StartedSourceComputeNode`: the state kept once the producer's tasks are spawned. */
  class StartedSourceComputeNode {
    /** The join handles not yet awaited, as their results in completion order. */
    var joinHandles: seq<PolarsResult>

    constructor (joinHandles: seq<PolarsResult>)
      ensures this.joinHandles == joinHandles
    {
      this.joinHandles := joinHandles;
    }

    /** Await the handles one by one, returning at the first error. */
    method DrainJoinHandles() returns (result: PolarsResult)
      modifies this
      ensures result == FirstError(old(joinHandles))
      ensures joinHandles == RemainingAfterDrain(old(joinHandles))
    {
      while joinHandles != []
        invariant FirstError(joinHandles) == FirstError(old(joinHandles))
        invariant RemainingAfterDrain(joinHandles) == RemainingAfterDrain(old(joinHandles))
        decreases |joinHandles|
      {
        var ret := joinHandles[0];
        joinHandles := joinHandles[1..];
        if ret.Err? {
          return ret;
        }
      }
      result := Ok;
    }
  }

  /** The driving task `spawn` registers for one phase, before it is run. */
  datatype PhaseTask = PhaseDriver(port: SourceOutputPort)

  /** `SourceComputeNode`: wraps a source node and starts its tasks lazily, exactly once. */
  class SourceComputeNode {
    const source: SourceNode
    var started: Option<StartedSourceComputeNode>
    /** How often `spawn_source` has been called. */
    ghost var spawnSourceCalls: nat

    ghost predicate Valid()
      reads this
    {
      spawnSourceCalls == if started.Some? then 1 else 0
    }

    /** `SourceComputeNode::new`. */
    constructor (source: SourceNode)
      ensures Valid() && this.source == source && started == None
    {
      this.source := source;
      started := None;
      spawnSourceCalls := 0;
    }

    /** Started, and every background task has been awaited. */
    predicate IsExhausted()
      reads this, if started.Some? then {started.value} else {}
    {
      started.Some? && started.value.joinHandles == []
    }

    /** `update_state`: the single send port is `Done` once the tasks are exhausted, else `Ready`. */
    method UpdateState(recv: seq<PortState>, send: array<PortState>) returns (result: PolarsResult)
      requires |recv| == 0 && send.Length == 1
      modifies send
      ensures result == Ok
      ensures send[0] == NextSendState(old(send[0]), IsExhausted())
    {
      if started.Some? && started.value.joinHandles == [] {
        send[0] := Done;
      }
      if send[0] != Done {
        send[0] := Ready;
      }
      result := Ok;
    }

    /**
     * `spawn`: start the producer if it has not been started, take the send port, and
     * register a driving task over the output port shape the producer prefers.
     */
    method Spawn(recvPorts: seq<Option<RecvPort>>, sendPorts: array<Option<SendPort>>,
                 joinHandles: seq<PhaseTask>)
      returns (joinHandlesOut: seq<PhaseTask>)
      requires Valid()
      requires |recvPorts| == 0 && sendPorts.Length == 1 && sendPorts[0].Some?
      modifies this, sendPorts
      ensures Valid() && started.Some? && spawnSourceCalls == 1
      ensures old(started).Some? ==> started == old(started)
      ensures old(started).None? ==>
        fresh(started.value) && started.value.joinHandles == source.spawnedTasks
      ensures sendPorts[0] == None
      ensures joinHandlesOut ==
        joinHandles + [PhaseDriver(ChooseOutputPort(source, old(sendPorts[0]).value))]
    {
      if started.None? {
        var handles := new StartedSourceComputeNode(source.spawnedTasks);
        spawnSourceCalls := spawnSourceCalls + 1;
        started := Some(handles);
      }
      var send := sendPorts[0].value;
      sendPorts[0] := None;
      var sourceOutput;
      if source.isSourceOutputParallel(send.isReceiverSerial) {
        sourceOutput := Parallel(send.ParallelSenders());
      } else {
        sourceOutput := Serial(send.SerialSender());
      }
      joinHandlesOut := joinHandles + [PhaseDriver(sourceOutput)];
    }

    /**
     * Run the driving task of one phase. `handoffSent` is whether the producer still
     * receives on the connector; `producerStops` is whether the phase is stopped before
     * the producer runs out of data.
     */
    method RunPhaseDriver(task: PhaseTask, handoffSent: bool, producerStops: bool)
      returns (result: PolarsResult)
      requires Valid() && started.Some?
      modifies started.value
      ensures handoffSent && producerStops ==>
        result == Ok && started.value.joinHandles == old(started.value.joinHandles)
      ensures !(handoffSent && producerStops) ==>
        result == FirstError(old(started.value.joinHandles)) &&
        started.value.joinHandles == RemainingAfterDrain(old(started.value.joinHandles))
      ensures old(IsExhausted()) ==> IsExhausted()
    {
      var st := started.value;
      var outcome, waitGroup, output := SourceOutput.FromPort(task.port);
      if handoffSent {
        ConsumePhaseOutput(output, waitGroup, producerStops);
        assert waitGroup.WaitResolves();
        if !outcome.DidFinish() {
          return Ok;
        }
      } else {
        // The failed send hands the output back, and it is dropped at once.
        waitGroup.Drop(output.waitToken);
      }
      result := st.DrainJoinHandles();
    }
  }

  // ---------------------------------------------------------------------------------------
  // Properties of the readiness rule.

  /** Calling `update_state` twice gives the same port state as calling it once. */
  lemma UpdateStateIdempotent(current: PortState, exhausted: bool)
    ensures NextSendState(NextSendState(current, exhausted), exhausted) ==
      NextSendState(current, exhausted)
  {
  }

  /** `Done` is sticky: no later readiness check turns it back into `Ready`. */
  lemma DoneIsSticky(exhausted: bool)
    ensures NextSendState(Done, exhausted) == Done
  {
  }
}
