/**
 * Clients of the adapter: phase sequences that use only the contracts in IoSources, and
 * what a scheduler can conclude about them.
 */
module IoSourcesScenarios {
  import opened Wrappers
  import opened IoSources

  /** One task that ends without error: the phase succeeds and the node then reports `Done`. */
  method NaturalFinish()
  {
    var source := SourceNode("scan", (isReceiverSerial: bool) => !isReceiverSerial, [Ok]);
    var node := new SourceComputeNode(source);
    var send := new PortState[1](_ => Blocked);
    var r := node.UpdateState([], send);
    assert send[0] == Ready;

    var sendPorts := new Option<SendPort>[1](_ => Some(SendPort(true, 4)));
    var tasks := node.Spawn([], sendPorts, []);
    assert tasks == [PhaseDriver(Serial(MorselSender(0)))];

    var phase := node.RunPhaseDriver(tasks[0], true, false);
    assert phase == Ok;
    r := node.UpdateState([], send);
    assert send[0] == Done;
    r := node.UpdateState([], send);
    assert send[0] == Done;
  }

  /**
   * A phase stopped early succeeds without awaiting the tasks; the next phase reuses the
   * started tasks, builds a parallel port for a parallel receiver, and runs to the end.
   */
  method StoppedThenResumed()
  {
    var source := SourceNode("scan", (isReceiverSerial: bool) => !isReceiverSerial, [Ok]);
    var node := new SourceComputeNode(source);
    var send := new PortState[1](_ => Blocked);

    var sendPorts := new Option<SendPort>[1](_ => Some(SendPort(false, 3)));
    var tasks := node.Spawn([], sendPorts, []);
    var started := node.started;
    assert tasks[0].port.Parallel? && |tasks[0].port.IntoParallel()| == 3;

    var phase := node.RunPhaseDriver(tasks[0], true, true);
    assert phase == Ok;
    var r := node.UpdateState([], send);
    assert send[0] == Ready;

    sendPorts[0] := Some(SendPort(false, 3));
    tasks := node.Spawn([], sendPorts, tasks);
    assert node.started == started && node.spawnSourceCalls == 1;
    phase := node.RunPhaseDriver(tasks[1], true, false);
    assert phase == Ok;
    r := node.UpdateState([], send);
    assert send[0] == Done;
  }

  /** Two tasks, the first to complete fails: the phase result is that task's error. */
  method FirstErrorWins(e: PolarsError, later: PolarsError)
  {
    var source := SourceNode("scan", (isReceiverSerial: bool) => false, [Err(e), Ok, Err(later)]);
    var node := new SourceComputeNode(source);
    var sendPorts := new Option<SendPort>[1](_ => Some(SendPort(false, 2)));
    var tasks := node.Spawn([], sendPorts, []);
    assert tasks[0].port.Serial?;

    var phase := node.RunPhaseDriver(tasks[0], true, false);
    DrainStopsAtFirstError([Err(e), Ok, Err(later)], 0);
    assert phase == Err(e);

    var send := new PortState[1](_ => Blocked);
    var r := node.UpdateState([], send);
    assert send[0] == Ready;
  }

  /** A producer that has already shut down: the send fails and the tasks are drained. */
  method ProducerAlreadyGone()
  {
    var source := SourceNode("scan", (isReceiverSerial: bool) => true, [Ok, Ok]);
    var node := new SourceComputeNode(source);
    var sendPorts := new Option<SendPort>[1](_ => Some(SendPort(true, 1)));
    var tasks := node.Spawn([], sendPorts, []);
    var phase := node.RunPhaseDriver(tasks[0], false, true);
    DrainAllSucceed([Ok, Ok]);
    assert phase == Ok;

    var send := new PortState[1](_ => Blocked);
    var r := node.UpdateState([], send);
    assert send[0] == Done;
  }

  /** Stopping through one clone of an outcome token is seen through every other clone. */
  method StopSeenByClones()
  {
    var outcome, waitGroup, output := SourceOutput.FromPort(Serial(MorselSender(0)));
    assert outcome.DidFinish();
    output.outcome.Clone().Stop();
    assert outcome.WasStopped() && !outcome.DidFinish();
    output.outcome.Stop();
    assert outcome.WasStopped();
  }
}
