/** The task record, its restart policy and its state machine (task/task.go, task/state_machine.go). */
module Tasks {

  // A 128-bit UUID read as one big-endian number, so byte order is numeric order.
  type Id = nat
  const NIL_ID: Id := 0

  type Address = string
  type ContainerId = string

  // Nanoseconds; 0 is the zero time, which no clock reading returns.
  type Time = nat
  type Instant = t: nat | 0 < t witness 1

  datatype State = Pending | Scheduled | Running | Completed | Failed

  datatype HealthCheck = NoCheck | HttpCheck | TcpCheck | ExecCheck

  datatype PortMapping = PortMapping(containerPort: int, hostPort: int, protocol: string)

  datatype Task = Task(
    id: Id,
    name: string,
    state: State,
    containerId: ContainerId,
    ports: seq<PortMapping>,
    hostPorts: seq<PortMapping>,
    policy: string,
    maxRestarts: int,
    restartCount: int,
    failureReason: string,
    manuallyStopped: bool,
    nextRetryAt: Time,
    startTime: Time,
    finishTime: Time,
    timeout: int,
    health: HealthCheck)
  {
    predicate IsTerminal() {
      state.Failed? && finishTime != 0
    }

    function EffectiveMaxRestarts(clusterDefault: int): int {
      if maxRestarts > 0 then maxRestarts else clusterDefault
    }

    predicate AtRestartCap(clusterDefault: int) {
      restartCount >= EffectiveMaxRestarts(clusterDefault)
    }
  }

  /** Every record is stored under its own id. */
  ghost predicate Keyed(tasks: map<Id, Task>) {
    forall id :: id in tasks ==> tasks[id].id == id
  }

  /** Every record but that of `id` is as it was. */
  ghost predicate OthersKept(tasks: map<Id, Task>, tasks': map<Id, Task>, id: Id) {
    && (forall x :: x in tasks && x != id ==> x in tasks' && tasks'[x] == tasks[x])
    && (forall x :: x in tasks' && x != id ==> x in tasks)
  }

  predicate ShouldRestart(policy: string) {
    policy in {"", "on-failure", "always", "unless-stopped"}
  }

  predicate ShouldRestartOnSuccess(policy: string) {
    policy in {"always", "unless-stopped"}
  }

  predicate ValidPolicy(policy: string) {
    policy in {"", "no", "always", "on-failure", "unless-stopped"}
  }

  /** The worker's transition table. */
  predicate ValidStateTransition(from: State, to: State) {
    match from
    case Pending => to in {Scheduled}
    case Scheduled => to in {Scheduled, Running, Failed}
    case Running => to in {Running, Scheduled, Completed, Failed}
    case Completed => to in {Scheduled, Completed}
    case Failed => to in {Scheduled, Completed}
  }

  datatype Event = Event(state: State, task: Task)

  /** An event is a stop as soon as either of its two states says Completed; otherwise it is a start. */
  predicate IsStop(e: Event) {
    e.state.Completed? || e.task.state.Completed?
  }
}
