/** The single-slot process manager of processmanager/processmanager.go.
    Each method holds the manager's mutex for its whole body, so each is
    one atomic step here. Operating-system calls are not executed: the
    outcome of `Process.Kill` and of `Cmd.Start` is given as a parameter. */
module ProcessManagement {
  import opened Base

  /** An `*exec.Cmd`: the object's identity is the command's identity. */
  class Command {
    const path: string
    const args: seq<string>

    constructor (path: string, args: seq<string>)
      ensures this.path == path && this.args == args
    {
      this.path := path;
      this.args := args;
    }
  }

  /** What the manager asked of the operating system, and whether it worked. */
  datatype Event = Kill(cmd: Command, killed: bool) | Launch(cmd: Command, launched: bool)

  /** The manager's state: the slot, the commands started and not killed
      since, and the log of kill and launch attempts. */
  datatype PmState = PmState(current: Command?, live: set<Command>, log: seq<Event>)

  /** The commands the slot accounts for. */
  function Held(s: PmState): set<Command>
  {
    if s.current == null then {} else {s.current}
  }

  /** No leak: every started-and-not-killed command is the one in the slot. */
  predicate NoLeak(s: PmState)
  {
    s.live <= Held(s)
  }

  /** `StartProcess`: kill the held command first; if that fails, report
      it and do nothing else. Then start the new command; if that fails,
      report it and keep the slot as it is (possibly the killed command).
      Otherwise the new command takes the slot. */
  function StartStep(s: PmState, cmd: Command, kill: Outcome, start: Outcome): (PmState, Outcome)
  {
    if s.current != null && kill.Err? then
      (s.(log := s.log + [Kill(s.current, false)]), kill)
    else
      var s1 := if s.current == null then s
                else s.(live := s.live - {s.current}, log := s.log + [Kill(s.current, true)]);
      if start.Err? then
        (s1.(log := s1.log + [Launch(cmd, false)]), start)
      else
        (s1.(current := cmd, live := s1.live + {cmd}, log := s1.log + [Launch(cmd, true)]), Ok)
  }

  /** `StopCurrent`: kill the held command, discard the kill's error and
      empty the slot; nothing at all when the slot is empty. */
  function StopStep(s: PmState, kill: Outcome): PmState
  {
    if s.current == null then s
    else PmState(null, if kill.Ok? then s.live - {s.current} else s.live,
                 s.log + [Kill(s.current, kill.Ok?)])
  }

  class ProcessManager {
    var current: Command?
    ghost var Live: set<Command>
    ghost var Log: seq<Event>

    ghost function State(): PmState
      reads this
    {
      PmState(current, Live, Log)
    }

    /** `NewProcessManager`: nothing held, nothing started. */
    constructor ()
      ensures State() == PmState(null, {}, [])
    {
      current := null;
      Live := {};
      Log := [];
    }

    method StartProcess(cmd: Command, kill: Outcome, start: Outcome) returns (err: Outcome)
      modifies this
      ensures (State(), err) == StartStep(old(State()), cmd, kill, start)
    {
      if current != null {
        Log := Log + [Kill(current, kill.Ok?)];
        if kill.Err? {
          return kill;
        }
        Live := Live - {current};
      }
      Log := Log + [Launch(cmd, start.Ok?)];
      if start.Err? {
        return start;
      }
      Live := Live + {cmd};
      current := cmd;
      return Ok;
    }

    method StopCurrent(kill: Outcome)
      modifies this
      ensures State() == StopStep(old(State()), kill)
    {
      if current != null {
        Log := Log + [Kill(current, kill.Ok?)];
        if kill.Ok? {
          Live := Live - {current};
        }
        current := null;
      }
    }
  }

  /** With an empty slot no kill is attempted; a successful launch returns
      no error and puts exactly the new command in the slot. */
  lemma StartFromEmpty(s: PmState, cmd: Command, kill: Outcome, start: Outcome)
    requires s.current == null
    ensures StartStep(s, cmd, kill, start).0.log == s.log + [Launch(cmd, start.Ok?)]
    ensures start.Ok? ==>
      var (s', err) := StartStep(s, cmd, kill, start);
      err == Ok && s'.current == cmd && cmd in s'.live
  {
  }

  /** The held command's kill comes before the new command's launch, and a
      failed kill returns its error, launches nothing and keeps the slot. */
  lemma KillBeforeLaunch(s: PmState, cmd: Command, kill: Outcome, start: Outcome)
    requires s.current != null
    ensures var (s', err) := StartStep(s, cmd, kill, start);
      |s'.log| > |s.log| && s'.log[..|s.log|] == s.log && s'.log[|s.log|] == Kill(s.current, kill.Ok?)
      && (kill.Err? ==> err == kill && s' == s.(log := s.log + [Kill(s.current, false)]))
      && (kill.Ok? ==> s'.log == s.log + [Kill(s.current, true), Launch(cmd, start.Ok?)])
  {
  }

  /** A failed launch returns its error and leaves the slot as it was:
      after a successful kill that is the killed command, not an empty slot. */
  lemma LaunchFailureKeepsSlot(s: PmState, cmd: Command, kill: Outcome, start: Outcome)
    requires s.current == null || kill.Ok?
    requires start.Err?
    ensures StartStep(s, cmd, kill, start).1 == start
    ensures StartStep(s, cmd, kill, start).0.current == s.current
    ensures s.current != null ==> s.current !in StartStep(s, cmd, kill, start).0.live
  {
  }

  /** Starting A and then B, both successfully, leaves B in the slot and A
      killed (when they are different commands). */
  lemma ReplaceHoldsSecond(s: PmState, a: Command, b: Command, k1: Outcome, k2: Outcome)
    requires StartStep(s, a, k1, Ok).1 == Ok
    requires StartStep(StartStep(s, a, k1, Ok).0, b, k2, Ok).1 == Ok
    ensures var s2 := StartStep(StartStep(s, a, k1, Ok).0, b, k2, Ok).0;
      s2.current == b && b in s2.live && (a != b ==> a !in s2.live)
      && s2.log[|s2.log| - 2..] == [Kill(a, true), Launch(b, true)]
  {
  }

  /** StartProcess keeps the no-leak invariant whatever the outcomes. */
  lemma StartKeepsNoLeak(s: PmState, cmd: Command, kill: Outcome, start: Outcome)
    requires NoLeak(s)
    ensures NoLeak(StartStep(s, cmd, kill, start).0)
  {
  }

  /** StopCurrent always empties the slot. */
  lemma StopEmptiesSlot(s: PmState, kill: Outcome)
    ensures StopStep(s, kill).current == null
    ensures s.current == null ==> StopStep(s, kill) == s
  {
  }

  /** A second StopCurrent right after a first changes nothing. */
  lemma StopTwiceIsStopOnce(s: PmState, k1: Outcome, k2: Outcome)
    ensures StopStep(StopStep(s, k1), k2) == StopStep(s, k1)
  {
  }

  /** StopCurrent keeps the no-leak invariant exactly when the held command
      is gone afterwards: its kill worked, or it was not alive. A failed
      kill of a live command is discarded and the command leaks. */
  lemma StopNoLeak(s: PmState, kill: Outcome)
    requires NoLeak(s)
    ensures NoLeak(StopStep(s, kill)) <==> (s.current == null || kill.Ok? || s.current !in s.live)
  {
  }

  /** A manager operation with its operating-system outcomes. */
  datatype Op = StartOp(cmd: Command, kill: Outcome, start: Outcome) | StopOp(kill: Outcome)

  function Apply(s: PmState, op: Op): PmState
  {
    match op
    case StartOp(cmd, kill, start) => StartStep(s, cmd, kill, start).0
    case StopOp(kill) => StopStep(s, kill)
  }

  /** The state after a sequence of operations, applied in order. */
  function RunOps(s: PmState, ops: seq<Op>): PmState
    decreases |ops|
  {
    if ops == [] then s else RunOps(Apply(s, ops[0]), ops[1..])
  }

  /** Along any sequence of starts and stops in which no stop's kill fails,
      at most one started-and-not-killed command exists, and it is the
      one in the slot. */
  lemma {:induction false} NoLeakAlongRun(s: PmState, ops: seq<Op>)
    requires NoLeak(s)
    requires forall i :: 0 <= i < |ops| && ops[i].StopOp? ==> ops[i].kill.Ok?
    ensures NoLeak(RunOps(s, ops))
    ensures |RunOps(s, ops).live| <= 1
    decreases |ops|
  {
    if ops == [] {
      AtMostOneLive(s);
    } else {
      var s1 := Apply(s, ops[0]);
      match ops[0] {
        case StartOp(cmd, kill, start) => StartKeepsNoLeak(s, cmd, kill, start);
        case StopOp(kill) => StopNoLeak(s, kill);
      }
      assert forall i :: 0 <= i < |ops[1..]| ==> ops[1..][i] == ops[i + 1];
      NoLeakAlongRun(s1, ops[1..]);
    }
  }

  lemma AtMostOneLive(s: PmState)
    requires NoLeak(s)
    ensures |s.live| <= 1
  {
    if s.current != null {
      assert s.live <= {s.current};
      SubsetSize(s.live, {s.current});
    } else {
      assert s.live == {};
    }
  }

  lemma SubsetSize(a: set<Command>, b: set<Command>)
    requires a <= b
    ensures |a| <= |b|
  {
    assert b == a + (b - a);
  }
}
