/** The command pool and the token that keeps rounds apart: a round may start when it is the
    first one or when the previous timer has reported its end. */
module Pacemakers {
  import opened Messages

  /** `first` is set until the first round has started, `signals` counts what is waiting in the
      channel of capacity one, `timers` the rounds that are running. */
  datatype Pace = Pace(pending: seq<Command>, first: bool, signals: nat, timers: nat)

  const CHANNEL_CAPACITY := 1
  const INITIAL_COMMANDS := 1000

  /** The pool starts with as many empty commands. */
  function InitialPace(): Pace {
    Pace(seq(INITIAL_COMMANDS, _ => ""), true, 0, 0)
  }

  function FirstRound(p: Pace): Pace {
    if p.first then p.(timers := p.timers + 1, first := false) else p
  }

  function NextRound(p: Pace): Pace {
    if p.signals == 1 then p.(signals := p.signals - 1, timers := p.timers + 1) else p
  }

  function Added(p: Pace, cmd: Command, size: nat): Pace {
    var p' := p.(pending := p.pending + [cmd]);
    if |p'.pending| >= size then NextRound(FirstRound(p')) else p'
  }

  /** The newest commands go first: what is handed out is what the pool loses at its end. */
  function Batch(p: Pace, size: nat): (r: Option<seq<Command>>)
    ensures r.None? <==> |p.pending| < size
    ensures r.Some? ==> |r.value| == size && Taken(p, size).pending + r.value == p.pending
  {
    if |p.pending| < size then None else Some(p.pending[|p.pending| - size..])
  }

  function Taken(p: Pace, size: nat): Pace {
    if |p.pending| < size then p else p.(pending := p.pending[..|p.pending| - size])
  }

  /** A timer runs out and its callback reports the end of the round. */
  function Fired(p: Pace): Pace
    requires p.timers > 0
  {
    p.(timers := p.timers - 1, signals := p.signals + 1)
  }

  class Pacemaker {
    const blockSize: nat
    var pendingCommands: seq<Command>
    var gcallFuncFinish: bool
    var syncChannel: nat
    var runningTimers: nat

    function State(): Pace
      reads this
    {
      Pace(pendingCommands, gcallFuncFinish, syncChannel, runningTimers)
    }

    constructor (blockSize: nat)
      ensures State() == InitialPace() && this.blockSize == blockSize
    {
      this.blockSize := blockSize;
      pendingCommands := seq(INITIAL_COMMANDS, _ => "");
      gcallFuncFinish, syncChannel, runningTimers := true, 0, 0;
    }

    method StartConsensusTimer()
      modifies this`runningTimers
      ensures runningTimers == old(runningTimers) + 1
    {
      runningTimers := runningTimers + 1;
    }

    method AddCmdsAndStartTimerIfSufficientCommands(cmd: Command)
      modifies this
      ensures State() == Added(old(State()), cmd, blockSize)
    {
      pendingCommands := pendingCommands + [cmd];
      if |pendingCommands| >= blockSize {
        if gcallFuncFinish {
          StartConsensusTimer();
          gcallFuncFinish := false;
        }
        if syncChannel == 1 {
          syncChannel := syncChannel - 1;
          StartConsensusTimer();
        }
      }
    }

    method GetCmdsIfSufficient() returns (cmds: Option<seq<Command>>)
      modifies this
      ensures cmds == Batch(old(State()), blockSize) && State() == Taken(old(State()), blockSize)
      ensures cmds.Some? ==> pendingCommands + cmds.value == old(pendingCommands) && |cmds.value| == blockSize
      ensures cmds.None? ==> pendingCommands == old(pendingCommands) && |pendingCommands| < blockSize
    {
      var numCmds := |pendingCommands|;
      if numCmds < blockSize {
        return None;
      }
      cmds := Some(pendingCommands[numCmds - blockSize..]);
      pendingCommands := pendingCommands[..numCmds - blockSize];
    }

    /** The callback's last act. The send needs room in the channel. */
    method Callback()
      requires runningTimers > 0 && syncChannel < CHANNEL_CAPACITY
      modifies this
      ensures State() == Fired(old(State()))
    {
      runningTimers := runningTimers - 1;
      syncChannel := syncChannel + 1;
    }
  }

  // Runs of the pacemaker

  datatype Event = Add(cmd: Command) | Take | Fire

  predicate CanHappen(p: Pace, e: Event) {
    e.Fire? ==> p.timers > 0
  }

  function After(p: Pace, e: Event, size: nat): Pace
    requires CanHappen(p, e)
  {
    match e
    case Add(cmd) => Added(p, cmd, size)
    case Take => Taken(p, size)
    case Fire => Fired(p)
  }

  /** The states of a run, one more than there are events. */
  ghost predicate IsPaceRun(ps: seq<Pace>, es: seq<Event>, size: nat) {
    && |ps| == |es| + 1 && ps[0] == InitialPace()
    && forall k :: 0 <= k < |es| ==> CanHappen(ps[k], es[k]) && ps[k + 1] == After(ps[k], es[k], size)
  }

  function Token(p: Pace): nat {
    (if p.first then 1 else 0) + p.signals + p.timers
  }

  lemma TokenKept(p: Pace, e: Event, size: nat)
    requires CanHappen(p, e)
    ensures Token(After(p, e, size)) == Token(p)
  {}

  /** There is exactly one token at all times: rounds never overlap, and when a timer fires there
      is room in the channel for its report. */
  lemma {:induction false} OneToken(ps: seq<Pace>, es: seq<Event>, size: nat, k: nat)
    requires IsPaceRun(ps, es, size) && k < |ps|
    ensures Token(ps[k]) == 1 && ps[k].timers <= 1
    ensures ps[k].timers > 0 ==> ps[k].signals < CHANNEL_CAPACITY
    decreases k
  {
    if k > 0 {
      OneToken(ps, es, size, k - 1);
      TokenKept(ps[k - 1], es[k - 1], size);
    }
  }

  /** With enough commands in the pool, a round is running after every new command. */
  lemma {:induction false} EnoughCommandsRun(ps: seq<Pace>, es: seq<Event>, size: nat, k: nat)
    requires IsPaceRun(ps, es, size) && k < |es| && es[k].Add? && |ps[k].pending| + 1 >= size
    ensures ps[k + 1].timers == 1 && ps[k + 1].signals == 0
  {
    OneToken(ps, es, size, k);
  }

  /** A round starts with a new command, and exactly when none is running and the pool then has a
      block's worth; taking commands does not start one, and a timer that fires ends one. */
  lemma {:induction false} RoundStartsIff(ps: seq<Pace>, es: seq<Event>, size: nat, k: nat)
    requires IsPaceRun(ps, es, size) && k < |es|
    ensures ps[k + 1].timers > ps[k].timers <==> es[k].Add? && ps[k].timers == 0 && |ps[k].pending| + 1 >= size
    ensures ps[k + 1].timers < ps[k].timers <==> es[k].Fire?
    ensures ps[k + 1].timers <= 1
  {
    OneToken(ps, es, size, k);
    OneToken(ps, es, size, k + 1);
  }

  /** The pool is filled from the start: up to a block size of 1001 the first command already
      starts a round. */
  lemma FirstCommandStarts(ps: seq<Pace>, es: seq<Event>, size: nat)
    requires IsPaceRun(ps, es, size) && |es| > 0 && es[0].Add?
    ensures ps[1].timers == 1 <==> size <= 1001
  {
    assert ps[1] == After(ps[0], es[0], size);
  }

  ghost function BatchOf(p: Pace, e: Event, size: nat): multiset<Command> {
    if e.Take? && Batch(p, size).Some? then multiset(Batch(p, size).value) else multiset{}
  }

  ghost function AddedBy(e: Event): multiset<Command> {
    if e.Add? then multiset{e.cmd} else multiset{}
  }

  ghost function AllTaken(ps: seq<Pace>, es: seq<Event>, size: nat, k: nat): multiset<Command>
    requires k <= |es| < |ps|
  {
    if k == 0 then multiset{} else AllTaken(ps, es, size, k - 1) + BatchOf(ps[k - 1], es[k - 1], size)
  }

  ghost function AllAdded(es: seq<Event>, k: nat): multiset<Command>
    requires k <= |es|
  {
    if k == 0 then multiset{} else AllAdded(es, k - 1) + AddedBy(es[k - 1])
  }

  lemma StepConserves(p: Pace, e: Event, size: nat)
    requires CanHappen(p, e)
    ensures multiset(p.pending) + AddedBy(e) == multiset(After(p, e, size).pending) + BatchOf(p, e, size)
    ensures e.Take? ==> |BatchOf(p, e, size)| == if |p.pending| >= size then size else 0
  {
    if e.Take? && |p.pending| >= size {
      assert p.pending == Taken(p, size).pending + Batch(p, size).value;
    }
  }

  lemma Balance(start: multiset<Command>, added: multiset<Command>, pending: multiset<Command>,
                taken: multiset<Command>,
                more: multiset<Command>, pending': multiset<Command>, batch: multiset<Command>)
    requires start + added == pending + taken && pending + more == pending' + batch
    ensures start + (added + more) == pending' + (taken + batch)
  {
    calc {
      start + (added + more);
      (start + added) + more;
      (pending + taken) + more;
      (pending + more) + taken;
      (pending' + batch) + taken;
      pending' + (taken + batch);
    }
  }

  /** No command is lost, duplicated or taken twice: at any time the initial and the added ones
      are those still pending and those of the batches taken. */
  lemma {:induction false} CommandsConserved(ps: seq<Pace>, es: seq<Event>, size: nat, k: nat)
    requires IsPaceRun(ps, es, size) && k < |ps|
    ensures multiset(ps[0].pending) + AllAdded(es, k) == multiset(ps[k].pending) + AllTaken(ps, es, size, k)
    decreases k
  {
    if k > 0 {
      CommandsConserved(ps, es, size, k - 1);
      StepConserves(ps[k - 1], es[k - 1], size);
      Balance(multiset(ps[0].pending), AllAdded(es, k - 1), multiset(ps[k - 1].pending), AllTaken(ps, es, size, k - 1),
              AddedBy(es[k - 1]), multiset(ps[k].pending), BatchOf(ps[k - 1], es[k - 1], size));
    }
  }
}
