/**
 The log file from its creation on. `open_or_create` (include/EventLog.h) creates a missing
 file in four steps: it creates the name, extends the file with zeros, stores the magic
 number and stores the header. The process may crash between any two of them, as it may
 between any two stores of `LogProtocol`, and start again.
 */
module LogCreation {
  import opened EventLogs
  import opened LogProtocol
  import opened OrderManagers
  import opened PositionTrackers

  /** What is on disk. */
  datatype Stage =
    | Missing
    | Created    // an empty file: nothing of it can be read
    | Extended   // all zeros
    | Marked     // the magic number is stored

  datatype Process = Down | Creating | Running

  /** `log` is the mapped file and the process on it, once both exist. */
  datatype Machine = Machine(stage: Stage, process: Process, log: System)

  datatype Move =
    | Open         // `access`, `open` and, for a file that existed, the check of the magic number
    | Extend
    | StoreMagic
    | FirstHeader  // the header and `next_seq_`: the log is open
    | Crash
    | Work(a: Action)

  /** A process that finds an unreadable file or another magic number ends at once; whoever
      finds the right one resumes from the header. */
  function AfterMove(m: Machine, move: Move): (after: Machine) {
    match move
    case Open =>
      if m.process != Down then m
      else
        (match m.stage
         case Missing => m.(stage := Created, process := Creating)
         case Created => m
         case Extended => m
         case Marked => m.(process := Running, log := Next(m.log, Restart)))
    case Extend => if m.process == Creating && m.stage == Created then m.(stage := Extended) else m
    case StoreMagic => if m.process == Creating && m.stage == Extended then m.(stage := Marked) else m
    case FirstHeader =>
      if m.process == Creating && m.stage == Marked
      then m.(process := Running, log := m.log.(header := 0, nextSeq := 0)) else m
    case Crash => m.(process := Down)
    case Work(a) => if m.process == Running && !a.Restart? then m.(log := Next(m.log, a)) else m
  }

  function Moves(m: Machine, moves: seq<Move>): (after: Machine) {
    if moves == [] then m else AfterMove(Moves(m, moves[..|moves| - 1]), moves[|moves| - 1])
  }

  /** No file, no process, and a mapping that will be all zeros. */
  ghost predicate Untouched(m: Machine) {
    m.stage == Missing && m.process == Down && Initial(m.log)
  }

  /** Until the header is stored for the first time nothing has been logged; from then on
      the log is as consistent as its protocol keeps it. A running process has a whole
      file. */
  ghost predicate Sound(m: Machine) {
    && LogOk(m.log) && ReadersOk(m.log) && TablesOk(m.log)
    && (m.stage != Marked || m.process == Creating ==> Initial(m.log))
    && (m.process == Running ==> m.stage == Marked)
    && (m.process == Creating ==> m.stage != Missing)
  }

  lemma InitialSound(s: System)
    requires Initial(s)
    ensures LogOk(s) && ReadersOk(s) && TablesOk(s)
  {
    AlwaysConsistent(s, []);
  }

  lemma SoundMove(m: Machine, move: Move)
    requires Sound(m)
    ensures Sound(AfterMove(m, move))
  {
    hide LogOk, ReadersOk, TablesOk, Next;
    match move {
      case Open =>
        LogOkNext(m.log, Restart);
        ReadersOkNext(m.log, Restart);
        TablesOkNext(m.log, Restart);
      case Work(a) =>
        LogOkNext(m.log, a);
        ReadersOkNext(m.log, a);
        TablesOkNext(m.log, a);
      case FirstHeader =>
        assert Initial(m.log) ==> m.log.(header := 0, nextSeq := 0) == m.log;
      case _ =>
    }
  }

  /** From nothing, through any creations, crashes, reopenings and work in between: whenever
      a process runs it is on a whole file with a consistent log. */
  lemma {:induction false} CreatedLogIsSound(m: Machine, moves: seq<Move>)
    requires Untouched(m)
    ensures Sound(Moves(m, moves))
  {
    hide LogOk, ReadersOk, TablesOk;
    if moves == [] {
      InitialSound(m.log);
    } else {
      hide AfterMove, Sound;
      CreatedLogIsSound(m, moves[..|moves| - 1]);
      SoundMove(Moves(m, moves[..|moves| - 1]), moves[|moves| - 1]);
    }
  }

  /** A file that was created but not marked, with nobody at work on it, stays so. */
  lemma {:induction false} DeadFileStaysDead(m: Machine, moves: seq<Move>)
    requires m.process == Down && m.stage in {Created, Extended}
    ensures Moves(m, moves) == m
  {
    if moves != [] {
      hide Next;
      DeadFileStaysDead(m, moves[..|moves| - 1]);
    }
  }

  /** Can some process still get to run on this file? */
  ghost predicate CanRun(m: Machine) {
    exists moves :: Moves(m, moves).process == Running
  }

  lemma MovesSnoc(m: Machine, moves: seq<Move>, move: Move)
    ensures Moves(m, moves + [move]) == AfterMove(Moves(m, moves), move)
  {
    hide AfterMove;
    assert (moves + [move])[..|moves|] == moves;
  }

  lemma FreshFileRuns(m: Machine)
    requires m.process == Down && m.stage == Missing
    ensures Moves(m, [Open, Extend, StoreMagic, FirstHeader])
            == Machine(Marked, Running, m.log.(header := 0, nextSeq := 0))
  {
    hide Next;
    MovesSnoc(m, [], Open);
    MovesSnoc(m, [Open], Extend);
    MovesSnoc(m, [Open, Extend], StoreMagic);
    MovesSnoc(m, [Open, Extend, StoreMagic], FirstHeader);
    assert [] + [Open] == [Open] && [Open] + [Extend] == [Open, Extend];
    assert [Open, Extend] + [StoreMagic] == [Open, Extend, StoreMagic];
    assert [Open, Extend, StoreMagic] + [FirstHeader] == [Open, Extend, StoreMagic, FirstHeader];
  }

  /** The actions of a process at work. */
  function Works(actions: seq<Action>): (moves: seq<Move>) {
    if actions == [] then [] else Works(actions[..|actions| - 1]) + [Work(actions[|actions| - 1])]
  }

  /** Once a process runs, its log goes through the protocol's own steps. */
  lemma {:induction false} WorkFollowsProtocol(m: Machine, actions: seq<Action>)
    requires m.process == Running && forall i :: 0 <= i < |actions| ==> !actions[i].Restart?
    ensures Moves(m, Works(actions)) == m.(log := Run(m.log, actions))
  {
    if actions == [] {
      NoMoves(m);
    } else {
      hide Moves, Next;
      var init := actions[..|actions| - 1];
      WorkFollowsProtocol(m, init);
      MovesSnoc(m, Works(init), Work(actions[|actions| - 1]));
    }
  }

  /** After a crash some process can open the log again exactly when the file had not been
      created yet or its magic number had been stored. In between the file is lost: every
      later process refuses it or dies on it. */
  lemma OpensAgainIff(m: Machine)
    requires m.process == Down
    ensures CanRun(m) <==> m.stage in {Missing, Marked}
  {
    hide Moves, Next;
    match m.stage {
      case Missing =>
        FreshFileRuns(m);
      case Marked =>
        MovesSnoc(m, [], Open);
        NoMoves(m);
        assert Moves(m, [] + [Open]).process == Running;
      case _ =>
        forall moves: seq<Move>
          ensures Moves(m, moves).process != Running
        {
          DeadFileStaysDead(m, moves);
        }
    }
  }

  lemma NoMoves(m: Machine)
    ensures Moves(m, []) == m
  {
  }

  /** The crashes that lose it: right after creating the name, and right after extending. */
  lemma CrashBeforeMagic(m: Machine)
    requires Untouched(m)
    ensures Moves(m, [Open, Crash]).stage == Created && !CanRun(Moves(m, [Open, Crash]))
    ensures Moves(m, [Open, Extend, Crash]).stage == Extended && !CanRun(Moves(m, [Open, Extend, Crash]))
  {
    hide CanRun, Next, Initial;
    MovesSnoc(m, [], Open);
    NoMoves(m);
    MovesSnoc(m, [Open], Crash);
    MovesSnoc(m, [Open], Extend);
    MovesSnoc(m, [Open, Extend], Crash);
    assert [] + [Open] == [Open] && [Open] + [Crash] == [Open, Crash];
    assert [Open] + [Extend] == [Open, Extend] && [Open, Extend] + [Crash] == [Open, Extend, Crash];
    hide Moves;
    OpensAgainIff(Moves(m, [Open, Crash]));
    OpensAgainIff(Moves(m, [Open, Extend, Crash]));
  }

  /** What reopening a marked file gives back: the durable log, and both tables rebuilt from
      all of it. A crash between the magic number and the first header gives the empty log. */
  lemma ReopenedLog(m: Machine)
    requires Sound(m) && m.process == Down && m.stage == Marked
    ensures var after := AfterMove(m, Open);
            && Sound(after) && after.process == Running
            && m.log.header <= |m.log.slots| && after.log.nextSeq <= |after.log.slots|
            && after.log.Log() == m.log.Durable()
            && after.log.positions == ReplayPositions([], m.log.Durable())
            && after.log.orders == ReplayOrders([], m.log.Durable())
  {
    SoundMove(m, Open);
    hide ReplayPositions, ReplayOrders, ReadersOk, TablesOk, Sequenced;
  }
}
