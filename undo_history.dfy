/** The undo/redo timeline shared by `HistorySystem` and `CommandManager`: a
    list of executed commands and the index of the last one in effect. The
    commands themselves are opaque here; what they do to the scene is modelled
    by the command modules, and whether a call throws is a parameter. */
module UndoHistory {
  import opened Geometry

  /** A command object as the history sees it: which of `execute` and `undo`
      it has as functions. */
  datatype Command = Command(id: nat, hasExecute: bool, hasUndo: bool)

  /** A call the history made on a command, in order. */
  datatype Call = Executed(id: nat) | Undone(id: nat)

  /** Whether a command's `execute`/`undo` returned or threw. */
  datatype Outcome = Returned | Threw

  /** The history list and the index of the current command (-1: none). */
  datatype Timeline = Timeline(commands: seq<Command>, index: int) {
    /** The index always names a command, or is -1. */
    predicate Valid() {
      -1 <= index < |commands|
    }

    predicate CanUndo() {
      index >= 0
    }

    predicate CanRedo() {
      index < |commands| - 1
    }
  }

  const EmptyTimeline: Timeline := Timeline([], -1)

  /** Executing after undos first cuts off the undone commands. */
  function DropRedoBranch(t: Timeline): (r: Timeline)
    requires t.Valid()
    ensures r.Valid() && !r.CanRedo()
    ensures r.index == t.index && r.commands == t.commands[..t.index + 1]
  {
    if t.index < |t.commands| - 1 then Timeline(t.commands[..t.index + 1], t.index) else t
  }

  /** A successfully executed command becomes the current, last entry; the
      commands before it are kept. */
  function Push(t: Timeline, cmd: Command): (r: Timeline)
    requires t.Valid()
    ensures r.Valid() && !r.CanRedo() && r.CanUndo()
    ensures r.index == t.index + 1 && r.commands == t.commands[..t.index + 1] + [cmd]
  {
    var d := DropRedoBranch(t);
    Timeline(d.commands + [cmd], d.index + 1)
  }

  /** `HistorySystem.execute` accepts only a non-null value with an `execute` function. */
  predicate Executable(cmd: Option<Command>) {
    cmd.Some? && cmd.value.hasExecute
  }

  /** `HistorySystem.execute`: an invalid command changes nothing; otherwise the
      redo branch is cut before the call, and the command is recorded only if
      its `execute` returned (the exception is caught). */
  function HistoryExecute(t: Timeline, cmd: Option<Command>, outcome: Outcome): (r: Timeline)
    requires t.Valid()
    ensures r.Valid()
    ensures !Executable(cmd) ==> r == t
    ensures Executable(cmd) && outcome == Returned ==>
      r.index == t.index + 1 && r.commands == t.commands[..t.index + 1] + [cmd.value]
    ensures Executable(cmd) && outcome == Threw ==>
      r.index == t.index && r.commands == t.commands[..t.index + 1]
  {
    if !Executable(cmd) then t
    else if outcome == Returned then Push(t, cmd.value)
    else DropRedoBranch(t)
  }

  /** Undo steps the index back when there is something to undo; a throwing
      `undo` is caught in `HistorySystem`, so the step happens anyway. */
  function HistoryUndo(t: Timeline): (r: Timeline)
    requires t.Valid()
    ensures r.Valid() && r.commands == t.commands
    ensures r.index == if t.CanUndo() then t.index - 1 else t.index
  {
    if t.CanUndo() then t.(index := t.index - 1) else t
  }

  /** Redo steps the index forward when there is something to redo. */
  function HistoryRedo(t: Timeline): (r: Timeline)
    requires t.Valid()
    ensures r.Valid() && r.commands == t.commands
    ensures r.index == if t.CanRedo() then t.index + 1 else t.index
  {
    if t.CanRedo() then t.(index := t.index + 1) else t
  }

  /** Redo undoes an undo. */
  lemma RedoAfterUndo(t: Timeline)
    requires t.Valid() && t.CanUndo()
    ensures HistoryRedo(HistoryUndo(t)) == t
  {
  }

  /** Undo undoes a redo. */
  lemma UndoAfterRedo(t: Timeline)
    requires t.Valid() && t.CanRedo()
    ensures HistoryUndo(HistoryRedo(t)) == t
  {
  }

  /** After a successful execute there is nothing to redo, and undoing it
      returns to the previous index over the same earlier commands. */
  lemma ExecuteThenUndo(t: Timeline, cmd: Command)
    requires t.Valid() && cmd.hasExecute
    ensures var e := HistoryExecute(t, Some(cmd), Returned);
            && HistoryRedo(e) == e
            && e.commands[e.index] == cmd
            && HistoryUndo(e).index == t.index
            && HistoryUndo(e).commands[..t.index + 1] == t.commands[..t.index + 1]
  {
    var e := HistoryExecute(t, Some(cmd), Returned);
    assert e.commands[..t.index + 1] == t.commands[..t.index + 1];
  }

  /** `n` undos in a row. */
  function UndoTimes(t: Timeline, n: nat): (r: Timeline)
    requires t.Valid()
    ensures r.Valid()
  {
    if n == 0 then t else HistoryUndo(UndoTimes(t, n - 1))
  }

  /** `n` redos in a row. */
  function RedoTimes(t: Timeline, n: nat): (r: Timeline)
    requires t.Valid()
    ensures r.Valid()
  {
    if n == 0 then t else HistoryRedo(RedoTimes(t, n - 1))
  }

  /** Undos never change the list, and stop at -1. */
  lemma {:induction false} UndoTimesIndex(t: Timeline, n: nat)
    requires t.Valid()
    ensures UndoTimes(t, n).commands == t.commands
    ensures UndoTimes(t, n).index == if t.index - n >= -1 then t.index - n else -1
  {
    if n > 0 {
      UndoTimesIndex(t, n - 1);
    }
  }

  /** Undoing `n` commands and redoing `n` returns to the same timeline, as
      long as there were `n` commands to undo. */
  lemma {:induction false} RedoTimesAfterUndoTimes(t: Timeline, n: nat)
    requires t.Valid() && n <= t.index + 1
    ensures RedoTimes(UndoTimes(t, n), n) == t
  {
    if n > 0 {
      var u := UndoTimes(t, n);
      UndoTimesIndex(t, n);
      RedoShift(u, n - 1);
      assert RedoTimes(u, n) == RedoTimes(HistoryRedo(u), n - 1);
      UndoTimesIndex(t, n - 1);
      assert HistoryRedo(u) == UndoTimes(t, n - 1);
      RedoTimesAfterUndoTimes(t, n - 1);
    }
  }

  /** Peeling the first redo off a run of redos. */
  lemma {:induction false} RedoShift(t: Timeline, n: nat)
    requires t.Valid()
    ensures RedoTimes(t, n + 1) == RedoTimes(HistoryRedo(t), n)
  {
    if n > 0 {
      RedoShift(t, n - 1);
    }
  }

  /** `HistorySystem`: the history and index, plus the log of calls it made
      on commands. Console warnings are left out. */
  class HistorySystem {
    var history: seq<Command>
    var index: int
    var calls: seq<Call>

    function State(): Timeline
      reads this
    {
      Timeline(history, index)
    }

    predicate Valid()
      reads this
    {
      State().Valid()
    }

    constructor ()
      ensures Valid() && State() == EmptyTimeline && calls == []
    {
      history := [];
      index := -1;
      calls := [];
    }

    method Execute(cmd: Option<Command>, outcome: Outcome)
      requires Valid()
      modifies this
      ensures Valid() && State() == HistoryExecute(old(State()), cmd, outcome)
      ensures calls == old(calls) + if Executable(cmd) then [Executed(cmd.value.id)] else []
    {
      if cmd.None? || !cmd.value.hasExecute {
        return;
      }
      if index < |history| - 1 {
        history := history[..index + 1];
      }
      calls := calls + [Executed(cmd.value.id)];
      if outcome == Returned {
        history := history + [cmd.value];
        index := index + 1;
      }
    }

    method Undo()
      requires Valid()
      modifies this
      ensures Valid() && State() == HistoryUndo(old(State()))
      ensures calls == old(calls) +
        if old(index) >= 0 && old(history)[old(index)].hasUndo then [Undone(old(history)[old(index)].id)] else []
    {
      if index >= 0 {
        var cmd := history[index];
        if cmd.hasUndo {
          calls := calls + [Undone(cmd.id)];
        }
        index := index - 1;
      }
    }

    method Redo()
      requires Valid()
      modifies this
      ensures Valid() && State() == HistoryRedo(old(State()))
      ensures calls == old(calls) +
        if old(index) < |old(history)| - 1 && old(history)[old(index) + 1].hasExecute
        then [Executed(old(history)[old(index) + 1].id)] else []
    {
      if index < |history| - 1 {
        index := index + 1;
        var cmd := history[index];
        if cmd.hasExecute {
          calls := calls + [Executed(cmd.id)];
        }
      }
    }

    function GetSize(): (n: nat)
      reads this
      ensures n == |State().commands|
    {
      |history|
    }

    function GetCurrentIndex(): (i: int)
      reads this
      ensures i == State().index
    {
      index
    }

    method Clear()
      modifies this
      ensures Valid() && State() == EmptyTimeline && calls == old(calls)
    {
      history := [];
      index := -1;
    }
  }
}
