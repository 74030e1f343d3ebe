/** `CommandManager`: the same undo/redo timeline as `HistorySystem`, but
    nothing is caught: a command that throws (or lacks the method called)
    interrupts the operation part way and the exception reaches the caller.
    Every completed operation notifies the optional `onUpdate` listener. */
module CommandManagement {
  import opened Geometry
  import opened UndoHistory

  class CommandManager {
    var history: seq<Command>
    var index: int
    /** Whether an `onUpdate` listener is installed (it starts as null). */
    var onUpdate: bool
    /** How many times the listener has been called. */
    var updates: nat
    /** The calls made on commands, in order. */
    var calls: seq<Call>

    function State(): Timeline
      reads this
    {
      Timeline(history, index)
    }

    predicate Valid()
      reads this
    {
      State().Valid()
    }

    constructor ()
      ensures Valid() && State() == EmptyTimeline && !onUpdate && updates == 0 && calls == []
    {
      history := [];
      index := -1;
      onUpdate := false;
      updates := 0;
      calls := [];
    }

    /** The `canUndo` getter. */
    function CanUndo(): (b: bool)
      reads this
      ensures b <==> index >= 0
    {
      State().CanUndo()
    }

    /** The `canRedo` getter. */
    function CanRedo(): (b: bool)
      reads this
      ensures b <==> index < |history| - 1
    {
      State().CanRedo()
    }

    /** `notify`: calls the listener when one is installed. */
    method Notify()
      modifies this
      ensures State() == old(State()) && onUpdate == old(onUpdate) && calls == old(calls)
      ensures updates == old(updates) + if onUpdate then 1 else 0
    {
      if onUpdate {
        updates := updates + 1;
      }
    }

    /** `execute`: the redo branch is cut first; the command is recorded and
        the listener notified only if its `execute` returned. A command
        without `execute` throws a TypeError at the call. */
    method Execute(command: Command, outcome: Outcome) returns (result: Outcome)
      requires Valid()
      modifies this
      ensures Valid() && onUpdate == old(onUpdate)
      ensures result == if command.hasExecute then outcome else Threw
      ensures calls == old(calls) + if command.hasExecute then [Executed(command.id)] else []
      ensures result == Returned ==>
        State() == Push(old(State()), command) && updates == old(updates) + if onUpdate then 1 else 0
      ensures result == Threw ==> State() == DropRedoBranch(old(State())) && updates == old(updates)
    {
      if index < |history| - 1 {
        history := history[..index + 1];
      }
      if !command.hasExecute {
        return Threw;
      }
      calls := calls + [Executed(command.id)];
      if outcome == Threw {
        return Threw;
      }
      history := history + [command];
      index := index + 1;
      Notify();
      result := Returned;
    }

    /** `undo`: when there is something to undo, calls the current command's
        `undo`; the index moves back and the listener is notified only if that
        call returned. */
    method Undo(outcome: Outcome) returns (result: Outcome)
      requires Valid()
      modifies this
      ensures Valid() && onUpdate == old(onUpdate)
      ensures !old(CanUndo()) ==> result == Returned && State() == old(State()) && updates == old(updates) && calls == old(calls)
      ensures old(CanUndo()) ==>
        var cmd := old(history)[old(index)];
        && result == (if cmd.hasUndo then outcome else Threw)
        && calls == old(calls) + (if cmd.hasUndo then [Undone(cmd.id)] else [])
        && (result == Returned ==> State() == HistoryUndo(old(State())) && updates == old(updates) + if onUpdate then 1 else 0)
        && (result == Threw ==> State() == old(State()) && updates == old(updates))
    {
      result := Returned;
      if CanUndo() {
        var cmd := history[index];
        if !cmd.hasUndo {
          return Threw;
        }
        calls := calls + [Undone(cmd.id)];
        if outcome == Threw {
          return Threw;
        }
        index := index - 1;
        Notify();
      }
    }

    /** `redo`: when there is something to redo, the index moves forward
        BEFORE the command's `execute` is called, so a throwing redo leaves the
        index advanced without notifying. */
    method Redo(outcome: Outcome) returns (result: Outcome)
      requires Valid()
      modifies this
      ensures Valid() && onUpdate == old(onUpdate)
      ensures State() == HistoryRedo(old(State()))
      ensures !old(CanRedo()) ==> result == Returned && updates == old(updates) && calls == old(calls)
      ensures old(CanRedo()) ==>
        var cmd := old(history)[old(index) + 1];
        && result == (if cmd.hasExecute then outcome else Threw)
        && calls == old(calls) + (if cmd.hasExecute then [Executed(cmd.id)] else [])
        && updates == old(updates) + if result == Returned && onUpdate then 1 else 0
    {
      result := Returned;
      if CanRedo() {
        index := index + 1;
        var cmd := history[index];
        if !cmd.hasExecute {
          return Threw;
        }
        calls := calls + [Executed(cmd.id)];
        if outcome == Threw {
          return Threw;
        }
        Notify();
      }
    }
  }

  /** When every call returns, the manager moves along the same timeline as
      `HistorySystem`. */
  lemma AgreesWithHistorySystem(t: Timeline, cmd: Command)
    requires t.Valid() && cmd.hasExecute
    ensures Push(t, cmd) == HistoryExecute(t, Some(cmd), Returned)
  {
  }
}
