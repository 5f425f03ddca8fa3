/** What a machine is: the application's apply, run over the commands of the log in their order. */
module Machines {
  import opened RaftTypes
  import opened Logs
  import opened Stores
  import opened Networks
  import opened Runtime

  function Commands(log: seq<Entry>): seq<Entry> {
    if log == [] then []
    else if log[0].kind == Command then [log[0]] + Commands(log[1..])
    else Commands(log[1..])
  }

  /** Apply one command after the other, from the first on; None once one of them throws. */
  function Applied<M>(apply: (M, Entry) -> Option<M>, machine: M, commands: seq<Entry>): Option<M>
    decreases |commands|
  {
    if commands == [] then Some(machine)
    else
      var next := apply(machine, commands[0]);
      if next == None then None else Applied(apply, next.value, commands[1..])
  }

  ghost predicate AllNamed(log: seq<Entry>) {
    forall e :: e in log ==> Named(e)
  }

  lemma {:induction false} CommandsAppend(log: seq<Entry>, e: Entry)
    ensures Commands(log + [e]) == Commands(log) + if e.kind == Command then [e] else []
    decreases |log|
  {
    if log == [] {
      assert (log + [e])[1..] == [];
    } else {
      assert (log + [e])[1..] == log[1..] + [e];
      CommandsAppend(log[1..], e);
    }
  }

  lemma {:induction false} AppliedAppend<M>(apply: (M, Entry) -> Option<M>, machine: M, commands: seq<Entry>, e: Entry)
    ensures var before := Applied(apply, machine, commands);
            Applied(apply, machine, commands + [e]) == if before == None then None else apply(before.value, e)
    decreases |commands|
  {
    if commands == [] {
      assert (commands + [e])[1..] == [];
    } else {
      assert (commands + [e])[1..] == commands[1..] + [e];
      var next := apply(machine, commands[0]);
      if next != None {
        AppliedAppend(apply, next.value, commands[1..], e);
      }
    }
  }

  /** Replay is exactly that, provided every command has an ID; one without makes it throw. */
  lemma {:induction false} FoldIsApplied<M>(app: App<M>, machine: M, log: seq<Entry>)
    ensures Fold(app, machine, log) == if AllNamed(log) then Applied(app.apply, machine, Commands(log)) else None
    decreases |log|
  {
    if log != [] {
      var before, e := log[..|log| - 1], log[|log| - 1];
      assert log == before + [e];
      FoldIsApplied(app, machine, before);
      CommandsAppend(before, e);
      AppliedAppend(app.apply, machine, Commands(before), e);
      assert AllNamed(log) <==> AllNamed(before) && Named(e);
      assert Commands(before) + [] == Commands(before);
    }
  }

  /** The application that keeps what it is given. */
  function Recorder(): App<seq<Entry>> {
    App([], (kept: seq<Entry>, e: Entry) => Some(kept + [e]))
  }

  lemma {:induction false} RecorderAppends(kept: seq<Entry>, commands: seq<Entry>)
    ensures Applied(Recorder().apply, kept, commands) == Some(kept + commands)
    decreases |commands|
  {
    if commands == [] {
      assert kept + commands == kept;
    } else {
      RecorderAppends(kept + [commands[0]], commands[1..]);
      assert kept + [commands[0]] + commands[1..] == kept + commands;
    }
  }

  /** It ends with exactly the commands of the log, each once, in order. */
  lemma RecorderKeepsAll(log: seq<Entry>)
    requires AllNamed(log)
    ensures Fold(Recorder(), [], log) == Some(Commands(log))
  {
    FoldIsApplied(Recorder(), [], log);
    RecorderAppends([], Commands(log));
    assert [] + Commands(log) == Commands(log);
  }

  // ----- One small step -----

  /**
   Applying one committed entry: a command goes through the application once, anything else past it. Only
   then is the index recorded. If the application throws, a command has no ID or the store refuses, the
   node stops there, and says so unless the command has no ID or the refused entry is no command.
   */
  lemma AppliesExactly<M>(app: App<M>, s: Scene<M>, e: Entry, k: nat)
    ensures var t := AppliedOne(app, s, e, k); var next := app.apply(s.live.machine, e);
            var taken := e.kind != Command || (e.commandId.Some? && next.Some?);
            var machine := if taken && e.kind == Command then next.value else s.live.machine;
            var o := PersistDurable(s.store, Batch(None, None, [], None, Some(e.index)));
            t == if !taken then s.(live := s.live.(phase := Frozen(None, e.commandId.Some?)))
                 else
                   var phase := if o.Stored? then Applying(k + 1) else Frozen(None, e.kind == Command);
                   s.(store := o.store, live := Live(s.live.core, machine, phase))
  {
  }

  /** A message is queued when it is its turn and the transport takes it; otherwise it is lost, and the next one is tried. */
  lemma SendsOrLoses<M>(app: App<M>, s: Scene<M>, delivered: bool)
    requires Busy(s.live)
    ensures var t := Continued(app, s, delivered);
            if s.live.phase.Sending? && s.live.phase.next < |s.live.core.outstanding.value.messages| then
              && t.live == s.live.(phase := Sending(s.live.phase.next + 1)) && t.store == s.store
              && t.net == if delivered then Enqueued(s.net, s.live.core.outstanding.value.messages[s.live.phase.next]) else s.net
            else t.net == s.net
  {
    hide PersistDurable;
  }
}
