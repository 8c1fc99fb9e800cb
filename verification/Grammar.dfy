/** The messages that the host sends for one stream: Open?, (Write | Ok)*, Close*. */
module Grammar {
  import opened Protocol

  datatype Stage = Unopened | Open | Closed | Wrong

  function Advance(stage: Stage, command: Command): Stage {
    match command
    case Open => if stage == Unopened then Stage.Open else Wrong
    case Write => if stage == Unopened || stage == Stage.Open then Stage.Open else Wrong
    case Ok => if stage == Unopened || stage == Stage.Open then Stage.Open else Wrong
    case Close => if stage == Wrong then Wrong else Closed
    case _ => Wrong
  }

  /** How far the history `log` has come for the host id `id`. */
  function StageOf(log: seq<Message>, id: nat): Stage {
    if log == [] then Unopened
    else
      var before, m := StageOf(log[..|log| - 1], id), log[|log| - 1];
      if m.host == id then Advance(before, m.command) else before
  }

  lemma StageAppend(log: seq<Message>, m: Message, id: nat)
    ensures StageOf(log + [m], id) == if m.host == id then Advance(StageOf(log, id), m.command) else StageOf(log, id)
  {
    assert (log + [m])[..|log|] == log;
  }

  /** The part of a history that is about the host id `id`. */
  function About(log: seq<Message>, id: nat): seq<Message> {
    if log == [] then []
    else
      var m := log[|log| - 1];
      About(log[..|log| - 1], id) + if m.host == id then [m] else []
  }

  /** `opens` Open messages (at most one), then Writes and Oks up to position
      `closes`, then only Closes. */
  predicate IsHistory(s: seq<Message>, opens: nat, closes: nat) {
    && opens <= 1 && opens <= closes <= |s|
    && (forall i :: 0 <= i < opens ==> s[i].command == Command.Open)
    && (forall i :: opens <= i < closes ==> s[i].command == Write || s[i].command == Ok)
    && (forall i :: closes <= i < |s| ==> s[i].command == Close)
  }

  /** A history that never goes wrong has the form Open?, (Write | Ok)*, Close*. */
  lemma {:induction false} HistoryShape(log: seq<Message>, id: nat) returns (opens: nat, closes: nat)
    requires StageOf(log, id) != Wrong
    ensures IsHistory(About(log, id), opens, closes)
    ensures StageOf(log, id) == Unopened <==> About(log, id) == []
    ensures StageOf(log, id) == Closed <==> closes < |About(log, id)|
    decreases |log|
  {
    if log == [] {
      opens, closes := 0, 0;
    } else {
      var rest, m := log[..|log| - 1], log[|log| - 1];
      opens, closes := HistoryShape(rest, id);
      if m.host == id {
        if m.command == Command.Open {
          opens := 1;
        }
        if m.command != Close {
          closes := closes + 1;
        }
      }
    }
  }
}
