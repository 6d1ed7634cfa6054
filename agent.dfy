/**
 * The client side of the game protocol between the learning agent and the
 * symbolic-execution server (`NAgent`). The websocket becomes a log of sent
 * messages and a received message passed to each receiving method; a Python
 * exception becomes `Raise` in an `Outcome`.
 */
module Agent {
  import opened Wrappers

  /**
   * The server message types the agent tells apart. `OtherKind(name)` stands
   * for every other type the server sends; its `name` is never GAMEOVER,
   * MOVE_REVARD or INCORRECT_PREDICTED_STATEID, each of which has its own
   * constructor, so every server type has exactly one representation.
   */
  datatype MessageKind =
    | GameOverKind
    | MoveRevardKind
    | IncorrectPredictedStateIdKind
    | OtherKind(name: string)

  /**
   * A message from the server: its type, its body (kept as received; the JSON
   * decoding is not modelled) and the `ActualCoverage` a GAMEOVER body carries.
   */
  datatype ServerMessage = ServerMessage(kind: MessageKind, body: string, actualCoverage: Option<int>)

  /** The two messages the agent sends: the start of a game and one step. */
  datatype ClientMessage = Start(mapId: int, stepsToPlay: int) | Step(stateId: int, predictedUsefulness: int)

  /** The exceptions that leave the agent's methods. */
  datatype Raised =
    | GameOver(actualCoverage: Option<int>)
    | IncorrectSentState(sentStateId: int, atStep: nat)
    | RuntimeError(kind: MessageKind)
    | TypeError
    | AttributeError

  datatype Outcome<T> = Returned(value: T) | Raise(exception: Raised)

  /** The agent's protocol fields: `game_is_over`, `_current_step`, `_sent_state_id` (unset until the first step). */
  datatype AgentState = AgentState(gameIsOver: bool, currentStep: nat, sentStateId: Option<int>)

  /**
   * `_raise_if_gameover(msg)` with the first branch as intended: once the game
   * is over every message raises `GameOver` (with no coverage) unread; a
   * GAMEOVER message ends the game and raises `GameOver` with its coverage;
   * any other message comes back unchanged. The second component is the new
   * `game_is_over`.
   */
  function CheckGameOver(gameIsOver: bool, msg: ServerMessage): (r: (Outcome<ServerMessage>, bool))
    ensures r.1 <==> gameIsOver || msg.kind == GameOverKind
    ensures r.0.Returned? <==> !r.1
    ensures r.0.Returned? ==> r.0.value == msg
    ensures r.0.Raise? ==> r.0.exception.GameOver?
    ensures r.0.Raise? ==> r.0.exception.actualCoverage == if gameIsOver then None else msg.actualCoverage
  {
    if gameIsOver then (Raise(GameOver(None)), true)
    else match msg.kind
      case GameOverKind => (Raise(GameOver(msg.actualCoverage)), true)
      case _ => (Returned(msg), false)
  }

  /**
   * `_raise_if_gameover(msg)` exactly as written: its first branch raises the
   * `GameOver` class itself, which Python instantiates with no arguments; the
   * constructor requires `actual_coverage`, so a `TypeError` is raised instead.
   */
  function CheckGameOverAsWritten(gameIsOver: bool, msg: ServerMessage): (r: (Outcome<ServerMessage>, bool))
    ensures r.1 <==> gameIsOver || msg.kind == GameOverKind
    ensures gameIsOver ==> r.0 == Raise(TypeError)
  {
    if gameIsOver then (Raise(TypeError), true)
    else match msg.kind
      case GameOverKind => (Raise(GameOver(msg.actualCoverage)), true)
      case _ => (Returned(msg), false)
  }

  /**
   * The discrepancy: after the game is over, the code as written raises a
   * `TypeError` where a `GameOver` is meant, so a caller that stops on
   * `GameOver` does not stop; before that, the two agree.
   */
  lemma AsWrittenRaisesTypeErrorAfterGameOver(msg: ServerMessage)
    ensures CheckGameOverAsWritten(true, msg).0 == Raise(TypeError)
    ensures CheckGameOver(true, msg).0 == Raise(GameOver(None))
    ensures forall m :: CheckGameOverAsWritten(false, m) == CheckGameOver(false, m)
  {
  }

  /**
   * `_process_reward_server_message(msg)`: a move reward advances the step
   * counter and returns the body; an incorrect-state reply raises
   * `IncorrectSentStateError` naming the state id last sent and the current
   * step (an `AttributeError` if no step was ever sent, since the message
   * reads `_sent_state_id`); anything else raises `RuntimeError`.
   */
  function ProcessReward(st: AgentState, msg: ServerMessage): (r: (Outcome<string>, AgentState))
    ensures r.1.gameIsOver == st.gameIsOver && r.1.sentStateId == st.sentStateId
    ensures r.0.Returned? <==> msg.kind == MoveRevardKind
    ensures r.0.Returned? ==> r.0.value == msg.body
    ensures msg.kind == IncorrectPredictedStateIdKind ==>
              r.0 == Raise(if st.sentStateId.None? then AttributeError
                           else IncorrectSentState(st.sentStateId.value, st.currentStep))
    ensures msg.kind != MoveRevardKind && msg.kind != IncorrectPredictedStateIdKind ==>
              r.0 == Raise(RuntimeError(msg.kind))
    ensures r.1.currentStep == if r.0.Returned? then st.currentStep + 1 else st.currentStep
  {
    match msg.kind
    case IncorrectPredictedStateIdKind =>
      (match st.sentStateId
       case None => (Raise(AttributeError), st)
       case Some(id) => (Raise(IncorrectSentState(id, st.currentStep)), st))
    case MoveRevardKind => (Returned(msg.body), st.(currentStep := st.currentStep + 1))
    case _ => (Raise(RuntimeError(msg.kind)), st)
  }

  /** `recv_reward_or_throw_gameover()` on the received message `msg`. */
  function RecvReward(st: AgentState, msg: ServerMessage): (r: (Outcome<string>, AgentState))
    ensures r.1.gameIsOver <==> st.gameIsOver || msg.kind == GameOverKind
    ensures r.1.sentStateId == st.sentStateId
    ensures r.0.Returned? <==> !st.gameIsOver && msg.kind == MoveRevardKind
    ensures r.0.Returned? ==> r.0.value == msg.body
    ensures r.1.currentStep == if r.0.Returned? then st.currentStep + 1 else st.currentStep
    ensures (r.0.Raise? && r.0.exception.GameOver?) <==> st.gameIsOver || msg.kind == GameOverKind
    ensures r.0.Raise? && (st.gameIsOver || msg.kind == GameOverKind) ==>
              r.0.exception == GameOver(if st.gameIsOver then None else msg.actualCoverage)
    ensures !st.gameIsOver && msg.kind == IncorrectPredictedStateIdKind ==>
              r.0 == Raise(if st.sentStateId.None? then AttributeError
                           else IncorrectSentState(st.sentStateId.value, st.currentStep))
    ensures !st.gameIsOver && msg.kind != GameOverKind && msg.kind != MoveRevardKind
              && msg.kind != IncorrectPredictedStateIdKind ==>
              r.0 == Raise(RuntimeError(msg.kind))
  {
    var (checked, over) := CheckGameOver(st.gameIsOver, msg);
    match checked
    case Raise(e) => (Raise(e), st.(gameIsOver := over))
    case Returned(m) => ProcessReward(st.(gameIsOver := over), m)
  }

  /** `recv_state_or_throw_gameover()` on the received message `msg`: the game state body, unless the game is over. */
  function RecvState(st: AgentState, msg: ServerMessage): (r: (Outcome<string>, AgentState))
    ensures r.1 == st.(gameIsOver := st.gameIsOver || msg.kind == GameOverKind)
    ensures r.0.Returned? <==> !st.gameIsOver && msg.kind != GameOverKind
    ensures r.0.Returned? ==> r.0.value == msg.body
    ensures r.0.Raise? ==> r.0.exception == GameOver(if st.gameIsOver then None else msg.actualCoverage)
  {
    var (checked, over) := CheckGameOver(st.gameIsOver, msg);
    var outcome := match checked
      case Raise(e) => Raise(e)
      case Returned(m) => Returned(m.body);
    (outcome, st.(gameIsOver := over))
  }

  /**
   * The state after receiving each reply in turn, by a caller that carries on
   * whatever each one returned or raised.
   */
  function Replay(st: AgentState, replies: seq<ServerMessage>): AgentState
    decreases |replies|
  {
    if |replies| == 0 then st else Replay(RecvReward(st, replies[0]).1, replies[1..])
  }

  /** The number of move rewards among the replies. */
  function CountRewards(replies: seq<ServerMessage>): nat {
    if |replies| == 0 then 0
    else (if replies[0].kind == MoveRevardKind then 1 else 0) + CountRewards(replies[1..])
  }

  /** Once the game is over nothing the server sends changes the agent's state. */
  lemma {:induction false} GameOverIsFinal(st: AgentState, replies: seq<ServerMessage>)
    requires st.gameIsOver
    ensures Replay(st, replies) == st
    decreases |replies|
  {
    if |replies| > 0 {
      GameOverIsFinal(RecvReward(st, replies[0]).1, replies[1..]);
    }
  }

  /**
   * While no GAMEOVER arrives, the step counter advances by exactly the number
   * of move rewards received and nothing else in the state changes.
   */
  lemma {:induction false} StepCountsRewards(st: AgentState, replies: seq<ServerMessage>)
    requires !st.gameIsOver
    requires forall i :: 0 <= i < |replies| ==> replies[i].kind != GameOverKind
    ensures Replay(st, replies) == st.(currentStep := st.currentStep + CountRewards(replies))
    decreases |replies|
  {
    if |replies| > 0 {
      var next := RecvReward(st, replies[0]).1;
      assert forall i :: 0 <= i < |replies| - 1 ==> replies[1..][i] == replies[i + 1];
      StepCountsRewards(next, replies[1..]);
    }
  }

  /** The agent object: its protocol fields and the messages it has sent on the websocket. */
  class NAgent {
    var gameIsOver: bool
    var currentStep: nat
    var sentStateId: Option<int>
    var sent: seq<ClientMessage>
    const mapId: int
    const steps: int

    /** The first message sent starts the game; every later one is a step, the last of which carries `sentStateId`. */
    ghost predicate Valid()
      reads this
    {
      && |sent| >= 1
      && sent[0] == Start(mapId, steps)
      && (forall i :: 1 <= i < |sent| ==> sent[i].Step?)
      && (sentStateId.None? <==> |sent| == 1)
      && (|sent| > 1 ==> sentStateId == Some(sent[|sent| - 1].stateId))
    }

    function State(): AgentState
      reads this
    {
      AgentState(gameIsOver, currentStep, sentStateId)
    }

    /** `NAgent(ws, map, steps)`: sends the start message and begins at step 0 with the game running. */
    constructor (mapId: int, steps: int)
      ensures Valid()
      ensures sent == [Start(mapId, steps)]
      ensures this.mapId == mapId && this.steps == steps
      ensures currentStep == 0 && !gameIsOver && sentStateId.None?
    {
      this.mapId := mapId;
      this.steps := steps;
      sent := [Start(mapId, steps)];
      currentStep := 0;
      gameIsOver := false;
      sentStateId := None;
    }

    /** `_raise_if_gameover(msg)`, with the corrected first branch. */
    method RaiseIfGameOver(msg: ServerMessage) returns (r: Outcome<ServerMessage>)
      requires Valid()
      modifies this
      ensures Valid()
      ensures (r, gameIsOver) == CheckGameOver(old(gameIsOver), msg)
      ensures currentStep == old(currentStep) && sentStateId == old(sentStateId) && sent == old(sent)
    {
      if gameIsOver {
        return Raise(GameOver(None));
      }
      match msg.kind {
        case GameOverKind =>
          gameIsOver := true;
          return Raise(GameOver(msg.actualCoverage));
        case _ =>
          return Returned(msg);
      }
    }

    /** `recv_state_or_throw_gameover()`, `received` being what the websocket delivers. */
    method RecvStateOrThrowGameOver(received: ServerMessage) returns (r: Outcome<string>)
      requires Valid()
      modifies this
      ensures Valid() && sent == old(sent)
      ensures (r, State()) == RecvState(old(State()), received)
    {
      var checked := RaiseIfGameOver(received);
      match checked {
        case Raise(e) => return Raise(e);
        case Returned(data) => return Returned(data.body);
      }
    }

    /** `send_step(next_state_id, predicted_usefullness)`. */
    method SendStep(nextStateId: int, predictedUsefulness: int)
      requires Valid()
      modifies this
      ensures Valid()
      ensures sent == old(sent) + [Step(nextStateId, predictedUsefulness)]
      ensures sentStateId == Some(nextStateId)
      ensures currentStep == old(currentStep) && gameIsOver == old(gameIsOver)
    {
      sent := sent + [Step(nextStateId, predictedUsefulness)];
      sentStateId := Some(nextStateId);
    }

    /** `recv_reward_or_throw_gameover()`, `received` being what the websocket delivers. */
    method RecvRewardOrThrowGameOver(received: ServerMessage) returns (r: Outcome<string>)
      requires Valid()
      modifies this
      ensures Valid() && sent == old(sent)
      ensures (r, State()) == RecvReward(old(State()), received)
    {
      var checked := RaiseIfGameOver(received);
      match checked {
        case Raise(e) => return Raise(e);
        case Returned(data) =>
          r := ProcessRewardServerMessage(data);
      }
    }

    /** `_process_reward_server_message(msg)`. */
    method ProcessRewardServerMessage(msg: ServerMessage) returns (r: Outcome<string>)
      requires Valid()
      modifies this
      ensures Valid() && sent == old(sent)
      ensures (r, State()) == ProcessReward(old(State()), msg)
    {
      match msg.kind {
        case IncorrectPredictedStateIdKind =>
          if sentStateId.None? {
            return Raise(AttributeError);
          }
          return Raise(IncorrectSentState(sentStateId.value, currentStep));
        case MoveRevardKind =>
          currentStep := currentStep + 1;
          return Returned(msg.body);
        case _ =>
          return Raise(RuntimeError(msg.kind));
      }
    }
  }
}
