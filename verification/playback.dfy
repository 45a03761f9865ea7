/**
  The replay counter of `transcodeToAudioTag`: each send resets the play
  count, and the `ended` handler it installs plays the audio again until the
  count reaches `repeat`, then detaches itself and calls the end callback.
  The audio element is reduced to its `ended` events.
*/
module Playback {

  /** What the controller keeps between events: the play count and whether its `ended` handler is installed. */
  datatype Player = Player(playCount: int, listening: bool)

  /** What one `ended` event does. */
  datatype Action =
    | Ignored                  // no handler is installed
    | Replay                   // `tag.play()` again
    | Finish(callback: bool)   // handler removed; the end callback runs when one was given

  /**
    The start of a send: the count is reset before the transcode runs. The
    handler is installed only once the transcode returned; when it threw,
    whatever handler was there before stays.
  */
  function StartSend(p: Player, transcoded: bool): (q: Player)
    ensures q.playCount == 0
    ensures q.listening <==> transcoded || p.listening
  {
    Player(0, transcoded || p.listening)
  }

  /** One `ended` event. */
  function OnEnded(p: Player, repeat: int, hasEndCallback: bool): (r: (Player, Action))
    ensures !p.listening ==> r == (p, Ignored)
    ensures p.listening ==> r.0.playCount == p.playCount + 1
    ensures p.listening ==> (r.1 == Replay <==> p.playCount + 1 < repeat)
    ensures p.listening && p.playCount + 1 >= repeat ==> r.1 == Finish(hasEndCallback)
    ensures r.0.listening <==> r.1 == Replay
    ensures r.1.Finish? ==> r.1.callback == hasEndCallback
  {
    if !p.listening then (p, Ignored)
    else
      var count := p.playCount + 1;
      if count < repeat then (Player(count, true), Replay)
      else (Player(count, false), Finish(hasEndCallback))
  }

  /** The state after `k` `ended` events and what each of them did, in order. */
  function Run(p: Player, k: nat, repeat: int, hasEndCallback: bool): (Player, seq<Action>)
  {
    if k == 0 then (p, [])
    else
      var (q, actions) := Run(p, k - 1, repeat, hasEndCallback);
      var (q', a) := OnEnded(q, repeat, hasEndCallback);
      (q', actions + [a])
  }

  /** The number of times the audio is played in all: `repeat`, but at least once. */
  function Plays(repeat: int): (n: nat)
    ensures n >= 1
  {
    if repeat < 1 then 1 else repeat
  }

  /**
    After a successful start, the first `Plays(repeat) - 1` ended events
    replay, the next one finishes, and every later one is ignored.
  */
  lemma {:induction false} RunAfterStart(p: Player, k: nat, repeat: int, hasEndCallback: bool)
    ensures var (q, actions) := Run(StartSend(p, true), k, repeat, hasEndCallback);
      && |actions| == k
      && (k < Plays(repeat) ==> q == Player(k, true))
      && (k >= Plays(repeat) ==> q == Player(Plays(repeat), false))
      && forall i | 0 <= i < k ::
           actions[i] == if i + 1 < Plays(repeat) then Replay
                         else if i + 1 == Plays(repeat) then Finish(hasEndCallback)
                         else Ignored
  {
    if k > 0 {
      RunAfterStart(p, k - 1, repeat, hasEndCallback);
    }
  }

  /**
    Once `Plays(repeat)` events have arrived, the actions are the replays,
    then the one finish, then nothing: the end callback runs exactly once,
    at the last play.
  */
  lemma FinishesOnce(p: Player, k: nat, repeat: int, hasEndCallback: bool)
    requires k >= Plays(repeat)
    ensures var (_, actions) := Run(StartSend(p, true), k, repeat, hasEndCallback);
      && actions == seq(Plays(repeat) - 1, _ => Replay) + [Finish(hasEndCallback)]
                    + seq(k - Plays(repeat), _ => Ignored)
      && forall i | 0 <= i < k && actions[i].Finish? :: i == Plays(repeat) - 1
  {
    RunAfterStart(p, k, repeat, hasEndCallback);
  }
}
