/** The scenario player: user actions mixed with timer and audio callbacks that may arrive late, twice or
    out of order.  Every callback carries the playback token it was created under. */
module Playback {
  import opened Options

  predicate Rising(ts: seq<nat>) {
    forall i, j | 0 <= i < j < |ts| :: ts[i] < ts[j]
  }

  class Flow {
    const paths: seq<nat>          // the number of steps of each scenario
    var scenario: nat
    var step: nat
    var playing: bool
    var audioEnabled: bool
    var playbackToken: nat
    var timer: Option<nat>         // a pending timeout and the token it was set under
    ghost var advances: seq<nat>   // the tokens under which playback moved on or completed

    constructor (paths: seq<nat>)
      requires paths != [] && forall k | 0 <= k < |paths| :: paths[k] > 0
      ensures Valid() && this.paths == paths && scenario == 0 && step == 0 && !playing && audioEnabled
      ensures advances == []
    {
      this.paths := paths;
      scenario, step, playing, audioEnabled, playbackToken, timer, advances := 0, 0, false, true, 1, None, [];
    }

    /** The step is in range, a pending timer belongs to the running playback, and no token has moved the
        playback on twice. */
    ghost predicate Valid()
      reads this
    {
      && InRange()
      && (timer.Some? ==> playing && timer.value == playbackToken)
      && Rising(advances)
      && (forall i | 0 <= i < |advances| :: advances[i] < playbackToken)
    }

    predicate InRange()
      reads this
    {
      && scenario < |paths| && (forall k | 0 <= k < |paths| :: paths[k] > 0)
      && step < paths[scenario]
    }

    /** What clearing needs: the present token may just have been used up. */
    ghost predicate Clearable()
      reads this
    {
      InRange() && Rising(advances) && forall i | 0 <= i < |advances| :: advances[i] <= playbackToken
    }

    function Last(): nat
      requires scenario < |paths| && paths[scenario] > 0
      reads this
    {
      paths[scenario] - 1
    }

    method SetStep(n: int)
      requires Valid()
      modifies this`step
      ensures Valid()
      ensures step == if n < 0 then 0 else if n > Last() then Last() else n
    {
      step := if n < 0 then 0 else if n > Last() then Last() else n;
    }

    /** Forget whatever is pending: every callback created so far becomes stale. */
    method ClearPlayback()
      requires Clearable()
      modifies this`playbackToken, this`timer
      ensures Valid() && playbackToken == old(playbackToken) + 1 && timer.None?
    {
      playbackToken := playbackToken + 1;
      timer := None;
    }

    method ScheduleSilentAdvance(token: nat)
      requires Valid()
      modifies this`timer
      ensures Valid()
      ensures timer == if old(playing && token == playbackToken && timer.None?) then Some(token) else old(timer)
    {
      if !playing || token != playbackToken || timer.Some? { return; }
      timer := Some(token);
    }

    /** With sound, the audio callbacks of the new token move playback on; without, a timer does. */
    method PlayCurrentNarration()
      requires playing && Clearable()
      modifies this`playbackToken, this`timer
      ensures Valid() && playbackToken == old(playbackToken) + 1
      ensures timer == if audioEnabled then None else Some(playbackToken)
    {
      ClearPlayback();
      if !audioEnabled {
        ScheduleSilentAdvance(playbackToken);
      }
    }

    method Pause()
      requires Clearable()
      modifies this`playing, this`playbackToken, this`timer
      ensures Valid() && !playing && playbackToken == old(playbackToken) + 1
    {
      playing := false;
      ClearPlayback();
    }

    /** Move on to the next step, or complete on the last one.  Either way the token changes. */
    method Advance()
      requires Valid() && playing
      modifies this`step, this`playing, this`playbackToken, this`timer, this`advances
      ensures Valid() && playbackToken == old(playbackToken) + 1
      ensures advances == old(advances) + [old(playbackToken)]
      ensures step == (if old(step) == Last() then old(step) else old(step) + 1)
      ensures playing <==> old(step) < Last()
      ensures playing ==> timer == if audioEnabled then None else Some(playbackToken)
    {
      advances := advances + [playbackToken];
      if step >= Last() {
        Pause();
        return;
      }
      step := step + 1;
      PlayCurrentNarration();
    }

    // ----- callbacks -----

    method TimerFires()
      requires Valid() && timer.Some?
      modifies this`step, this`playing, this`playbackToken, this`timer, this`advances
      ensures Valid() && playbackToken == old(playbackToken) + 1
      ensures advances == old(advances) + [old(timer.value)]
      ensures step == (if old(step) == Last() then old(step) else old(step) + 1)
      ensures playing <==> old(step) < Last()
    {
      var token := timer.value;
      timer := None;
      if playing && token == playbackToken { Advance(); }
    }

    /** The audio of some past or present token ended.  Only the present one moves playback. */
    method OnEnded(token: nat)
      requires Valid()
      modifies this`step, this`playing, this`playbackToken, this`timer, this`advances
      ensures Valid()
      ensures !old(playing) || token != old(playbackToken) ==> unchanged(this)
      ensures old(playing) && token == old(playbackToken) ==>
                && advances == old(advances) + [token] && playbackToken == token + 1
                && step == (if old(step) == Last() then old(step) else old(step) + 1)
                && (playing <==> old(step) < Last())
    {
      if playing && token == playbackToken { Advance(); }
    }

    /** The audio of some token failed, or its play request was rejected.  At most a timer is set. */
    method OnFailed(token: nat)
      requires Valid()
      modifies this`timer
      ensures Valid()
      ensures timer == if playing && token == playbackToken && old(timer.None?) then Some(token) else old(timer)
    {
      ScheduleSilentAdvance(token);
    }

    // ----- user actions -----

    method Play()
      requires Valid()
      modifies this`step, this`playing, this`playbackToken, this`timer
      ensures Valid() && playing && playbackToken == old(playbackToken) + 1
      ensures step == if old(step) == Last() then 0 else old(step)
      ensures timer == if audioEnabled then None else Some(playbackToken)
    {
      if step >= Last() { SetStep(0); }
      playing := true;
      PlayCurrentNarration();
    }

    method TogglePlay()
      requires Valid()
      modifies this`step, this`playing, this`playbackToken, this`timer
      ensures Valid() && playing != old(playing) && playbackToken == old(playbackToken) + 1
      ensures step == if !old(playing) && old(step) == Last() then 0 else old(step)
    {
      if playing { Pause(); } else { Play(); }
    }

    method ToggleAudio()
      requires Valid()
      modifies this`audioEnabled, this`playbackToken, this`timer
      ensures Valid() && audioEnabled == !old(audioEnabled) && playbackToken > old(playbackToken)
      ensures timer == if playing && !audioEnabled then Some(playbackToken) else None
    {
      audioEnabled := !audioEnabled;
      ClearPlayback();
      if playing { PlayCurrentNarration(); }
    }

    method GoTo(n: int)
      requires Valid()
      modifies this`step, this`playing, this`playbackToken, this`timer
      ensures Valid() && !playing && timer.None? && playbackToken == old(playbackToken) + 1
      ensures step == if n < 0 then 0 else if n > Last() then Last() else n
    {
      Pause();
      SetStep(n);
    }

    method Next()
      requires Valid()
      modifies this`step, this`playing, this`playbackToken, this`timer
      ensures Valid() && !playing && timer.None? && playbackToken == old(playbackToken) + 1
      ensures step == if old(step) == Last() then old(step) else old(step) + 1
    {
      Pause();
      SetStep(if Last() < step + 1 then Last() else step + 1);
    }

    method SelectScenario(index: int)
      requires Valid()
      modifies this`scenario, this`step, this`playing, this`playbackToken, this`timer
      ensures Valid() && !playing && timer.None? && step == 0 && playbackToken == old(playbackToken) + 1
      ensures scenario == if index < 0 then 0 else if index >= |paths| then |paths| - 1 else index
    {
      Pause();
      scenario := if index < 0 then 0 else if index >= |paths| then |paths| - 1 else index;
      step := 0;
    }
  }

  datatype Event =
    | TimerDue | Ended(token: nat) | Failed(token: nat)
    | ClickPlay | ClickVoice | ClickNext | ClickStep(n: int) | ClickScenario(index: int) | Leave

  predicate Callback(e: Event) {
    e.TimerDue? || e.Ended? || e.Failed?
  }

  /** Any user actions and any callbacks, stale and repeated ones included, in any order: the step stays
      in range, a pending timer is always current, and no token ever moves playback on twice. */
  method Interact(f: Flow, events: seq<Event>)
    requires f.Valid()
    modifies f
    ensures f.Valid() && f.playbackToken >= old(f.playbackToken)
    ensures old(f.advances) <= f.advances
    ensures forall i, j | 0 <= i < j < |f.advances| :: f.advances[i] != f.advances[j]
    ensures forall i | |old(f.advances)| <= i < |f.advances| :: f.advances[i] >= old(f.playbackToken)
    ensures !old(f.playing) && (forall n | 0 <= n < |events| :: Callback(events[n])) ==>
              f.step == old(f.step) && f.advances == old(f.advances) && !f.playing
  {
    for n := 0 to |events|
      invariant f.Valid() && f.playbackToken >= old(f.playbackToken) && old(f.advances) <= f.advances
      invariant forall i | |old(f.advances)| <= i < |f.advances| :: f.advances[i] >= old(f.playbackToken)
      invariant !old(f.playing) && (forall m | 0 <= m < n :: Callback(events[m])) ==>
                  f.step == old(f.step) && f.advances == old(f.advances) && !f.playing
    {
      match events[n] {
        case TimerDue => if f.timer.Some? { f.TimerFires(); }
        case Ended(token) => f.OnEnded(token);
        case Failed(token) => f.OnFailed(token);
        case ClickPlay => f.TogglePlay();
        case ClickVoice => f.ToggleAudio();
        case ClickNext => f.Next();
        case ClickStep(k) => f.GoTo(k);
        case ClickScenario(index) => f.SelectScenario(index);
        case Leave => f.Pause();
      }
    }
  }

  /** Left alone, playback completes: one advance for every step still to show, and one to stop. */
  method PlayOut(f: Flow) returns (advances: nat)
    requires f.Valid() && f.playing
    modifies f
    ensures f.Valid() && !f.playing && f.step == f.Last() && f.scenario == old(f.scenario)
    ensures advances == f.paths[f.scenario] - old(f.step)
    ensures |f.advances| == |old(f.advances)| + advances
  {
    advances := 0;
    while f.playing
      invariant f.Valid() && f.scenario == old(f.scenario) && |f.advances| == |old(f.advances)| + advances
      invariant f.playing ==> f.step == old(f.step) + advances
      invariant !f.playing ==> f.step == f.Last() && advances == f.paths[f.scenario] - old(f.step)
      decreases f.playing, f.paths[f.scenario] - f.step
    {
      if f.timer.Some? {
        f.TimerFires();
      } else if * {
        f.OnEnded(f.playbackToken);
      } else {
        f.OnFailed(f.playbackToken);
        f.TimerFires();
      }
      advances := advances + 1;
    }
  }
}
