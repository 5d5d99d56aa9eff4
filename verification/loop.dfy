/**
 * The monitor loop: one iteration of the polling loop as a transition of
 * the loop variables, the object that performs it, and what holds over
 * finite runs of iterations.
 */
module Loop {
  import opened Wrappers
  import opened Playback
  import opened Audio

  /** Consecutive failed iterations that trigger a restart of the player. */
  const MAX_ERRORS: nat := 3
  /** Minimum time, in seconds, between two checks. */
  const MIN_INTERVAL: real := 1.0

  /** The loop variables `is_muted`, `consecutive_errors` and `last_check_time`. */
  datatype LoopState = LoopState(isMuted: bool, consecutiveErrors: nat, lastCheckTime: real)

  /** The loop variables before the first iteration. */
  const INITIAL := LoopState(false, 0, 0.0)

  /**
   * What one iteration meets: the clock reading, whether the body raises
   * before it assigns a loop variable, the token `refresh_token` returns,
   * the replies of the two playback calls, and whether the audio service
   * honours the mute actuator's first write and its retry.
   */
  datatype Iteration = Iteration(
    now: real, fault: bool, token: Option<string>, current: Reply, playback: Reply,
    firstWriteTakes: bool, retryTakes: bool)

  /** The outward actions of an iteration. */
  datatype Event = TokenRefresh | PlaybackQuery | SetMuteState(mute: bool) | RestartPlayer

  datatype StepResult = StepResult(next: LoopState, events: seq<Event>)

  /** `if not token`: None and the empty string both count as no token. */
  predicate HasToken(token: Option<string>) {
    token.Some? && token.value != ""
  }

  predicate Throttled(s: LoopState, now: real) {
    now - s.lastCheckTime < MIN_INTERVAL
  }

  /** The iteration gets as far as asking whether an ad is playing. */
  predicate Polls(s: LoopState, it: Iteration) {
    !it.fault && !Throttled(s, it.now) && HasToken(it.token)
  }

  /** The mute state the iteration asks the actuator for, if any. */
  function MuteCommand(s: LoopState, it: Iteration): (command: Option<bool>)
    ensures command.Some? ==> Polls(s, it) && command.value != s.isMuted
    ensures command.Some? ==> command.value == CheckForAds(it.current, it.playback)
  {
    if Polls(s, it) && CheckForAds(it.current, it.playback) != s.isMuted
    then Some(!s.isMuted)
    else None
  }

  /** One iteration of the loop body. */
  function Step(s: LoopState, it: Iteration): (r: StepResult)
    ensures !it.fault && (Throttled(s, it.now) || !HasToken(it.token)) ==> r.next == s
    ensures Throttled(s, it.now) && !it.fault ==> r.events == []
    ensures Polls(s, it) ==>
      r.next == LoopState(CheckForAds(it.current, it.playback), 0, it.now)
    ensures it.fault ==>
      r.next.isMuted == s.isMuted && r.next.lastCheckTime == s.lastCheckTime &&
      r.next.consecutiveErrors == (if s.consecutiveErrors + 1 >= MAX_ERRORS then 0 else s.consecutiveErrors + 1)
    ensures (RestartPlayer in r.events) <==> it.fault && s.consecutiveErrors + 1 >= MAX_ERRORS
    ensures s.consecutiveErrors < MAX_ERRORS ==> r.next.consecutiveErrors < MAX_ERRORS
  {
    if it.fault then
      if s.consecutiveErrors + 1 >= MAX_ERRORS
      then StepResult(s.(consecutiveErrors := 0), [RestartPlayer])
      else StepResult(s.(consecutiveErrors := s.consecutiveErrors + 1), [])
    else if Throttled(s, it.now) then StepResult(s, [])
    else if !HasToken(it.token) then StepResult(s, [TokenRefresh])
    else
      var command := MuteCommand(s, it);
      StepResult(
        LoopState(CheckForAds(it.current, it.playback), 0, it.now),
        [TokenRefresh, PlaybackQuery] + (if command.Some? then [SetMuteState(command.value)] else []))
  }

  /** The iterations `its` run in order from `s`: the final state and every event. */
  function Run(s: LoopState, its: seq<Iteration>): StepResult
    decreases |its|
  {
    if its == [] then StepResult(s, [])
    else
      var before := Run(s, its[..|its| - 1]);
      var last := Step(before.next, its[|its| - 1]);
      StepResult(last.next, before.events + last.events)
  }

  /** The mute states requested, in order. */
  function Mutes(events: seq<Event>): seq<bool> {
    if events == [] then []
    else (if events[0].SetMuteState? then [events[0].mute] else []) + Mutes(events[1..])
  }

  /** The number of restarts of the player. */
  function Restarts(events: seq<Event>): nat {
    if events == [] then 0
    else (if events[0] == RestartPlayer then 1 else 0) + Restarts(events[1..])
  }

  predicate AllFaults(its: seq<Iteration>) {
    forall i :: 0 <= i < |its| ==> its[i].fault
  }

  /** The last mute state requested; unmuted when none was. */
  function LastRequest(mutes: seq<bool>): bool {
    |mutes| > 0 && mutes[|mutes| - 1]
  }

  /** Requests alternate, mute first: true, false, true, ... */
  predicate Alternating(mutes: seq<bool>) {
    && (|mutes| > 0 ==> mutes[0])
    && forall i :: 0 < i < |mutes| ==> mutes[i] != mutes[i - 1]
  }

  lemma {:induction false} MutesAppend(a: seq<Event>, b: seq<Event>)
    ensures Mutes(a + b) == Mutes(a) + Mutes(b)
  {
    if a == [] {
      assert a + b == b;
    } else {
      assert (a + b)[0] == a[0];
      assert (a + b)[1..] == a[1..] + b;
      MutesAppend(a[1..], b);
    }
  }

  lemma {:induction false} RestartsAppend(a: seq<Event>, b: seq<Event>)
    ensures Restarts(a + b) == Restarts(a) + Restarts(b)
  {
    if a == [] {
      assert a + b == b;
    } else {
      assert (a + b)[0] == a[0];
      assert (a + b)[1..] == a[1..] + b;
      RestartsAppend(a[1..], b);
    }
  }

  /** An iteration requests a mute state only when the verdict differs from `is_muted`, and then adopts it. */
  lemma StepMutes(s: LoopState, it: Iteration)
    ensures Mutes(Step(s, it).events) == if MuteCommand(s, it).Some? then [MuteCommand(s, it).value] else []
    ensures Step(s, it).next.isMuted == if MuteCommand(s, it).Some? then MuteCommand(s, it).value else s.isMuted
    ensures Restarts(Step(s, it).events) == if RestartPlayer in Step(s, it).events then 1 else 0
  {
    if Polls(s, it) {
      var command := MuteCommand(s, it);
      var tail := if command.Some? then [SetMuteState(command.value)] else [];
      assert Step(s, it).events == [TokenRefresh, PlaybackQuery] + tail;
      MutesAppend([TokenRefresh, PlaybackQuery], tail);
      RestartsAppend([TokenRefresh, PlaybackQuery], tail);
    }
  }

  /**
   * A run extended by one iteration: that iteration's step is taken from
   * the run's state, and the longer run requests no mute change only if
   * the shorter did not and the iteration did not either.
   */
  lemma RunExtend(s: LoopState, its: seq<Iteration>, k: nat)
    requires k < |its|
    ensures Run(s, its[..k + 1]).next == Step(Run(s, its[..k]).next, its[k]).next
    ensures Run(s, its[..k + 1]).events == Run(s, its[..k]).events + Step(Run(s, its[..k]).next, its[k]).events
    ensures Mutes(Run(s, its[..k + 1]).events) == [] ==>
      Mutes(Run(s, its[..k]).events) == [] && MuteCommand(Run(s, its[..k]).next, its[k]).None?
  {
    assert its[..k + 1][..k] == its[..k];
    var before := Run(s, its[..k]);
    MutesAppend(before.events, Step(before.next, its[k]).events);
    StepMutes(before.next, its[k]);
  }

  /** The error counter stays below the restart threshold between iterations of any run. */
  lemma {:induction false} RunKeepsErrorBudget(s: LoopState, its: seq<Iteration>)
    requires s.consecutiveErrors < MAX_ERRORS
    ensures Run(s, its).next.consecutiveErrors < MAX_ERRORS
    decreases |its|
  {
    if its != [] {
      RunKeepsErrorBudget(s, its[..|its| - 1]);
    }
  }

  /**
   * A run of failing iterations restarts the player once per threshold
   * reached and leaves the remainder in the counter, below the threshold
   * (counter `(e + k) mod 3`, `(e + k) div 3` restarts); nothing else changes.
   */
  lemma {:induction false} FaultRun(s: LoopState, its: seq<Iteration>)
    requires s.consecutiveErrors < MAX_ERRORS
    requires AllFaults(its)
    ensures Run(s, its).next == s.(consecutiveErrors := Run(s, its).next.consecutiveErrors)
    ensures MAX_ERRORS * Restarts(Run(s, its).events) + Run(s, its).next.consecutiveErrors
      == s.consecutiveErrors + |its|
    ensures Run(s, its).next.consecutiveErrors < MAX_ERRORS
    ensures Mutes(Run(s, its).events) == []
    decreases |its|
  {
    if its != [] {
      var init, it := its[..|its| - 1], its[|its| - 1];
      assert AllFaults(init) && it.fault;
      FaultRun(s, init);
      var before := Run(s, init);
      var last := Step(before.next, it);
      FaultStep(before.next, it);
      RestartsAppend(before.events, last.events);
      MutesAppend(before.events, last.events);
    }
  }

  /** A failing iteration only counts the error, restarting the player at the threshold. */
  lemma FaultStep(s: LoopState, it: Iteration)
    requires it.fault
    ensures Step(s, it).next ==
      s.(consecutiveErrors := if s.consecutiveErrors + 1 >= MAX_ERRORS then 0 else s.consecutiveErrors + 1)
    ensures Restarts(Step(s, it).events) == if s.consecutiveErrors + 1 >= MAX_ERRORS then 1 else 0
    ensures Mutes(Step(s, it).events) == []
  {
  }

  /** Three consecutive failing iterations from a clean counter restart the player exactly once and reset the counter. */
  lemma ThreeFaultsRestartOnce(s: LoopState, its: seq<Iteration>)
    requires s.consecutiveErrors == 0 && |its| == MAX_ERRORS && AllFaults(its)
    ensures Run(s, its).next == s
    ensures Restarts(Run(s, its).events) == 1
  {
    FaultRun(s, its);
  }

  /** Fewer than three failing iterations from a clean counter do not restart the player. */
  lemma FewFaultsNoRestart(s: LoopState, its: seq<Iteration>)
    requires s.consecutiveErrors == 0 && |its| < MAX_ERRORS && AllFaults(its)
    ensures Run(s, its).next.consecutiveErrors == |its|
    ensures Restarts(Run(s, its).events) == 0
  {
    FaultRun(s, its);
  }

  /**
   * From the loop's start, mute and unmute requests strictly alternate,
   * beginning with a mute, and `is_muted` records the last request.
   */
  lemma {:induction false} MuteRequestsAlternate(its: seq<Iteration>)
    ensures Alternating(Mutes(Run(INITIAL, its).events))
    ensures Run(INITIAL, its).next.isMuted == LastRequest(Mutes(Run(INITIAL, its).events))
    decreases |its|
  {
    if its != [] {
      var k := |its| - 1;
      assert its[..k + 1] == its;
      MuteRequestsAlternate(its[..k]);
      RunExtend(INITIAL, its, k);
      var before := Run(INITIAL, its[..k]);
      var step := Step(before.next, its[k]);
      MutesAppend(before.events, step.events);
      StepMutes(before.next, its[k]);
      AlternationExtends(Mutes(before.events), Mutes(step.events));
    }
  }

  /** Appending nothing, or the opposite of the last request, keeps requests alternating. */
  lemma AlternationExtends(earlier: seq<bool>, added: seq<bool>)
    requires Alternating(earlier)
    requires added == [] || added == [!LastRequest(earlier)]
    ensures Alternating(earlier + added)
    ensures LastRequest(earlier + added) == if added == [] then LastRequest(earlier) else !LastRequest(earlier)
  {
  }

  /** An iteration less than a second after a successful check does nothing at all unless it raises. */
  lemma ThrottleAfterCheck(s: LoopState, first: Iteration, second: Iteration)
    requires Polls(s, first)
    requires !second.fault && second.now - first.now < MIN_INTERVAL
    ensures Run(s, [first, second]) == Run(s, [first])
    ensures Step(Step(s, first).next, second) == StepResult(Step(s, first).next, [])
  {
  }

  /** The polling loop's variables and the record of what it has done. */
  class Monitor {
    var isMuted: bool
    var consecutiveErrors: nat
    var lastCheckTime: real
    ghost var log: seq<Event>

    function State(): LoopState
      reads this
    {
      LoopState(isMuted, consecutiveErrors, lastCheckTime)
    }

    /** Between iterations the counter is below the restart threshold. */
    ghost predicate Valid()
      reads this
    {
      consecutiveErrors < MAX_ERRORS
    }

    constructor ()
      ensures Valid() && State() == INITIAL && log == []
    {
      isMuted, consecutiveErrors, lastCheckTime := false, 0, 0.0;
      log := [];
    }

    /** One iteration of the `while True` body, acting on the mixer's `sessions`. */
    method Iterate(it: Iteration, sessions: seq<AudioSession>)
      requires Valid()
      modifies this, set s | s in sessions
      ensures Valid()
      ensures State() == Step(old(State()), it).next
      ensures log == old(log) + Step(old(State()), it).events
      ensures MuteCommand(old(State()), it).None? || NoSpotify(sessions) ==>
        forall s :: s in sessions ==> s.muted == old(s.muted)
      ensures MuteCommand(old(State()), it).Some? ==>
        forall i :: FirstSpotifyAt(sessions, i) ==>
          && sessions[i].muted ==
               (if it.firstWriteTakes || it.retryTakes then MuteCommand(old(State()), it).value
                else old(sessions[i].muted))
          && forall s :: s in sessions && s != sessions[i] ==> s.muted == old(s.muted)
    {
      if it.fault {
        consecutiveErrors := consecutiveErrors + 1;
        if consecutiveErrors >= MAX_ERRORS {
          log := log + [RestartPlayer];
          consecutiveErrors := 0;
        }
        return;
      }
      if it.now - lastCheckTime < MIN_INTERVAL {
        return;
      }
      log := log + [TokenRefresh];
      if !HasToken(it.token) {
        return;
      }
      log := log + [PlaybackQuery];
      var isAd := CheckForAds(it.current, it.playback);
      if isAd {
        if !isMuted {
          log := log + [SetMuteState(true)];
          var writes := MuteSpotify(sessions, true, it.firstWriteTakes, it.retryTakes);
          isMuted := true;
        }
      } else {
        if isMuted {
          log := log + [SetMuteState(false)];
          var writes := MuteSpotify(sessions, false, it.firstWriteTakes, it.retryTakes);
          isMuted := false;
        }
      }
      consecutiveErrors := 0;
      lastCheckTime := it.now;
    }

    /**
     * A finite prefix of the loop: the iterations `its`, in order. A run
     * that requests no mute change leaves every session's flag alone.
     */
    method RunIterations(its: seq<Iteration>, sessions: seq<AudioSession>)
      requires Valid()
      modifies this, set s | s in sessions
      ensures Valid()
      ensures State() == Run(old(State()), its).next
      ensures log == old(log) + Run(old(State()), its).events
      ensures Mutes(Run(old(State()), its).events) == [] ==>
        forall s :: s in sessions ==> s.muted == old(s.muted)
    {
      for k := 0 to |its|
        invariant Valid()
        invariant State() == Run(old(State()), its[..k]).next
        invariant log == old(log) + Run(old(State()), its[..k]).events
        invariant Mutes(Run(old(State()), its[..k]).events) == [] ==>
          forall s :: s in sessions ==> s.muted == old(s.muted)
      {
        RunExtend(old(State()), its, k);
        Iterate(its[k], sessions);
      }
      assert its[..|its|] == its;
    }
  }
}
