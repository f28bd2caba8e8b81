/** The race in SET_READY: trigger_next_swing starts between the two halves of SET_READY, which sets the
    state of nextSwingToTrigger first and queues nextSwingToTrigger then. */
module SwingRaces {
  import opened Wrappers
  import opened SwingPipeline
  import opened SwingInvariant
  import opened SwingTheorems

  /** The handler does not go on, and the channel's radar is not used without it. */
  predicate Meanwhile(acts: seq<Action>) { forall k :: 0 <= k < |acts| ==> !acts[k].Handler? && !acts[k].OtherSwing? }

  function Begins(acts: seq<Action>, k: nat): nat
    requires k <= |acts|
  {
    if k == 0 then 0 else Begins(acts, k - 1) + (if acts[k - 1].Begin? then 1 else 0)
  }

  // ---------------------------------------------------------------- what can happen in between

  /** No call has begun. */
  predicate Undisturbed(s: State, t: State) {
    && Scanning(t) && t.log.upcoming == s.log.upcoming && t.log.calls == s.log.calls
    && t.ch.triggered == s.ch.triggered
  }

  /** The first call of the scan has begun, and triggers the swing `up`: the other one is loaded, armed
      and triggered for the second period. */
  predicate InFirstCall(t: State, up: Swing) {
    && t.sw == (if Rank(t.loop.pc) <= 11 then SwingManager(up, Other(up), Other(up))
                else SwingManager(Other(up), up, Other(up)))
    && t.ch.state.At(up) == (if Rank(t.loop.pc) <= 1 then Trigger else Processing)
    && t.ch.state.At(Other(up)) == (if Rank(t.loop.pc) <= 10 then Inactive
                                    else if Rank(t.loop.pc) <= 12 then Ready else Trigger)
    && t.scan.isFirstPeriod == (Rank(t.loop.pc) <= 13) && (Rank(t.loop.pc) <= 5 ==> t.scan.isPrePeriod)
    && 0 <= t.scan.period && t.scan.period + 1 < |t.scan.beams|
    && t.loop.transmitting && t.ch.registered
    && t.ch.triggered == (if Rank(t.loop.pc) <= 13 then [] else [Other(up)])
    && !t.loop.pc.Relabel? && !t.loop.pc.CopyLabel? && !t.loop.pc.Publish?
  }

  /** A call has begun that reads out the swing `read`. */
  predicate InLaterCall(t: State, read: Swing, queue: seq<Swing>) {
    && t.sw == (if Rank(t.loop.pc) <= 11 then SwingManager(Other(read), read, read)
                else SwingManager(read, Other(read), read))
    && t.ch.state.At(read) == (if Rank(t.loop.pc) <= 7 then Processing else SamplesReady)
    && !t.scan.isFirstPeriod && t.loop.pc != AutoPush && t.ch.triggered == queue
  }

  /** What the state is after b calls have begun: in the first round of a scan there can be two, later
      on only one. */
  predicate Stage(s: State, t: State, b: nat) {
    && t.handler == s.handler
    && if b == 0 then Undisturbed(s, t)
       else if s.log.calls > 0 then b == 1 && InLaterCall(t, Other(Upcoming(s)), s.ch.triggered)
       else if b == 1 then InFirstCall(t, Upcoming(s))
       else b == 2 && InLaterCall(t, Upcoming(s), [Other(Upcoming(s))])
  }

  lemma UndisturbedLoop(s: State, t: State, freq: int)
    requires ControlInv(s) && s.handler.pc == PushSwing && Undisturbed(s, t) && t.handler == s.handler && LoopEnabled(t)
    ensures Undisturbed(s, LoopNext(t, freq))
  {
    LoopKept(t, freq);
    assert t.loop.pc != AutoPush;
  }

  /** The calls made when SET_READY is between its halves, and the queue it finds. */
  lemma AtPush(s: State)
    requires Scanning(s) && s.handler.pc == PushSwing
    ensures s.log.calls == 0 || 2 <= s.log.calls <= Periods(s)
    ensures s.log.calls == 0 ==> s.ch.triggered == []
    ensures s.log.calls > 0 ==> s.ch.triggered == [Other(Upcoming(s))]
  {}

  lemma FirstBegin(s: State, t: State, a: Action)
    requires Scanning(s) && s.handler.pc == PushSwing && Undisturbed(s, t) && t.handler == s.handler
    requires a.Begin? && Enabled(t, a)
    ensures Stage(s, Next(t, a), 1)
  {
    AtPush(t);
    assert t.sw.active == t.sw.nextToTrigger == Upcoming(s);
    if s.log.calls == 0 { BeginFirst(t, a); } else { BeginLater(t, a); }
  }

  lemma BeginFirst(t: State, a: Action)
    requires ControlInv(t) && ScanInv(t) && t.handler.pc == PushSwing && t.log.calls == 0 && t.ch.triggered == []
    requires a.Begin? && Enabled(t, a)
    ensures InFirstCall(Next(t, a), Upcoming(t))
  {}

  lemma BeginLater(t: State, a: Action)
    requires ControlInv(t) && ScanInv(t) && t.handler.pc == PushSwing && t.log.calls >= 2
    requires a.Begin? && Enabled(t, a)
    ensures InLaterCall(Next(t, a), Other(Upcoming(t)), t.ch.triggered)
  {}

  lemma FirstCallOn(t: State, up: Swing, freq: int)
    requires InFirstCall(t, up) && LoopEnabled(t)
    ensures InFirstCall(LoopNext(t, freq), up)
  {}

  lemma LaterCallOn(t: State, read: Swing, queue: seq<Swing>, freq: int)
    requires InLaterCall(t, read, queue) && LoopEnabled(t)
    ensures InLaterCall(LoopNext(t, freq), read, queue)
  {}

  /** After the first call the second one can begin, after a later one no further one. */
  lemma SecondBegin(t: State, up: Swing, a: Action)
    requires InFirstCall(t, up) && a.Begin? && Enabled(t, a)
    ensures InLaterCall(Next(t, a), up, [Other(up)])
  {}

  lemma NoThirdBegin(t: State, read: Swing, queue: seq<Swing>, a: Action)
    requires InLaterCall(t, read, queue) && a.Begin?
    ensures !Enabled(t, a)
  {}

  lemma StageStep(s: State, t: State, b: nat, a: Action)
    requires Scanning(s) && s.handler.pc == PushSwing && Stage(s, t, b)
    requires Enabled(t, a) && !a.Handler? && !a.OtherSwing?
    ensures Stage(s, Next(t, a), b + if a.Begin? then 1 else 0)
  {
    match a
    case Begin(_, _, _) =>
      if b == 0 { FirstBegin(s, t, a); }
      else if b == 1 && s.log.calls == 0 { SecondBegin(t, Upcoming(s), a); }
      else if b == 1 { NoThirdBegin(t, Other(Upcoming(s)), s.ch.triggered, a); }
      else { NoThirdBegin(t, Upcoming(s), [Other(Upcoming(s))], a); }
    case Loop(freq) =>
      if b == 0 { UndisturbedLoop(s, t, freq); }
      else if b == 1 && s.log.calls == 0 { FirstCallOn(t, Upcoming(s), freq); }
      else if b == 1 { LaterCallOn(t, Other(Upcoming(s)), s.ch.triggered, freq); }
      else { LaterCallOn(t, Upcoming(s), [Other(Upcoming(s))], freq); }
    case OtherSetActive =>
      if b == 0 { OtherSetActiveCore(t); OtherSetActiveQueues(t); }
  }

  lemma {:induction false} StageKept(s: State, ss: seq<State>, acts: seq<Action>, k: nat)
    requires Scanning(s) && s.handler.pc == PushSwing && IsPath(ss, acts) && Meanwhile(acts) && ss[0] == s
    requires k <= |acts|
    ensures Stage(s, ss[k], Begins(acts, k))
  {
    if k > 0 {
      StageKept(s, ss, acts, k - 1);
      assert Enabled(ss[k - 1], acts[k - 1]) && ss[k - 1 + 1] == Next(ss[k - 1], acts[k - 1]);
      StageStep(s, ss[k - 1], Begins(acts, k - 1), acts[k - 1]);
    }
  }

  // ---------------------------------------------------------------- what SET_READY queues

  /** The queue SET_READY leaves, however many calls have begun since it triggered the swing: if none
      has, the triggered swing is in front. If one has, the other swing is in front. In the first round
      of a scan, two may have: then the triggered swing is in front, but behind it, where GET_DATA takes
      its swing from, is the other one. */
  lemma QueueAfterPush(s: State, ss: seq<State>, acts: seq<Action>)
    requires Scanning(s) && s.handler.pc == PushSwing && IsPath(ss, acts) && Meanwhile(acts) && ss[0] == s
    ensures var t, b, up := ss[|acts|], Begins(acts, |acts|), Upcoming(s);
      && t.handler.pc == PushSwing && b <= (if s.log.calls == 0 then 2 else 1)
      && HandlerNext(t).ch.triggered ==
         if b == 0 then [up] + s.ch.triggered
         else if s.log.calls > 0 then [Other(up)] + s.ch.triggered
         else if b == 2 then [up, Other(up)]
         else if Rank(t.loop.pc) <= 13 then [Other(up)] else [Other(up), Other(up)]
  {
    StageKept(s, ss, acts, |acts|);
    AtPush(s);
    StageQueue(s, ss[|acts|], Begins(acts, |acts|));
  }

  lemma StageQueue(s: State, t: State, b: nat)
    requires s.handler.pc == PushSwing && Stage(s, t, b) && (s.log.calls == 0 ==> s.ch.triggered == [])
    ensures var up := Upcoming(s);
      && b <= (if s.log.calls == 0 then 2 else 1)
      && HandlerNext(t).ch.triggered ==
         if b == 0 then [up] + s.ch.triggered
         else if s.log.calls > 0 then [Other(up)] + s.ch.triggered
         else if b == 2 then [up, Other(up)]
         else if Rank(t.loop.pc) <= 13 then [Other(up)] else [Other(up), Other(up)]
  {
    if b == 0 { NextIsUpcoming(t); }
  }

  lemma NextIsUpcoming(t: State)
    requires ControlInv(t) && t.handler.pc == PushSwing
    ensures t.sw.nextToTrigger == Upcoming(t)
  {}

  /** The queue is right, with the triggered swing in front of those triggered before, exactly if no
      call has begun in between; and in the first round of a scan, GET_DATA takes the triggered swing
      exactly then. */
  lemma PushIff(s: State, ss: seq<State>, acts: seq<Action>)
    requires Scanning(s) && s.handler.pc == PushSwing && IsPath(ss, acts) && Meanwhile(acts) && ss[0] == s
    ensures s.ch.state.At(Upcoming(s)) == Trigger && ss[|acts|].handler.pc == PushSwing
    ensures var queue := HandlerNext(ss[|acts|]).ch.triggered;
      && queue != []
      && (queue == [Upcoming(s)] + s.ch.triggered <==> Begins(acts, |acts|) == 0)
      && (s.log.calls == 0 ==> (queue[|queue| - 1] == Upcoming(s) <==> Begins(acts, |acts|) == 0))
  {
    QueueAfterPush(s, ss, acts);
    AtPush(s);
  }

  // ---------------------------------------------------------------- two calls do happen

  lemma FirstCallEnabled(t: State, up: Swing)
    requires InFirstCall(t, up)
    ensures t.loop.pc != Idle ==> LoopEnabled(t)
    ensures t.loop.pc == Idle ==> Enabled(t, Begin(false, 1, false))
  {}

  lemma ExtendPath(ss: seq<State>, acts: seq<Action>, a: Action)
    requires IsPath(ss, acts) && Enabled(ss[|acts|], a)
    ensures IsPath(ss + [Next(ss[|acts|], a)], acts + [a])
    ensures Begins(acts + [a], |acts| + 1) == Begins(acts, |acts|) + if a.Begin? then 1 else 0
  {
    BeginsPrefix(acts, [a], |acts|);
  }

  lemma {:induction false} BeginsPrefix(acts: seq<Action>, more: seq<Action>, k: nat)
    requires k <= |acts|
    ensures Begins(acts + more, k) == Begins(acts, k)
  {
    if k > 0 { BeginsPrefix(acts, more, k - 1); }
  }

  lemma {:induction false} FirstCallAlone(ss: seq<State>, acts: seq<Action>, up: Swing)
    returns (ss': seq<State>, acts': seq<Action>)
    requires IsPath(ss, acts) && Meanwhile(acts) && InFirstCall(ss[|acts|], up)
    ensures IsPath(ss', acts') && Meanwhile(acts') && ss'[0] == ss[0]
    ensures Begins(acts', |acts'|) == Begins(acts, |acts|)
    ensures InFirstCall(ss'[|acts'|], up) && ss'[|acts'|].loop.pc == Idle
    decreases 15 - Rank(ss[|acts|].loop.pc)
  {
    var t := ss[|acts|];
    ss', acts' := ss, acts;
    if t.loop.pc != Idle {
      FirstCallEnabled(t, up);
      FirstCallOn(t, up, 0);
      ExtendPath(ss, acts, Loop(0));
      ss', acts' := FirstCallAlone(ss + [LoopNext(t, 0)], acts + [Loop(0)], up);
    }
  }

  /** In every scan, two calls can begin while SET_READY is between its halves: GET_DATA then takes the
      swing of the second period for that of the first. */
  lemma TwoCallsHappen(beams: seq<int>, freq: int) returns (s: State, ss: seq<State>, acts: seq<Action>)
    requires |beams| >= 2
    ensures Reachable(s) && Scanning(s) && s.handler.pc == PushSwing && s.scan.beams == beams
    ensures IsPath(ss, acts) && Meanwhile(acts) && ss[0] == s && Begins(acts, |acts|) == 2
    ensures ss[|acts|].handler.pc == PushSwing
    ensures HandlerNext(ss[|acts|]).ch.triggered == [Upcoming(s), Other(Upcoming(s))]
  {
    s := FirstTrigger(beams, freq);
    var a := Begin(false, 1, false);
    FirstBegin(s, s, a);
    ss, acts := [s], [];
    ExtendPath(ss, acts, a);
    ss, acts := FirstCallAlone([s, Next(s, a)], [a], Upcoming(s));
    FirstCallEnabled(ss[|acts|], Upcoming(s));
    ExtendPath(ss, acts, a);
    ss, acts := ss + [Next(ss[|acts|], a)], acts + [a];
    QueueAfterPush(s, ss, acts);
  }
}
