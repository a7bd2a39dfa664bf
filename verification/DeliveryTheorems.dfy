/** Delivery over whole runs: nothing fails, every file arrives, and every run gets there. */
module DeliveryTheorems {
  import opened Frames
  import opened SenderMachine
  import opened ReceiverMachine
  import opened AllOrNothing
  import opened Acknowledgements
  import opened Agreement
  import opened Settling
  import opened Stages
  import opened Delivery

  // ----- undisturbed runs -----

  /** Neither failures nor tampering nor lost queues, and the partial files the world holds. */
  predicate GoodEvent(w: World, n: Net, e: NetEvent) {
    match e
    case SenderProceeds => true
    case SenderTakes => true
    case ReceiverTakesControl => true
    case ReceiverTakesChunk => true
    case ReceiverMeets(event) => event == Work(ChoiceFor(w, n.r.task))
    case _ => false
  }

  predicate GoodRun(w: World, events: seq<NetEvent>) {
    events == []
    || (GoodRun(w, events[..|events| - 1]) && GoodEvent(w, Run(w, events[..|events| - 1]), events[|events| - 1]))
  }

  function StageAfter(w: World, st: Stage, n: Net, e: NetEvent): Stage {
    match e
    case SenderProceeds => AfterProceeds(w, st)
    case SenderTakes => if n.back == [] then st else AfterSenderTakes(st)
    case ReceiverTakesControl => if n.r.task.Idle? then AfterTakesControl(w, st) else st
    case ReceiverTakesChunk => if n.r.task.Idle? then AfterTakesChunk(w, st) else st
    case _ => st
  }

  function StageRun(w: World, events: seq<NetEvent>): Stage {
    if events == [] then Fresh
    else StageAfter(w, StageRun(w, events[..|events| - 1]), Run(w, events[..|events| - 1]), events[|events| - 1])
  }

  // ----- steps ahead of a settled receiver do not matter -----

  lemma {:induction false} SettleGrows(w: World, r: Receiver)
    requires Inv(r) && AckOk(r)
    ensures r.sent <= Settle(w, r).sent
    ensures r.failed || (r.task.Throwing? && !r.completed) ==> Settle(w, r).failed
    decreases TaskRank(r.task)
  {
    if !r.task.Idle? {
      var e := Work(ChoiceFor(w, r.task));
      WorkLowersRank(r, w.cfg, w.h, ChoiceFor(w, r.task));
      BothKept(r, w.cfg, w.h, e);
      SentGrows(r, w.cfg, w.h, e);
      WorkMoves(r, w.cfg, w.h, ChoiceFor(w, r.task));
      SettleGrows(w, WorkWell(w, r));
    }
  }

  lemma NewlySentTwice(back: seq<Control>, r: Receiver, t: Receiver, u: Receiver)
    requires r.sent <= t.sent <= u.sent
    ensures back + NewlySent(r, t) + NewlySent(t, u) == back + NewlySent(r, u)
  {
    assert NewlySent(r, t) + NewlySent(t, u) == NewlySent(r, u);
  }

  lemma WorkStutters(w: World, n: Net)
    requires Inv(n.r) && AckOk(n.r)
    ensures Settled(w, Step(w, n, ReceiverMeets(Work(ChoiceFor(w, n.r.task))))) == Settled(w, n)
  {
    var t := WorkWell(w, n.r);
    var e := Work(ChoiceFor(w, n.r.task));
    BothKept(n.r, w.cfg, w.h, e);
    SentGrows(n.r, w.cfg, w.h, e);
    SettleGrows(w, t);
    SettleAhead(w, n.r);
    NewlySentTwice(n.back, n.r, t, Settle(w, n.r));
  }

  lemma SettleAhead(w: World, r: Receiver)
    ensures Settle(w, WorkWell(w, r)) == Settle(w, r)
  {
  }

  lemma IdleIsSettled(w: World, n: Net)
    requires n.r.task.Idle?
    ensures Settled(w, n) == n
  {
    assert n.back + [] == n.back;
  }

  lemma ProceedsCommutes(w: World, n: Net)
    ensures Settled(w, Step(w, n, SenderProceeds)) == Step(w, Settled(w, n), SenderProceeds)
  {
  }

  lemma SenderTakesCommutes(w: World, n: Net)
    requires n.back != []
    ensures Settled(w, Step(w, n, SenderTakes)) == Step(w, Settled(w, n), SenderTakes)
  {
  }

  /** Each step of an undisturbed run moves the stage as `StageAfter` says. */
  lemma StageStep(w: World, st: Stage, n: Net, e: NetEvent)
    requires GoodWorld(w) && Inv(n.r) && AckOk(n.r)
    requires At(w, st, Settled(w, n)) && GoodEvent(w, n, e)
    ensures At(w, StageAfter(w, st, n, e), Settled(w, Step(w, n, e)))
  {
    match e
    case SenderProceeds =>
      ProceedsCommutes(w, n);
      ProceedsStage(w, st, Settled(w, n));
    case SenderTakes =>
      if n.back != [] {
        SenderTakesCommutes(w, n);
        SenderTakesStage(w, st, Settled(w, n));
      }
    case ReceiverTakesControl =>
      if n.r.task.Idle? {
        IdleIsSettled(w, n);
        TakesControlStage(w, st, n);
      }
    case ReceiverTakesChunk =>
      if n.r.task.Idle? {
        IdleIsSettled(w, n);
        TakesChunkStage(w, st, n);
      }
    case ReceiverMeets(_) => WorkStutters(w, n);
  }

  lemma {:induction false} EveryGoodRunIsStaged(w: World, events: seq<NetEvent>)
    requires GoodWorld(w) && GoodRun(w, events)
    ensures At(w, StageRun(w, events), Settled(w, Run(w, events)))
  {
    if events == [] {
      IdleIsSettled(w, INITIAL_NET);
    } else {
      var before := events[..|events| - 1];
      EveryGoodRunIsStaged(w, before);
      EveryNetRunKeeps(w.plan, w.cfg, w.h, before);
      StageStep(w, StageRun(w, before), Run(w, before), events[|events| - 1]);
    }
  }

  // ----- restarts -----

  /** Files the sender may have restarted come before this one. */
  function RestartBound(w: World, st: Stage): nat {
    match st
    case Fresh => 0
    case Begin(f, _) => f
    case Asked(f, _) => f
    case Offered(f) => f
    case Checking(f) => f
    case AskedAgain(f) => f + 1
    case OfferedAgain(f) => f + 1
    case CheckingAgain(f) => f + 1
    case Flowing(f, _, _, _) => f + 1
    case Ending(f, _, _) => f + 1
    case Confirmed(f) => f + 1
    case _ => |w.plan|
  }

  ghost predicate Increasing(log: seq<nat>, bound: nat) {
    && (forall i, j :: 0 <= i < j < |log| ==> log[i] < log[j])
    && (forall i :: 0 <= i < |log| ==> log[i] < bound)
  }

  predicate RestartsOf(s: Sender, t: Sender, st: Stage) {
    t.restartLog == s.restartLog || (st.Checking? && t.restartLog == s.restartLog + [st.f] && t.pc == AwaitRestart(st.f))
  }

  /** Restarts are asked for only when a ready state with an offset is checked. */
  lemma AdvanceRestarts(s: Sender, plan: seq<SendFile>, h: Hash)
    ensures var t := Advance(s, plan, h).0;
            || t.restartLog == s.restartLog
            || (s.pc.Verifying? && ReadyOf(s, s.pc.f).offset != 0
                && t.restartLog == s.restartLog + [s.pc.f] && t.pc == AwaitRestart(s.pc.f))
  {
  }

  lemma OthersRestartNothing(s: Sender, plan: seq<SendFile>, h: Hash, m: Control, e: SenderEvent)
    ensures Receive(s, m).restartLog == s.restartLog
    ensures !e.Proceed? ==> SenderStep(s, plan, h, e).restartLog == s.restartLog
  {
  }

  lemma SenderRestarts(w: World, st: Stage, n: Net, e: NetEvent)
    requires At(w, st, Settled(w, n))
    ensures RestartsOf(n.s, Step(w, n, e).s, st)
  {
    match e
    case SenderProceeds =>
      AdvanceRestarts(n.s, w.plan, w.h);
      if n.s.pc.Verifying? && ReadyOf(n.s, n.s.pc.f).offset != 0 {
        VerifyingIsChecking(w, st, n.s);
      }
    case SenderTakes => OthersRestartNothing(n.s, w.plan, w.h, if n.back == [] then Garbage else n.back[0], ChannelFails);
    case SenderMeets(trouble) => OthersRestartNothing(n.s, w.plan, w.h, Garbage, trouble);
    case _ =>
  }

  lemma VerifyingIsChecking(w: World, st: Stage, s: Sender)
    requires s == SenderOf(w, st, s) && s.pc.Verifying? && ReadyOf(s, s.pc.f).offset != 0
    ensures st.Checking? && st.f == s.pc.f
  {
  }

  lemma BoundGrows(w: World, st: Stage, n: Net, e: NetEvent)
    requires StageOk(w, st)
    ensures RestartBound(w, st) <= RestartBound(w, StageAfter(w, st, n, e))
  {
  }

  lemma StageRestarts(w: World, st: Stage, n: Net, e: NetEvent)
    requires GoodWorld(w) && Inv(n.r) && AckOk(n.r)
    requires At(w, st, Settled(w, n)) && GoodEvent(w, n, e)
    requires Increasing(n.s.restartLog, RestartBound(w, st))
    ensures Increasing(Step(w, n, e).s.restartLog, RestartBound(w, StageAfter(w, st, n, e)))
  {
    SenderRestarts(w, st, n, e);
    BoundGrows(w, st, n, e);
    if Step(w, n, e).s.restartLog != n.s.restartLog {
      StageStep(w, st, n, e);
      RestartIsAsked(w, st, n, e);
    }
  }

  lemma RestartIsAsked(w: World, st: Stage, n: Net, e: NetEvent)
    requires At(w, st, Settled(w, n)) && At(w, StageAfter(w, st, n, e), Settled(w, Step(w, n, e)))
    requires st.Checking? && Step(w, n, e).s.pc == AwaitRestart(st.f)
    ensures StageAfter(w, st, n, e) == AskedAgain(st.f)
  {
    var m := Settled(w, Step(w, n, e));
    assert m.s == SenderOf(w, StageAfter(w, st, n, e), m.s);
  }

  lemma {:induction false} RestartedOnce(w: World, events: seq<NetEvent>)
    requires GoodWorld(w) && GoodRun(w, events)
    ensures Increasing(Run(w, events).s.restartLog, RestartBound(w, StageRun(w, events)))
  {
    if events != [] {
      var before := events[..|events| - 1];
      RestartedOnce(w, before);
      EveryGoodRunIsStaged(w, before);
      EveryNetRunKeeps(w.plan, w.cfg, w.h, before);
      StageRestarts(w, StageRun(w, before), Run(w, before), events[|events| - 1]);
    }
  }

  // ----- every run gets there -----

  /** Steps of the sender from file `f` on. */
  function FilesRank(w: World, f: nat): nat
    decreases |w.plan| - f
  {
    if f >= |w.plan| then 2 else 2 * Chunks(w, f) + 7 + FilesRank(w, f + 1)
  }

  function StageRank(w: World, st: Stage): int {
    match st
    case Fresh => FilesRank(w, 0) + 1
    case Begin(f, _) => FilesRank(w, f)
    case Asked(f, _) => FilesRank(w, f) - 1
    case Offered(f) => FilesRank(w, f) - 1
    case Checking(f) => FilesRank(w, f) - 2
    case AskedAgain(f) => FilesRank(w, f) - 3
    case OfferedAgain(f) => FilesRank(w, f) - 3
    case CheckingAgain(f) => FilesRank(w, f) - 4
    case Flowing(f, _, j, holding) => 2 * (Chunks(w, f) - j) + (if holding then 1 else 2) + FilesRank(w, f + 1)
    case Ending(f, _, _) => FilesRank(w, f + 1) + 1
    case Confirmed(f) => FilesRank(w, f + 1) + 1
    case LastAsked => 1
    case LastOffered => 1
    case Home => 0
  }

  /** Work left: steps of the sender, messages under way. */
  function StageMeasure(w: World, st: Stage): int {
    3 * StageRank(w, st) + 2 * (|ControlOf(w, st)| + |BulkOf(w, st)|) + |BackOf(w, st)|
  }

  lemma ProceedsFalls(w: World, st: Stage)
    requires GoodWorld(w) && StageOk(w, st)
    ensures AfterProceeds(w, st) == st || StageMeasure(w, AfterProceeds(w, st)) < StageMeasure(w, st)
  {
    if st.Checking? {
      ResumedFits(w, st.f);
      StartOfOffset(Size(w.plan, st.f), |Resumed(w, st.f)|);
    }
  }

  lemma TakesFall(w: World, st: Stage)
    requires StageOk(w, st)
    ensures AfterSenderTakes(st) == st || StageMeasure(w, AfterSenderTakes(st)) < StageMeasure(w, st)
    ensures AfterTakesControl(w, st) == st || StageMeasure(w, AfterTakesControl(w, st)) < StageMeasure(w, st)
  {
  }

  lemma ChunkFalls(w: World, st: Stage)
    requires StageOk(w, st)
    ensures AfterTakesChunk(w, st) == st || StageMeasure(w, AfterTakesChunk(w, st)) < StageMeasure(w, st)
  {
  }

  lemma MeasureIsNatural(w: World, st: Stage)
    requires StageOk(w, st)
    ensures StageMeasure(w, st) >= 0
  {
  }

  /** Work left in the pair, the task in flight included. */
  function Weight(w: World, st: Stage, n: Net): int { 13 * StageMeasure(w, st) + TaskRank(n.r.task) }

  lemma TakingFalls(w: World, st: Stage, n: Net)
    requires GoodWorld(w) && At(w, st, n) && n.r.task.Idle?
    ensures n.control != [] ==> StageMeasure(w, AfterTakesControl(w, st)) < StageMeasure(w, st)
    ensures n.bulk != [] ==> StageMeasure(w, AfterTakesChunk(w, st)) < StageMeasure(w, st)
  {
    TakesFall(w, st);
    ChunkFalls(w, st);
    assert n.control != [] ==> AfterTakesControl(w, st) != st;
    assert n.bulk != [] ==> AfterTakesChunk(w, st) != st;
  }

  /** Every step that changes anything leaves less work. */
  lemma StepFalls(w: World, st: Stage, n: Net, e: NetEvent)
    requires GoodWorld(w) && At(w, st, Settled(w, n)) && GoodEvent(w, n, e) && Step(w, n, e) != n
    ensures Weight(w, StageAfter(w, st, n, e), Step(w, n, e)) < Weight(w, st, n)
  {
    match e
    case SenderProceeds =>
      ProceedsFalls(w, st);
      ProceedsStage(w, st, Settled(w, n));
    case SenderTakes =>
      TakesFall(w, st);
      SenderTakesStage(w, st, Settled(w, n));
    case ReceiverTakesControl =>
      IdleIsSettled(w, n);
      TakingFalls(w, st, n);
    case ReceiverTakesChunk =>
      IdleIsSettled(w, n);
      TakingFalls(w, st, n);
    case ReceiverMeets(_) =>
      IdleRests(w, n);
      WorkLowersRank(n.r, w.cfg, w.h, ChoiceFor(w, n.r.task));
  }

  /** A receiver without a task has no work to do. */
  lemma IdleRests(w: World, n: Net)
    ensures n.r.task.Idle? ==> Step(w, n, ReceiverMeets(Work(ChoiceFor(w, n.r.task)))) == n
  {
    assert n.back + [] == n.back;
  }

  /** Every step of the run changed something. */
  predicate Effective(w: World, events: seq<NetEvent>) {
    events == []
    || (Effective(w, events[..|events| - 1]) && Run(w, events) != Run(w, events[..|events| - 1]))
  }

  lemma {:induction false} RunFalls(w: World, events: seq<NetEvent>)
    requires GoodWorld(w) && GoodRun(w, events) && Effective(w, events)
    ensures |events| + Weight(w, StageRun(w, events), Run(w, events)) <= Weight(w, Fresh, INITIAL_NET)
  {
    if events != [] {
      var before := events[..|events| - 1];
      RunFalls(w, before);
      EveryGoodRunIsStaged(w, before);
      StepFalls(w, StageRun(w, before), Run(w, before), events[|events| - 1]);
    }
  }

  /** A step that is possible at a stage other than the last one. */
  function EventAt(w: World, st: Stage, n: Net): NetEvent {
    if !n.r.task.Idle? then ReceiverMeets(Work(ChoiceFor(w, n.r.task)))
    else
      match st
      case Asked(_, _) => ReceiverTakesControl
      case AskedAgain(_) => ReceiverTakesControl
      case LastAsked => ReceiverTakesControl
      case Ending(_, _, told) => if told then ReceiverTakesChunk else ReceiverTakesControl
      case Offered(_) => SenderTakes
      case OfferedAgain(_) => SenderTakes
      case Confirmed(_) => SenderTakes
      case LastOffered => SenderTakes
      case _ => SenderProceeds
  }

  lemma SenderMoves(w: World, st: Stage, n: Net)
    requires GoodWorld(w) && At(w, st, n) && AfterProceeds(w, st) != st
    ensures Step(w, n, SenderProceeds) != n
  {
    ProceedsStage(w, st, n);
  }

  lemma QueueMoves(w: World, n: Net)
    requires n.r.task.Idle? && !Stopped(n.r)
    ensures n.back != [] ==> Step(w, n, SenderTakes) != n
    ensures n.control != [] ==> Step(w, n, ReceiverTakesControl) != n
    ensures n.bulk != [] ==> Step(w, n, ReceiverTakesChunk) != n
  {
    assert n.back != [] ==> |Step(w, n, SenderTakes).back| < |n.back|;
    assert n.control != [] ==> |Step(w, n, ReceiverTakesControl).control| < |n.control|;
    assert n.bulk != [] ==> |Step(w, n, ReceiverTakesChunk).bulk| < |n.bulk|;
  }

  lemma QueueIsFull(w: World, st: Stage, n: Net)
    requires At(w, st, n) && !st.Home?
    ensures EventAt(w, st, n).SenderTakes? ==> n.back != []
    ensures EventAt(w, st, n).ReceiverTakesControl? ==> n.control != [] && !Stopped(n.r)
    ensures EventAt(w, st, n).ReceiverTakesChunk? ==> n.bulk != [] && !Stopped(n.r)
  {
    if st.Ending? && st.told {
      ChunksHead(w, st.f, st.i, Chunks(w, st.f));
    }
  }

  /** No deadlock: until the sender returned, some step changes something. */
  lemma SomeStep(w: World, st: Stage, n: Net)
    requires GoodWorld(w) && At(w, st, Settled(w, n)) && (st.Home? ==> !n.r.task.Idle?)
    ensures GoodEvent(w, n, EventAt(w, st, n)) && Step(w, n, EventAt(w, st, n)) != n
  {
    if !n.r.task.Idle? {
      WorkLowersRank(n.r, w.cfg, w.h, ChoiceFor(w, n.r.task));
    } else {
      IdleIsSettled(w, n);
      IdleSomeStep(w, st, n);
    }
  }

  lemma IdleSomeStep(w: World, st: Stage, n: Net)
    requires GoodWorld(w) && At(w, st, n) && !st.Home? && n.r.task.Idle?
    ensures GoodEvent(w, n, EventAt(w, st, n)) && Step(w, n, EventAt(w, st, n)) != n
  {
    QueueIsFull(w, st, n);
    if EventAt(w, st, n).SenderProceeds? {
      SenderMoves(w, st, n);
    } else if EventAt(w, st, n).SenderTakes? {
      assert |Step(w, n, SenderTakes).back| < |n.back|;
    } else {
      QueueMoves(w, n);
    }
  }

  // ----- the theorems -----

  /** Nothing on either side has failed or is about to. */
  predicate Undisturbed(n: Net) {
    && !n.s.failed && !n.s.pc.Threw?
    && !n.r.failed && !n.r.task.Throwing?
  }

  /**
   Safety. In every undisturbed run, over every interleaving and whatever partial files there
   were, no check of either side ever fails, each file is restarted at most once, and when
   the sender has returned the receiver completed with exactly the sender's bytes.
  */
  lemma DeliveryTheorem(w: World, events: seq<NetEvent>)
    requires GoodWorld(w) && GoodRun(w, events)
    ensures var n := Run(w, events);
            && Undisturbed(n)
            && (forall i, j :: 0 <= i < j < |n.s.restartLog| ==> n.s.restartLog[i] != n.s.restartLog[j])
            && (n.s.pc.Returned? ==>
                  && n.r.completed
                  && (forall id: nat :: id in n.r.finals <==> id < |w.plan|)
                  && (forall i: nat :: i < |w.plan| ==> i in n.r.finals && n.r.finals[i] == w.plan[i].content))
  {
    var n := Run(w, events);
    EveryGoodRunIsStaged(w, events);
    RestartedOnce(w, events);
    EveryNetRunKeeps(w.plan, w.cfg, w.h, events);
    StagedIsUndisturbed(w, StageRun(w, events), n);
    if n.s.pc.Returned? {
      AgreementTheorem(w.plan, w.cfg, w.h, events);
      HomeIsDelivered(w, StageRun(w, events), n);
    }
  }

  lemma StagedIsUndisturbed(w: World, st: Stage, n: Net)
    requires At(w, st, Settled(w, n)) && Inv(n.r) && AckOk(n.r)
    ensures Undisturbed(n)
  {
    SettleGrows(w, n.r);
    assert !Settle(w, n.r).failed;
    assert n.s == SenderOf(w, st, n.s);
  }

  lemma HomeIsDelivered(w: World, st: Stage, n: Net)
    requires At(w, st, Settled(w, n)) && n.s.pc.Returned? && n.r.completed && Inv(n.r)
    ensures n.r.finals == DoneFinals(w, |w.plan|)
    ensures forall i: nat :: i < |w.plan| ==> i in n.r.finals && n.r.finals[i] == w.plan[i].content
  {
    IdleIsSettled(w, n);
    assert n.s == SenderOf(w, st, n.s);
    DoneFinalsAre(w, |w.plan|);
  }

  /**
   Progress. A run in which every step changes something is shorter than a bound fixed at the
   start, and it can be continued until the sender has returned: the transfer always gets there.
  */
  lemma ProgressTheorem(w: World, events: seq<NetEvent>)
    requires GoodWorld(w) && GoodRun(w, events) && Effective(w, events)
    ensures |events| <= Weight(w, Fresh, INITIAL_NET)
    ensures var n := Run(w, events);
            n.s.pc.Returned? || exists e :: GoodEvent(w, n, e) && Step(w, n, e) != n
  {
    var n := Run(w, events);
    EveryGoodRunIsStaged(w, events);
    RunFalls(w, events);
    MeasureIsNatural(w, StageRun(w, events));
    if !n.s.pc.Returned? {
      assert !StageRun(w, events).Home?;
      SomeStep(w, StageRun(w, events), n);
    }
  }
}
