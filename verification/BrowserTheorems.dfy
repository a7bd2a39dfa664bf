/**
 A browser that sends: its runs with a receiver are runs of the pair of machines, so what was
 proved of those holds of it. Reads of the file may return anything.
*/
module BrowserTheorems {
  import opened Prelude
  import opened Frames
  import opened SenderMachine
  import opened ReceiverMachine
  import opened Agreement
  import opened Settling
  import opened Stages
  import opened Delivery
  import opened DeliveryTheorems
  import opened BrowserSender

  /** The browser's sender and its peer; `net.s` are the sender's fields outside the loop. */
  datatype BrowserNet = BrowserNet(net: Net, loop: Loop)

  const INITIAL_BROWSER_NET := BrowserNet(INITIAL_NET, StartLoop(0))

  /** The sender goes on, reading these bytes if it reads; or anything else happens. */
  datatype BrowserEvent = Proceeds(read: Bytes) | Elsewhere(e: NetEvent)

  function BrowserOf(n: BrowserNet): Browser { Browser(n.net.s, n.loop) }

  function BrowserStep(n: BrowserNet, plan: seq<SendFile>, cfg: Config, h: Hash, e: BrowserEvent): BrowserNet {
    match e
    case Proceeds(read) =>
      var (b, out) := BrowserAdvance(BrowserOf(n), plan, h, read);
      BrowserNet(n.net.(s := b.s, control := n.net.control + out.control, bulk := n.net.bulk + out.bulk), b.loop)
    case Elsewhere(e) => if e.SenderProceeds? then n else n.(net := NetStep(n.net, plan, cfg, h, e))
  }

  function BrowserRun(plan: seq<SendFile>, cfg: Config, h: Hash, events: seq<BrowserEvent>): BrowserNet {
    if events == [] then INITIAL_BROWSER_NET
    else BrowserStep(BrowserRun(plan, cfg, h, events[..|events| - 1]), plan, cfg, h, events[|events| - 1])
  }

  // ----- the run of the machines -----

  function NetOf(n: BrowserNet, plan: seq<SendFile>): Net { n.net.(s := Seen(BrowserOf(n), plan)) }

  /** The steps of the machines for one step here: one, or none for a skipped chunk. */
  function Mirror(n: BrowserNet, plan: seq<SendFile>, h: Hash, e: BrowserEvent): seq<NetEvent> {
    match e
    case Proceeds(read) =>
      (match ShadowOf(BrowserOf(n), plan, h, read)
       case Stays => []
       case Moves => [SenderProceeds]
       case Breaks => [SenderMeets(SourceChanged)])
    case Elsewhere(e) => if e.SenderProceeds? then [] else [e]
  }

  function MirrorRun(plan: seq<SendFile>, cfg: Config, h: Hash, events: seq<BrowserEvent>): seq<NetEvent> {
    if events == [] then []
    else
      var before := events[..|events| - 1];
      MirrorRun(plan, cfg, h, before) + Mirror(BrowserRun(plan, cfg, h, before), plan, h, events[|events| - 1])
  }

  predicate EventUndeceived(n: BrowserNet, plan: seq<SendFile>, h: Hash, e: BrowserEvent) {
    e.Proceeds? ==> Undeceived(BrowserOf(n), plan, h, e.read)
  }

  predicate RunUndeceived(plan: seq<SendFile>, cfg: Config, h: Hash, events: seq<BrowserEvent>) {
    events == []
    || (var before := events[..|events| - 1];
        RunUndeceived(plan, cfg, h, before)
        && EventUndeceived(BrowserRun(plan, cfg, h, before), plan, h, events[|events| - 1]))
  }

  function NetSteps(n: Net, plan: seq<SendFile>, cfg: Config, h: Hash, mirror: seq<NetEvent>): Net
    requires |mirror| <= 1
  {
    if mirror == [] then n else NetStep(n, plan, cfg, h, mirror[0])
  }

  lemma ProceedsMirrors(n: BrowserNet, plan: seq<SendFile>, cfg: Config, h: Hash, read: Bytes)
    requires LoopOk(BrowserOf(n), plan) && Undeceived(BrowserOf(n), plan, h, read)
    ensures var t := BrowserStep(n, plan, cfg, h, Proceeds(read));
            && LoopOk(BrowserOf(t), plan)
            && NetOf(t, plan) == NetSteps(NetOf(n, plan), plan, cfg, h, Mirror(n, plan, h, Proceeds(read)))
  {
    var b := BrowserOf(n);
    AdvanceMirrors(b, plan, h, read);
    assert n.net.control + [] == n.net.control && n.net.bulk + [] == n.net.bulk;
    if ShadowOf(b, plan, h, read).Breaks? {
      assert CanAdvance(b.s);
    }
  }

  lemma ElsewhereMirrors(n: BrowserNet, plan: seq<SendFile>, cfg: Config, h: Hash, e: NetEvent)
    requires LoopOk(BrowserOf(n), plan)
    ensures var t := BrowserStep(n, plan, cfg, h, Elsewhere(e));
            && LoopOk(BrowserOf(t), plan)
            && NetOf(t, plan) == NetSteps(NetOf(n, plan), plan, cfg, h, Mirror(n, plan, h, Elsewhere(e)))
  {
    if e.SenderTakes? && n.net.back != [] {
      OthersMirror(BrowserOf(n), plan, h, Incoming(n.net.back[0]));
    } else if e.SenderMeets? && IsTrouble(e.trouble) {
      OthersMirror(BrowserOf(n), plan, h, e.trouble);
    }
  }

  lemma NetRunOneMore(plan: seq<SendFile>, cfg: Config, h: Hash, events: seq<NetEvent>, mirror: seq<NetEvent>)
    requires |mirror| <= 1
    ensures NetRun(plan, cfg, h, events + mirror) == NetSteps(NetRun(plan, cfg, h, events), plan, cfg, h, mirror)
  {
    if mirror == [] {
      assert events + mirror == events;
    } else {
      assert (events + mirror)[..|events + mirror| - 1] == events;
    }
  }

  /** Refinement: every run of a browser's sender and a receiver is a run of the two machines. */
  lemma {:induction false} EveryBrowserRunMirrors(plan: seq<SendFile>, cfg: Config, h: Hash, events: seq<BrowserEvent>)
    requires RunUndeceived(plan, cfg, h, events)
    ensures var n := BrowserRun(plan, cfg, h, events);
            LoopOk(BrowserOf(n), plan) && NetOf(n, plan) == NetRun(plan, cfg, h, MirrorRun(plan, cfg, h, events))
  {
    if events != [] {
      var before, e := events[..|events| - 1], events[|events| - 1];
      var n := BrowserRun(plan, cfg, h, before);
      EveryBrowserRunMirrors(plan, cfg, h, before);
      NetRunOneMore(plan, cfg, h, MirrorRun(plan, cfg, h, before), Mirror(n, plan, h, e));
      match e
      case Proceeds(read) => ProceedsMirrors(n, plan, cfg, h, read);
      case Elsewhere(e) => ElsewhereMirrors(n, plan, cfg, h, e);
    }
  }

  // ----- agreement, whatever the reads return -----

  lemma BrowserSeals(b: Browser, plan: seq<SendFile>, h: Hash, read: Bytes)
    requires SealedOnce(b.s) && SealedFromPlan(b.s, plan)
    ensures var t := BrowserAdvance(b, plan, h, read).0.s; SealedOnce(t) && SealedFromPlan(t, plan)
  {
    StepSealsOnce(b.s, plan, h, Proceed);
    StepSealsFromPlan(b.s, plan, h, Proceed);
    if CanAdvance(b.s) && !b.s.failed && b.s.pc.Streaming? {
      ReadSealsOnce(b, plan, h, read);
      ReadSealsFromPlan(b, plan, h, read);
    }
  }

  /** A chunk is sealed at the frontier. */
  lemma ReadSealsOnce(b: Browser, plan: seq<SendFile>, h: Hash, read: Bytes)
    requires SealedOnce(b.s) && b.s.pc.Streaming?
    ensures SealedOnce(ReadNext(b, plan, h, b.s.pc.f, b.s.pc.k, read).0.s)
  {
  }

  lemma ReadSealsFromPlan(b: Browser, plan: seq<SendFile>, h: Hash, read: Bytes)
    requires SealedFromPlan(b.s, plan) && b.s.pc.Streaming?
    ensures SealedFromPlan(ReadNext(b, plan, h, b.s.pc.f, b.s.pc.k, read).0.s, plan)
  {
  }

  lemma BrowserTalks(b: Browser, r: Receiver, plan: seq<SendFile>, h: Hash, read: Bytes)
    requires SealedFromPlan(b.s, plan) && SenderAcked(b.s, r, plan)
    ensures var (t, out) := BrowserAdvance(b, plan, h, read);
            SenderAcked(t.s, r, plan) && forall i :: 0 <= i < |out.control| ==> Genuine(out.control[i], plan, h)
  {
    AdvanceGenuine(b.s, plan, h);
    AdvanceAcked(b.s, r, plan, h);
    var t := BrowserAdvance(b, plan, h, read).0.s;
    if b.s.pc.Verifying? || b.s.pc.Streaming? || b.s.pc.Sealed? {
      assert Passed(t, plan) <= Passed(b.s, plan) && !t.pc.Returned?;
    }
  }

  lemma BrowserStepKeeps(n: BrowserNet, plan: seq<SendFile>, cfg: Config, h: Hash, e: BrowserEvent)
    requires NetInv(n.net, plan, h) && SealedOnce(n.net.s)
    ensures var t := BrowserStep(n, plan, cfg, h, e).net; NetInv(t, plan, h) && SealedOnce(t.s)
  {
    match e
    case Proceeds(read) =>
      BrowserSeals(BrowserOf(n), plan, h, read);
      BrowserTalks(BrowserOf(n), n.net.r, plan, h, read);
    case Elsewhere(e) =>
      NetStepKeeps(n.net, plan, cfg, h, e);
      if e.SenderTakes? && n.net.back != [] {
        StepSealsOnce(n.net.s, plan, h, Incoming(n.net.back[0]));
      } else if e.SenderMeets? {
        StepSealsOnce(n.net.s, plan, h, e.trouble);
      }
  }

  lemma {:induction false} EveryBrowserRunKeeps(plan: seq<SendFile>, cfg: Config, h: Hash, events: seq<BrowserEvent>)
    ensures var n := BrowserRun(plan, cfg, h, events).net; NetInv(n, plan, h) && SealedOnce(n.s)
  {
    if events == [] {
      EveryNetRunKeeps(plan, cfg, h, []);
    } else {
      var before := events[..|events| - 1];
      EveryBrowserRunKeeps(plan, cfg, h, before);
      BrowserStepKeeps(BrowserRun(plan, cfg, h, before), plan, cfg, h, events[|events| - 1]);
    }
  }

  /**
   Whatever fails and whatever the file holds by the time it is read: a browser that returned
   left a receiver that completed and keeps every file, each verified against the digest of the
   plan, and it sealed no chunk twice.
  */
  lemma BrowserAgreement(plan: seq<SendFile>, cfg: Config, h: Hash, events: seq<BrowserEvent>)
    ensures var n := BrowserRun(plan, cfg, h, events).net;
            && (n.s.pc.Returned? ==> n.r.completed && (forall id: nat :: id in n.r.finals <==> id < |plan|))
            && (forall id: nat :: id < Passed(n.s, plan) && id < |plan| ==>
                  && id in n.r.verified && n.r.verified[id] == Sha(h, plan, id)
                  && (!n.r.failed ==> id in n.r.finals))
            && (forall i, j :: 0 <= i < j < |n.s.sealLog| ==> n.s.sealLog[i] != n.s.sealLog[j])
  {
    EveryBrowserRunKeeps(plan, cfg, h, events);
    InvAgrees(BrowserRun(plan, cfg, h, events).net, plan, h);
  }

  lemma {:induction false} BrowserRunMatches(plan: seq<SendFile>, cfg: Config, h: Hash, events: seq<BrowserEvent>)
    requires Untouched(events)
    ensures FinalsMatch(BrowserRun(plan, cfg, h, events).net.r, h)
  {
    if events != [] {
      var before, e := events[..|events| - 1], events[|events| - 1];
      BrowserRunMatches(plan, cfg, h, before);
      EveryBrowserRunKeeps(plan, cfg, h, before);
      if e.Elsewhere? {
        NetStepMatches(BrowserRun(plan, cfg, h, before).net, plan, cfg, h, e.e);
      }
    }
  }

  /** Nobody changes published files. */
  predicate Untouched(events: seq<BrowserEvent>) {
    forall i :: 0 <= i < |events| && events[i].Elsewhere? && events[i].e.ReceiverMeets? ==> !events[i].e.event.TamperFinal?
  }

  /** In bytes, as AgreementOnBytes. */
  lemma BrowserAgreementOnBytes(plan: seq<SendFile>, cfg: Config, h: Hash, events: seq<BrowserEvent>)
    requires Untouched(events)
    requires forall i :: 0 <= i < |plan| ==> NoCollision(h, plan[i].content)
    ensures var n := BrowserRun(plan, cfg, h, events).net;
            n.s.pc.Returned? ==>
              && (forall id: nat :: id in n.r.finals <==> id < |plan|)
              && forall i :: 0 <= i < |plan| ==> i in n.r.finals && n.r.finals[i] == plan[i].content
  {
    EveryBrowserRunKeeps(plan, cfg, h, events);
    BrowserRunMatches(plan, cfg, h, events);
    InvAgreesOnBytes(BrowserRun(plan, cfg, h, events).net, plan, h);
  }

  // ----- delivery -----

  /** What an unchanged file gives to the next step. */
  function TrueRead(b: Browser, plan: seq<SendFile>): Bytes {
    match b.s.pc
    case Verifying(f) => Content(plan, f)[..Min(ReadyOf(b.s, f).offset, Size(plan, f))]
    case Streaming(f, k) => ChunkOf(Content(plan, f), k)
    case _ => []
  }

  predicate GoodBrowserEvent(w: World, n: BrowserNet, e: BrowserEvent) {
    match e
    case Proceeds(read) => read == TrueRead(BrowserOf(n), w.plan)
    case Elsewhere(e) => !e.SenderProceeds? && GoodEvent(w, n.net, e)
  }

  function RunOf(w: World, events: seq<BrowserEvent>): BrowserNet { BrowserRun(w.plan, w.cfg, w.h, events) }

  function MirrorOf(w: World, events: seq<BrowserEvent>): seq<NetEvent> { MirrorRun(w.plan, w.cfg, w.h, events) }

  predicate GoodBrowserRun(w: World, events: seq<BrowserEvent>) {
    events == []
    || (GoodBrowserRun(w, events[..|events| - 1])
        && GoodBrowserEvent(w, RunOf(w, events[..|events| - 1]), events[|events| - 1]))
  }

  /** A file that does not change passes every check. */
  lemma TrueReadFits(b: Browser, plan: seq<SendFile>, h: Hash)
    requires LoopOk(b, plan)
    ensures Undeceived(b, plan, h, TrueRead(b, plan)) && !ShadowOf(b, plan, h, TrueRead(b, plan)).Breaks?
  {
    if b.s.pc.Streaming? {
      var content := Content(plan, b.s.pc.f);
      ChunkBounds(|content|, b.s.pc.k);
      assert (b.s.pc.k + 1) * CHUNK_SIZE == b.s.pc.k * CHUNK_SIZE + CHUNK_SIZE;
    }
  }

  lemma GoodEventMirrors(w: World, n: BrowserNet, e: BrowserEvent)
    requires LoopOk(BrowserOf(n), w.plan) && GoodBrowserEvent(w, n, e)
    ensures EventUndeceived(n, w.plan, w.h, e)
    ensures var mirror := Mirror(n, w.plan, w.h, e); mirror != [] ==> GoodEvent(w, NetOf(n, w.plan), mirror[0])
  {
    TrueReadFits(BrowserOf(n), w.plan, w.h);
  }

  lemma {:induction false} GoodBrowserRunMirrors(w: World, events: seq<BrowserEvent>)
    requires GoodBrowserRun(w, events)
    ensures RunUndeceived(w.plan, w.cfg, w.h, events) && GoodRun(w, MirrorOf(w, events))
    ensures LoopOk(BrowserOf(RunOf(w, events)), w.plan) && NetOf(RunOf(w, events), w.plan) == Run(w, MirrorOf(w, events))
  {
    if events != [] {
      var before, e := events[..|events| - 1], events[|events| - 1];
      GoodBrowserRunMirrors(w, before);
      GoodEventMirrors(w, RunOf(w, before), e);
      EveryBrowserRunMirrors(w.plan, w.cfg, w.h, events);
      GoodRunOneMore(w, MirrorOf(w, before), Mirror(RunOf(w, before), w.plan, w.h, e));
    }
  }

  lemma GoodRunOneMore(w: World, events: seq<NetEvent>, mirror: seq<NetEvent>)
    requires GoodRun(w, events) && |mirror| <= 1
    requires mirror != [] ==> GoodEvent(w, Run(w, events), mirror[0])
    ensures GoodRun(w, events + mirror)
  {
    if mirror == [] {
      assert events + mirror == events;
    } else {
      assert (events + mirror)[..|events + mirror| - 1] == events;
    }
  }

  /** As DeliveryTheorem, for a browser: no check fails, and a browser that returned delivered its bytes. */
  lemma BrowserDelivery(w: World, events: seq<BrowserEvent>)
    requires GoodWorld(w) && GoodBrowserRun(w, events)
    ensures var n := RunOf(w, events).net;
            && Undisturbed(n)
            && (forall i, j :: 0 <= i < j < |n.s.restartLog| ==> n.s.restartLog[i] != n.s.restartLog[j])
            && (n.s.pc.Returned? ==>
                  && n.r.completed
                  && (forall id: nat :: id in n.r.finals <==> id < |w.plan|)
                  && (forall i: nat :: i < |w.plan| ==> i in n.r.finals && n.r.finals[i] == w.plan[i].content))
  {
    GoodBrowserRunMirrors(w, events);
    DeliveryTheorem(w, MirrorOf(w, events));
  }

  // ----- progress -----

  /** Every step of the run changed something. */
  predicate BrowserEffective(w: World, events: seq<BrowserEvent>) {
    events == []
    || (BrowserEffective(w, events[..|events| - 1]) && RunOf(w, events) != RunOf(w, events[..|events| - 1]))
  }

  /** The chunks of the first `f` files. */
  function AllChunks(plan: seq<SendFile>, f: nat): nat {
    if f == 0 then 0 else AllChunks(plan, f - 1) + NumChunks(Size(plan, f - 1))
  }

  lemma {:induction false} AllChunksGrow(plan: seq<SendFile>, f: nat, g: nat)
    requires f <= g
    ensures AllChunks(plan, f) <= AllChunks(plan, g)
    ensures f >= |plan| ==> AllChunks(plan, f) == AllChunks(plan, g)
    decreases g - f
  {
    if f < g {
      AllChunksGrow(plan, f, g - 1);
      assert NumChunks(0) == 0;
    }
  }

  /** How many chunks of the plan the sender has gone past or skipped. */
  function Reach(s: Sender, plan: seq<SendFile>): nat {
    match s.pc
    case AtManifest => 0
    case AtBegin(f) => AllChunks(plan, f)
    case AwaitReady(f) => AllChunks(plan, f)
    case Verifying(f) => AllChunks(plan, f)
    case AwaitRestart(f) => AllChunks(plan, f)
    case Streaming(f, k) => AllChunks(plan, f) + k
    case Sealed(f, k) => AllChunks(plan, f) + k
    case AwaitFileOk(f) => AllChunks(plan, f + 1)
    case _ => AllChunks(plan, |plan|)
  }

  lemma ReachIsBounded(b: Browser, plan: seq<SendFile>)
    requires LoopOk(b, plan)
    ensures Reach(b.s, plan) <= AllChunks(plan, |plan|)
  {
    var f := Frontier(b.s).0;
    var g := if f < |plan| then |plan| else f + 1;
    AllChunksGrow(plan, |plan|, g);
    if f <= g {
      AllChunksGrow(plan, f, g);
    }
    if f + 1 <= g {
      AllChunksGrow(plan, f + 1, g);
    }
  }

  lemma ReachGrows(b: Browser, plan: seq<SendFile>, h: Hash, read: Bytes)
    requires LoopOk(b, plan)
    requires LoopOk(BrowserAdvance(b, plan, h, read).0, plan)
    ensures var t := BrowserAdvance(b, plan, h, read).0;
            Reach(t.s, plan) >= Reach(b.s, plan) + if ShadowOf(b, plan, h, read).Stays? then 1 else 0
  {
    ReachIsBounded(b, plan);
    if b.s.pc.Streaming? {
      ChunkBounds(Size(plan, b.s.pc.f), b.s.pc.k);
    }
    if b.s.pc.AtBegin? && b.s.pc.f >= |plan| {
      AllChunksGrow(plan, |plan|, b.s.pc.f);
    }
  }

  lemma ReachGrowsElsewhere(n: BrowserNet, plan: seq<SendFile>, cfg: Config, h: Hash, e: NetEvent)
    requires LoopOk(BrowserOf(n), plan)
    ensures Reach(BrowserStep(n, plan, cfg, h, Elsewhere(e)).net.s, plan) >= Reach(n.net.s, plan)
  {
    ReachIsBounded(BrowserOf(n), plan);
  }

  /** A step that is one of the machines and changes anything here changes something there. */
  lemma ChangesShow(n: BrowserNet, plan: seq<SendFile>, cfg: Config, h: Hash, e: BrowserEvent)
    requires Mirror(n, plan, h, e) != [] && BrowserStep(n, plan, cfg, h, e) != n
    ensures NetOf(BrowserStep(n, plan, cfg, h, e), plan) != NetOf(n, plan)
  {
    if e.Proceeds? {
      assert n.net.control + [] == n.net.control && n.net.bulk + [] == n.net.bulk;
    }
  }

  /** Every step is one of the machines or goes past a chunk of the plan. */
  lemma {:induction false} StepsAreCounted(w: World, events: seq<BrowserEvent>)
    requires GoodBrowserRun(w, events) && BrowserEffective(w, events)
    ensures Effective(w, MirrorOf(w, events))
    ensures |events| <= |MirrorOf(w, events)| + Reach(RunOf(w, events).net.s, w.plan)
  {
    if events != [] {
      var before, e := events[..|events| - 1], events[|events| - 1];
      var n, mirror := RunOf(w, before), Mirror(RunOf(w, before), w.plan, w.h, e);
      StepsAreCounted(w, before);
      GoodBrowserRunMirrors(w, before);
      GoodBrowserRunMirrors(w, events);
      if mirror == [] {
        assert MirrorOf(w, events) == MirrorOf(w, before) + [] == MirrorOf(w, before);
      } else {
        ChangesShow(n, w.plan, w.cfg, w.h, e);
        assert MirrorOf(w, events)[..|MirrorOf(w, events)| - 1] == MirrorOf(w, before);
      }
      match e
      case Proceeds(read) => ReachGrows(BrowserOf(n), w.plan, w.h, read);
      case Elsewhere(e) => ReachGrowsElsewhere(n, w.plan, w.cfg, w.h, e);
    }
  }

  /** Here, too, some step changes something as long as one does there. */
  lemma SomeBrowserStep(w: World, n: BrowserNet, e: NetEvent)
    requires LoopOk(BrowserOf(n), w.plan) && GoodEvent(w, NetOf(n, w.plan), e) && Step(w, NetOf(n, w.plan), e) != NetOf(n, w.plan)
    ensures exists e' :: GoodBrowserEvent(w, n, e') && BrowserStep(n, w.plan, w.cfg, w.h, e') != n
  {
    var read := TrueRead(BrowserOf(n), w.plan);
    var e' := if e.SenderProceeds? then Proceeds(read) else Elsewhere(e);
    TrueReadFits(BrowserOf(n), w.plan, w.h);
    if e.SenderProceeds? {
      ProceedsMirrors(n, w.plan, w.cfg, w.h, read);
    } else {
      ElsewhereMirrors(n, w.plan, w.cfg, w.h, e);
    }
    assert GoodBrowserEvent(w, n, e') && BrowserStep(n, w.plan, w.cfg, w.h, e') != n;
  }

  /** As ProgressTheorem: the browser's transfer always gets there, with at most one more step for each chunk. */
  lemma BrowserProgress(w: World, events: seq<BrowserEvent>)
    requires GoodWorld(w) && GoodBrowserRun(w, events) && BrowserEffective(w, events)
    ensures |events| <= Weight(w, Fresh, INITIAL_NET) + AllChunks(w.plan, |w.plan|)
    ensures var n := RunOf(w, events);
            n.net.s.pc.Returned?
            || exists e :: GoodBrowserEvent(w, n, e) && BrowserStep(n, w.plan, w.cfg, w.h, e) != n
  {
    var n := RunOf(w, events);
    GoodBrowserRunMirrors(w, events);
    StepsAreCounted(w, events);
    ReachIsBounded(BrowserOf(n), w.plan);
    ProgressTheorem(w, MirrorOf(w, events));
    if !n.net.s.pc.Returned? {
      var e :| GoodEvent(w, NetOf(n, w.plan), e) && Step(w, NetOf(n, w.plan), e) != NetOf(n, w.plan);
      SomeBrowserStep(w, n, e);
    }
  }
}
