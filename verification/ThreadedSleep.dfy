/** When the coordinator of the multithreaded driver sleeps, and when it goes round again with nothing done. */
module ThreadedSleep {
  import opened Bus
  import opened ScriptedCpus
  import opened DualMachine
  import opened ThreadedDriver
  import opened ThreadedInvariant

  /** What the coordinator noted when it looked at its slots still holds at the end of a turn that did nothing. */
  predicate NotesHold(w: World) {
    var c, h0, h1 := w.coord, w.lane0.held.Some?, w.lane1.held.Some?;
    && (c.at == NotifyResp ==> c.progressed)
    && (c.at == Commit || (c.at.LoadDone? && !c.progressed) ==>
         && c.noPending == (!h0 && !h1) && (c.waitingForPeer ==> h0 != h1)
         && (h0 && !h1 && !c.waitingForPeer ==> w.lane1.done)
         && (h1 && !h0 && !c.waitingForPeer ==> w.lane0.done))
  }

  lemma ProducerKeepsNotes(w: World, i: nat)
    requires i < 2 && NotesHold(w) && w.At(i).cpu.Valid() && Runnable(w.At(i))
    ensures var moved := ProducerStep(w.At(i), w.epoch); NotesHold(w.With(i, moved.lane).(epoch := moved.epoch))
  {
    hide RunAhead, Answered;
  }

  lemma CoordinatorKeepsNotes(cfg: Config, w: World)
    requires NotesHold(w) && CoordReady(w)
    ensures NotesHold(CoordStep(cfg, w))
  {
    hide CommitBatch, ReplyTo, Owners, UpdateProgress;
  }

  lemma ActKeepsNotes(cfg: Config, w: World, who: Thread)
    requires NotesHold(w) && Inv(cfg, w)
    ensures w.lane0.cpu.Valid() && Runnable(w.lane0) && w.lane1.cpu.Valid() && Runnable(w.lane1) && CoordReady(w)
    ensures NotesHold(Act(cfg, w, who))
  {
    hide Inv, NotesHold, ProducerStep, CoordStep;
    InvFacts(cfg, w);
    match who
    case Producer0 => ProducerKeepsNotes(w, 0);
    case Producer1 => ProducerKeepsNotes(w, 1);
    case Coordinator => CoordinatorKeepsNotes(cfg, w);
  }

  lemma {:induction false} RunKeepsNotes(cfg: Config, w: World, schedule: seq<Thread>)
    requires Inv(cfg, w) && NotesHold(w)
    ensures NotesHold(Run(cfg, w, schedule))
    decreases |schedule|
  {
    hide Inv, NotesHold, Act;
    if schedule != [] {
      ActKeeps(cfg, w, schedule[0]);
      ActKeepsNotes(cfg, w, schedule[0]);
      RunKeepsNotes(cfg, Act(cfg, w, schedule[0]), schedule[1..]);
    }
  }

  /** After a turn that did nothing the coordinator goes round again only with both operations in hand, or with one whose
      peer has ended; it sleeps only if it does not hold both. So it never spins while it could wait for a producer. */
  lemma NoBusyWaiting(cfg: Config, c0: Cpu, c1: Cpu, b: BusState, p: Progress, schedule: seq<Thread>)
    requires CpuOk(c0, 0) && CpuOk(c1, 1) && DualOk(cfg, Dual(Settled(c0), Settled(c1), Core(b)))
    requires p.cpu0.Some? ==> p.cpu0.value <= c0.time
    requires p.cpu1.Some? ==> p.cpu1.value <= c1.time
    ensures Inv(cfg, Start(c0, c1, b, p))
    ensures var w := Run(cfg, Start(c0, c1, b, p), schedule);
            w.coord.at.LoadDone? && !w.coord.progressed ==>
              && CoordReady(w)
              && var next, h0, h1 := CoordStep(cfg, w).coord.at, w.lane0.held.Some?, w.lane1.held.Some?;
              && (next == PopReq(0) ==> (h0 && h1) || (h0 && w.lane1.done) || (h1 && w.lane0.done))
              && (next == Asleep ==> !(h0 && h1))
  {
    hide Inv, Run, CpuOk, DualOk, Settled;
    StartOk(cfg, c0, c1, b, p);
    RunKeepsNotes(cfg, Start(c0, c1, b, p), schedule);
  }

  // ----- noticing what is done -----

  /** The coordinator's step took a request or a mark out of its mailbox, or put a reply into one. */
  predicate Handled(l: Lane, r: Lane) {
    |r.req| < |l.req| || |r.marks| < |l.marks| || |r.resp| > |l.resp|
  }

  /** A step of the coordinator that handles a message, and no other, marks the turn as one that did something; the mark is
      wiped only as the next turn starts, and the coordinator does not go to sleep while it is there. */
  lemma HandlingIsNoticed(cfg: Config, w: World)
    requires CoordReady(w)
    ensures var n := CoordStep(cfg, w); var handled := Handled(w.lane0, n.lane0) || Handled(w.lane1, n.lane1);
            && (handled ==> n.coord.progressed)
            && (!w.coord.progressed && n.coord.progressed ==> handled)
            && (w.coord.progressed && !n.coord.progressed ==> n.coord.at == PopReq(0))
            && (n.coord.at == Asleep && w.coord.at != Asleep ==> !w.coord.progressed)
  {
    hide CommitBatch, ReplyTo, Owners, UpdateProgress;
  }
}
