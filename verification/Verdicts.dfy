/** When a handler accepts its message, over all runs: whatever others do meanwhile, only its own calls decide. */
module Verdicts {
  import opened Tasks
  import opened Summarizer
  import opened Pipeline
  import opened Runs

  /**
   * A call of handler `j` on which its verdict rests fails: the claim of the task or the record of the result, by an
   * error or by coming too late, or the LLM. Redis calls, and re-reading the row for the cache, do not count.
   */
  predicate CallFails(w: World, l: Label, j: nat) {
    && l.Work? && l.j == j && InHandler(w, j)
    && (match w.jobs[j].stage.phase
        case Claiming(_) => l.reply.Err? || w.jobs[j].deadline <= w.now
        case Asking(_) => l.reply.Err?
        case Applying(_, _) => l.reply.Err? || w.jobs[j].deadline <= w.now
        case _ => false)
  }

  ghost predicate EverFails(cfg: Config, w: World, run: seq<Label>, j: nat)
    requires Legal(cfg, w, run)
    decreases run
  {
    run != [] && (CallFails(w, run[0], j) || EverFails(cfg, Next(cfg, w, run[0]), run[1..], j))
  }

  /** Job `j` neither dies nor goes on to settle its delivery. */
  predicate JustHandles(run: seq<Label>, j: nat) {
    forall l :: l in run ==> !(l.Crash? && l.j == j) && !(l.Settle? && l.j == j)
  }

  /** The job has accepted its message, or no call has failed yet. */
  predicate GoesWell(st: Stage) {
    match st
    case Handling(p) => !p.Releasing? && !p.Resetting? && !p.Clearing? && !p.Returned?
    case _ => st == Acking
  }

  /** The job has refused its message, or is giving its task up. */
  predicate GoesBadly(st: Stage) {
    match st
    case Handling(p) => p.Releasing? || p.Resetting? || p.Clearing?
    case _ => st == Retrying || st == Rejecting
  }

  lemma WorkDecides(w: World, j: nat, reply: Reply)
    requires InHandler(w, j)
    ensures var w' := WorkNext(w, j, reply);
            && j in w'.jobs
            && (GoesWell(w.jobs[j].stage) ==>
                  if CallFails(w, Work(j, reply), j) then GoesBadly(w'.jobs[j].stage) else GoesWell(w'.jobs[j].stage))
            && (GoesBadly(w.jobs[j].stage) ==> GoesBadly(w'.jobs[j].stage))
  {
  }

  lemma OthersDecideNothing(cfg: Config, w: World, l: Label, j: nat)
    requires Enabled(cfg, w, l) && j in w.jobs && !(l.Work? && l.j == j) && JustHandles([l], j)
    ensures j in Next(cfg, w, l).jobs && Next(cfg, w, l).jobs[j].stage == w.jobs[j].stage
  {
    assert l in [l];
    if JobLabel(l) && l.j != j {
      OtherJobs(cfg, w, l, j);
    }
  }

  lemma {:induction false} Decides(cfg: Config, w: World, run: seq<Label>, j: nat)
    requires Legal(cfg, w, run) && j in w.jobs && JustHandles(run, j)
    ensures var w' := After(cfg, w, run);
            && j in w'.jobs
            && (GoesWell(w.jobs[j].stage) ==>
                  if EverFails(cfg, w, run, j) then GoesBadly(w'.jobs[j].stage) else GoesWell(w'.jobs[j].stage))
            && (GoesBadly(w.jobs[j].stage) ==> GoesBadly(w'.jobs[j].stage))
    decreases run
  {
    if run != [] {
      if run[0].Work? && run[0].j == j {
        WorkDecides(w, j, run[0].reply);
        assert Next(cfg, w, run[0]) == WorkNext(w, j, run[0].reply);
      } else {
        assert forall l :: l in [run[0]] ==> l in run;
        OthersDecideNothing(cfg, w, run[0], j);
      }
      Decides(cfg, Next(cfg, w, run[0]), run[1..], j);
    }
  }

  /**
   * A handler that was just given a message (of whatever content) and has returned is about to acknowledge it if its
   * claim, its LLM call and its record were all answered in time, as far as it got to them, whatever anybody deletes,
   * resets or completes meanwhile; it is about to retry or reject it otherwise.
   */
  lemma AcceptedIff(cfg: Config, w: World, run: seq<Label>, j: nat)
    requires Legal(cfg, w, run) && j in w.jobs && w.jobs[j].stage == Handling(Fresh) && JustHandles(run, j)
    ensures var w' := After(cfg, w, run);
            && j in w'.jobs
            && (!w'.jobs[j].stage.Handling? ==>
                  && (w'.jobs[j].stage == Acking <==> !EverFails(cfg, w, run, j))
                  && (w'.jobs[j].stage in {Retrying, Rejecting} <==> EverFails(cfg, w, run, j)))
  {
    Decides(cfg, w, run, j);
  }
}
