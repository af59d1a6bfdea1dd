/**
 * Claims, resets and LLM calls counted over runs, with any number of workers and reconcilers and no timing
 * assumption.
 */
module Accounting {
  import opened Tasks
  import opened Repository
  import opened Summarizer
  import opened Pipeline
  import opened Runs

  function Bit(b: bool): nat {
    if b then 1 else 0
  }

  ghost function Claims(cfg: Config, w: World, run: seq<Label>, id: TaskId): nat
    requires Legal(cfg, w, run)
    decreases run
  {
    if run == [] then 0 else Bit(ClaimStep(w, run[0], id)) + Claims(cfg, Next(cfg, w, run[0]), run[1..], id)
  }

  ghost function LlmCalls(cfg: Config, w: World, run: seq<Label>, id: TaskId): nat
    requires Legal(cfg, w, run)
    decreases run
  {
    if run == [] then 0 else Bit(LlmStep(w, run[0], id)) + LlmCalls(cfg, Next(cfg, w, run[0]), run[1..], id)
  }

  ghost function Resets(cfg: Config, w: World, run: seq<Label>, id: TaskId): nat
    requires Legal(cfg, w, run)
    decreases run
  {
    if run == [] then 0 else Bit(PendingWrite(w, run[0], id)) + Resets(cfg, Next(cfg, w, run[0]), run[1..], id)
  }

  /** Claims that the row of `id` allows right now: one if it is pending, one if it is still to be created. */
  function Allowance(w: World, id: TaskId): nat {
    Bit(Claimable(w.s.rows, id)) + Bit(id !in w.s.issued)
  }

  /** Workers that hold a claim of `id` and have not called the LLM yet. */
  function AboutToAsk(w: World, id: TaskId): set<nat> {
    set j | j in w.jobs && w.jobs[j].stage in {Handling(Claimed(id)), Handling(Asking(id))}
  }

  lemma HandlerSpends(w: World, j: nat, reply: Reply, id: TaskId)
    requires InHandler(w, j)
    ensures var w', l := WorkNext(w, j, reply), Work(j, reply);
            Bit(ClaimStep(w, l, id)) + Allowance(w', id) <= Allowance(w, id) + Bit(PendingWrite(w, l, id))
  {
  }

  /** A claim uses up an allowance, and only a write of `pending` gives one back. */
  lemma StepSpends(cfg: Config, w: World, l: Label, id: TaskId)
    requires Enabled(cfg, w, l)
    ensures Bit(ClaimStep(w, l, id)) + Allowance(Next(cfg, w, l), id) <= Allowance(w, id) + Bit(PendingWrite(w, l, id))
  {
    if l.Work? {
      HandlerSpends(w, l.j, l.reply, id);
    }
  }

  lemma HandlerAsks(w: World, j: nat, reply: Reply, id: TaskId)
    requires InHandler(w, j)
    ensures var w', l := WorkNext(w, j, reply), Work(j, reply);
            Bit(LlmStep(w, l, id)) + |AboutToAsk(w', id)| <= |AboutToAsk(w, id)| + Bit(ClaimStep(w, l, id))
  {
    var w' := WorkNext(w, j, reply);
    var a, b := AboutToAsk(w, id), AboutToAsk(w', id);
    if ClaimStep(w, Work(j, reply), id) {
      assert b == a + {j};
    } else if LlmStep(w, Work(j, reply), id) {
      assert b == a - {j} && j in a;
    } else {
      SubsetSize(b, a);
    }
  }

  /** Every LLM call is paid for by a claim. */
  lemma StepAsks(cfg: Config, w: World, l: Label, id: TaskId)
    requires Enabled(cfg, w, l)
    ensures Bit(LlmStep(w, l, id)) + |AboutToAsk(Next(cfg, w, l), id)| <= |AboutToAsk(w, id)| + Bit(ClaimStep(w, l, id))
  {
    if l.Work? {
      HandlerAsks(w, l.j, l.reply, id);
    } else {
      OthersAsk(cfg, w, l, id);
      SubsetSize(AboutToAsk(Next(cfg, w, l), id), AboutToAsk(w, id));
    }
  }

  lemma OthersAsk(cfg: Config, w: World, l: Label, id: TaskId)
    requires Enabled(cfg, w, l) && !l.Work?
    ensures AboutToAsk(Next(cfg, w, l), id) <= AboutToAsk(w, id)
  {
    if l.Settle? {
      SettlingAsks(w, l.j, l.reply, id);
    } else if JobLabel(l) {
      match l
      case Deliver(_, _) =>
      case Disconnect(_) =>
      case Crash(_) =>
    } else {
    }
  }

  lemma SettlingAsks(w: World, j: nat, reply: Reply, id: TaskId)
    requires j in w.jobs && !w.jobs[j].stage.Handling?
    ensures AboutToAsk(SettleNext(w, j, reply), id) <= AboutToAsk(w, id)
  {
  }

  /**
   * From any world on, every run: successful claims of a task are bounded by the writes of `pending` to it and what its
   * row allowed to begin with. So between two successful claims there is a write of `pending`.
   */
  lemma {:induction false} ClaimsBounded(cfg: Config, w: World, run: seq<Label>, id: TaskId)
    requires Legal(cfg, w, run)
    ensures Claims(cfg, w, run, id) + Allowance(After(cfg, w, run), id) <= Allowance(w, id) + Resets(cfg, w, run, id)
    decreases run
  {
    if run != [] {
      StepSpends(cfg, w, run[0], id);
      ClaimsBounded(cfg, Next(cfg, w, run[0]), run[1..], id);
    }
  }

  lemma {:induction false} CallsBounded(cfg: Config, w: World, run: seq<Label>, id: TaskId)
    requires Legal(cfg, w, run)
    ensures LlmCalls(cfg, w, run, id) + |AboutToAsk(After(cfg, w, run), id)|
         <= |AboutToAsk(w, id)| + Claims(cfg, w, run, id)
    decreases run
  {
    if run != [] {
      StepAsks(cfg, w, run[0], id);
      CallsBounded(cfg, Next(cfg, w, run[0]), run[1..], id);
    }
  }

  /** Over a whole run: LLM calls for a task <= successful claims <= 1 + writes of `pending`. */
  lemma CallsPaid(cfg: Config, run: seq<Label>, id: TaskId)
    requires Legal(cfg, EMPTY, run)
    ensures LlmCalls(cfg, EMPTY, run, id) <= Claims(cfg, EMPTY, run, id) <= 1 + Resets(cfg, EMPTY, run, id)
  {
    ClaimsBounded(cfg, EMPTY, run, id);
    CallsBounded(cfg, EMPTY, run, id);
    assert AboutToAsk(EMPTY, id) == {};
  }

  /** After a successful claim the next one needs a write of `pending` in between. */
  lemma ResetBetweenClaims(cfg: Config, w: World, l: Label, run: seq<Label>, id: TaskId)
    requires Reachable(cfg, w) && Enabled(cfg, w, l) && ClaimStep(w, l, id)
    requires Legal(cfg, Next(cfg, w, l), run)
    ensures Claims(cfg, Next(cfg, w, l), run, id) <= Resets(cfg, Next(cfg, w, l), run, id)
  {
    ClaimsBounded(cfg, Next(cfg, w, l), run, id);
    ReachableSound(cfg, w);
  }
}
