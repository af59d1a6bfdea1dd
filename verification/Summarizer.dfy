/**
 * The worker (internal/worker/task_summarizer.go). `Step` is one external effect of `Handle`; the pipeline interleaves
 * these steps, and the method `Handle` is proved to be their uninterrupted run.
 */
module Summarizer {
  import opened Tasks
  import opened Repository
  import opened Dedupes
  import opened Messages
  import opened Service

  /** What a handler reads and writes: the table, the row cache and the duplicate markers. */
  datatype Stores = Stores(rows: Rows, issued: set<TaskId>, cache: Rows, markers: set<EventId>)

  /** The program counter of `Handle`, named after what comes next. */
  datatype Phase =
    | Fresh                              // decode, then claim the marker
    | Claiming(id: TaskId)               // MarkProcessing
    | Claimed(id: TaskId)                // drop the cached row
    | Asking(id: TaskId)                 // the LLM
    | Applying(id: TaskId, text: string) // UpdateStatus(completed)
    | Rereading(id: TaskId)              // GetByID after the update
    | Refreshing(row: Task)              // put the row read into the cache
    | Releasing(id: TaskId)              // give the marker back
    | Resetting(id: TaskId)              // UpdateStatus(pending)
    | Clearing(id: TaskId)               // drop the cached row after the reset
    | Returned(ok: bool)

  /** One call to a backend: when it is made and what it comes back with. */
  datatype Call = Call(now: Time, reply: Reply)

  /**
   * Calls carry the handler's context: past its deadline those of the repository, and the release that follows an LLM
   * call, fail without effect.
   */
  function InTime(c: Call, deadline: Time): Reply {
    if c.now < deadline then c.reply else Err
  }

  function Step(s: Stores, p: Phase, b: Body, deadline: Time, c: Call): (Stores, Phase) {
    var inTime := InTime(c, deadline);
    match p
    case Fresh => StepFresh(s, b, c.reply)
    case Claiming(id) =>
      if inTime.Err? then (s, Returned(false))
      else if !Claimable(s.rows, id) then (s, Returned(true))
      else (s.(rows := StatusWritten(s.rows, id, Processing, "", c.now)), Claimed(id))
    case Claimed(id) => (s.(cache := Invalidated(s.cache, id, c.reply)), Asking(id))
    case Asking(id) => (s, if c.reply.Ok? then Applying(id, c.reply.text) else Releasing(id))
    case Applying(id, text) =>
      if inTime.Err? then (s, Releasing(id))
      else if id !in s.rows then (s, Returned(true))
      else (s.(rows := StatusWritten(s.rows, id, Completed, text, c.now)), Rereading(id))
    case Rereading(id) => (s, if inTime.Ok? && id in s.rows then Refreshing(s.rows[id]) else Returned(true))
    case Refreshing(row) => (s.(cache := Filled(s.cache, row, c.reply)), Returned(true))
    case Releasing(id) => (s.(markers := ReleaseMarker(s.markers, b.eventId, inTime)), Resetting(id))
    case Resetting(id) =>
      if inTime.Err? || id !in s.rows then (s, Returned(false))
      else (s.(rows := StatusWritten(s.rows, id, Pending, "", c.now)), Clearing(id))
    case Clearing(id) => (s.(cache := Invalidated(s.cache, id, c.reply)), Returned(false))
    case Returned(_) => (s, p)
  }

  /** Decoding and the duplicate guard: an undecodable payload is dropped only after its marker is taken. */
  function StepFresh(s: Stores, b: Body, reply: Reply): (Stores, Phase) {
    match b.content
    case Garbage => (s, Returned(true))
    case OtherType => (s, Returned(true))
    case BadPayload => (s.(markers := ClaimMarker(s.markers, b.eventId, reply).0), Returned(true))
    case Created(id, _, _) =>
      var (markers, granted) := ClaimMarker(s.markers, b.eventId, reply);
      (s.(markers := markers), if granted then Claiming(id) else Returned(true))
  }

  function Remaining(p: Phase): nat {
    match p
    case Fresh => 9
    case Claiming(_) => 8
    case Claimed(_) => 7
    case Asking(_) => 6
    case Applying(_, _) => 5
    case Rereading(_) => 4
    case Refreshing(_) => 3
    case Releasing(_) => 3
    case Resetting(_) => 2
    case Clearing(_) => 1
    case Returned(_) => 0
  }

  /** The script of a run: the calls it makes, in order. */
  type Script = nat -> Call

  datatype Outcome = Outcome(stores: Stores, ok: bool, asked: nat)

  /** The steps from phase `p` to the end, the first call being number `k` of the script; `asked` counts LLM calls. */
  function Finish(s: Stores, p: Phase, b: Body, deadline: Time, script: Script, k: nat): Outcome
    decreases Remaining(p)
  {
    if p.Returned? then Outcome(s, p.ok, 0)
    else
      var (s', p') := Step(s, p, b, deadline, script(k));
      var rest := Finish(s', p', b, deadline, script, k + 1);
      rest.(asked := rest.asked + if p.Asking? then 1 else 0)
  }

  function HandleAll(s: Stores, b: Body, deadline: Time, script: Script): Outcome {
    Finish(s, Fresh, b, deadline, script, 0)
  }

  class TaskSummarizer {
    const svc: TaskService
    const dedupe: Dedupe
    // LLM calls made so far.
    ghost var asked: nat

    ghost predicate Valid()
      reads svc.repo
    {
      svc.Valid()
    }

    ghost function Contents(): Stores
      reads this, svc.repo, svc.cache, dedupe
    {
      Stores(svc.repo.rows, svc.repo.issued, svc.cache.entries, dedupe.markers)
    }

    constructor (svc: TaskService, dedupe: Dedupe)
      ensures this.svc == svc && this.dedupe == dedupe && asked == 0
    {
      this.svc, this.dedupe, this.asked := svc, dedupe, 0;
    }

    /** Gives up a claimed task after a failure, so that a retry or the reconciler can pick it up. */
    method GiveUp(id: TaskId, b: Body, deadline: Time, script: Script, k: nat)
      requires Valid()
      modifies svc.repo`rows, svc.cache, dedupe
      ensures Valid()
      ensures Finish(old(Contents()), Releasing(id), b, deadline, script, k) == Outcome(Contents(), false, 0)
      ensures dedupe.markers == if script(k).now < deadline && script(k).reply.Ok? && b.eventId != ""
                                then old(dedupe.markers) - {b.eventId} else old(dedupe.markers)
      ensures var rows, cached := old(svc.repo.rows), old(svc.cache.entries);
              var reset := script(k + 1).now < deadline && script(k + 1).reply.Ok? && id in rows;
              && svc.repo.rows
                 == (if reset then rows[id := rows[id].(status := Pending, updatedAt := script(k + 1).now)] else rows)
              && svc.cache.entries == (if reset && script(k + 2).reply.Ok? then cached - {id} else cached)
    {
      ghost var start := Contents();
      dedupe.Release(b.eventId, InTime(script(k), deadline));
      ghost var released := Contents();
      assert Finish(start, Releasing(id), b, deadline, script, k)
          == Finish(released, Resetting(id), b, deadline, script, k + 1);
      var a := svc.MarkPending(id, script(k + 1).now, InTime(script(k + 1), deadline), script(k + 2).reply);
      ghost var reset := Step(released, Resetting(id), b, deadline, script(k + 1));
      assert Finish(released, Resetting(id), b, deadline, script, k + 1)
          == Finish(reset.0, reset.1, b, deadline, script, k + 2);
      if a.Value? {
        assert Finish(reset.0, Clearing(id), b, deadline, script, k + 2) == Outcome(Contents(), false, 0);
      }
    }

    /** Records an answer of the LLM, or gives the task up when that fails. */
    method Record(id: TaskId, text: string, b: Body, deadline: Time, script: Script, k: nat) returns (ok: bool)
      requires Valid()
      modifies svc.repo`rows, svc.cache, dedupe
      ensures Valid()
      ensures Finish(old(Contents()), Applying(id, text), b, deadline, script, k) == Outcome(Contents(), ok, 0)
      ensures id !in old(svc.repo.rows) && script(k).now < deadline && script(k).reply.Ok? ==>
                ok && Contents() == old(Contents())
      ensures id in old(svc.repo.rows) && script(k).now < deadline && script(k).reply.Ok? ==>
                var was := old(svc.repo.rows)[id];
                var row := was.(status := Completed, summary := if text != "" then text else was.summary,
                                updatedAt := script(k).now);
                && ok && dedupe.markers == old(dedupe.markers) && svc.repo.rows == old(svc.repo.rows)[id := row]
                && svc.cache.entries
                   == if script(k + 1).now < deadline && script(k + 1).reply.Ok? && script(k + 2).reply.Ok?
                      then old(svc.cache.entries)[id := row] else old(svc.cache.entries)
      ensures script(k).reply.Err? || deadline <= script(k).now ==> !ok
    {
      ghost var s := Contents();
      var applied := svc.ApplySummary(id, text, script(k).now, InTime(script(k), deadline),
                                      InTime(script(k + 1), deadline), script(k + 2).reply);
      ghost var next := Step(s, Applying(id, text), b, deadline, script(k));
      assert Finish(s, Applying(id, text), b, deadline, script, k)
          == Finish(next.0, next.1, b, deadline, script, k + 1);
      if applied.NotFound? {
        return true;
      }
      if applied.Broken? {
        GiveUp(id, b, deadline, script, k + 1);
        return false;
      }
      ghost var read := Step(next.0, Rereading(id), b, deadline, script(k + 1));
      assert Finish(next.0, Rereading(id), b, deadline, script, k + 1)
          == Finish(read.0, read.1, b, deadline, script, k + 2);
      ghost var end := Step(read.0, read.1, b, deadline, script(k + 2));
      assert end == (Contents(), Returned(true));
      assert Finish(read.0, read.1, b, deadline, script, k + 2) == Outcome(Contents(), true, 0);
      ok := true;
    }

    method Handle(b: Body, deadline: Time, script: Script) returns (ok: bool)
      requires Valid()
      modifies this`asked, svc.repo`rows, svc.cache, dedupe
      ensures Valid()
      ensures var o := HandleAll(old(Contents()), b, deadline, script);
              Contents() == o.stores && ok == o.ok && asked == old(asked) + o.asked
      ensures b.content.Garbage? || b.content.OtherType? ==>
                ok && Contents() == old(Contents()) && asked == old(asked)
      ensures b.content.BadPayload? ==>
                && ok && Contents().(markers := old(dedupe.markers)) == old(Contents()) && asked == old(asked)
                && dedupe.markers == old(dedupe.markers)
                                     + (if b.eventId == "" || script(0).reply.Err? then {} else {b.eventId})
    {
      ghost var all := HandleAll(Contents(), b, deadline, script);
      if b.content.Garbage? || b.content.OtherType? {
        return true;
      }
      var granted := dedupe.Claim(b.eventId, script(0).reply);
      if !granted || b.content.BadPayload? {
        return true;
      }
      var id := b.content.taskId;
      ghost var s := Contents();
      assert all == Finish(s, Claiming(id), b, deadline, script, 1);

      var claimed := svc.BeginProcessing(id, script(1).now, InTime(script(1), deadline), script(2).reply);
      ghost var next := Step(s, Claiming(id), b, deadline, script(1));
      assert all == Finish(next.0, next.1, b, deadline, script, 2);
      if claimed.Broken? {
        return false; // the marker stays taken
      }
      if claimed == Value(false) {
        return true;
      }
      assert all == Finish(Contents(), Asking(id), b, deadline, script, 3);

      asked := asked + 1;
      var answer := script(3).reply;
      AskedOnce(Contents(), id, b, deadline, script, 3);
      if answer.Err? {
        GiveUp(id, b, deadline, script, 4);
        return false;
      }
      ok := Record(id, answer.text, b, deadline, script, 4);
    }
  }

  lemma AskedOnce(s: Stores, id: TaskId, b: Body, deadline: Time, script: Script, k: nat)
    ensures var p := Step(s, Asking(id), b, deadline, script(k)).1;
            Finish(s, Asking(id), b, deadline, script, k) == Finish(s, p, b, deadline, script, k + 1).(asked := 1)
  {
    AsksLeft(s, Step(s, Asking(id), b, deadline, script(k)).1, b, deadline, script, k + 1);
  }

  /** The LLM is asked at most once in a handling. */
  lemma {:induction false} AsksLeft(s: Stores, p: Phase, b: Body, deadline: Time, script: Script, k: nat)
    ensures Finish(s, p, b, deadline, script, k).asked <= if Remaining(p) >= 6 then 1 else 0
    decreases Remaining(p)
  {
    if !p.Returned? {
      var (s', p') := Step(s, p, b, deadline, script(k));
      AsksLeft(s', p', b, deadline, script, k + 1);
    }
  }
}
