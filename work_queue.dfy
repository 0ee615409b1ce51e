/**
 * The work coordinator shared by the generator scripts
 * (tools/generate_training_data.py and scripts/gensfen.py): a pool of
 * positions still to generate and a count of positions finished, handed
 * out in batches of at most BATCH_SIZE. The lock around request_work makes
 * each call atomic; the model is the sequential counter those calls form.
 */
module WorkQueue {
  const BATCH_SIZE: int := 1000

  /** The batch request_work hands out when remaining positions are left. */
  function BatchOf(remaining: int): (npos: int)
    ensures remaining == 0 <==> npos == 0
    ensures npos <= BATCH_SIZE && (remaining >= 0 ==> 0 <= npos <= remaining)
    ensures remaining - npos >= 0
    ensures remaining >= BATCH_SIZE ==> npos == BATCH_SIZE
  {
    if remaining == 0 then 0
    else if remaining < BATCH_SIZE then remaining
    else BATCH_SIZE
  }

  /** The two shared counters, remaining_work and finished_work. */
  class Counters {
    var remaining: int
    var finished: int

    /** main: remaining_work starts at the requested number of positions, finished_work at 0. */
    constructor(npositions: int)
      ensures remaining == npositions && finished == 0
    {
      remaining := npositions;
      finished := 0;
    }

    /**
     * request_work: adds the positions a worker reports as done to
     * finished_work and takes the next batch out of remaining_work.
     */
    method RequestWork(done: int) returns (npos: int)
      modifies this
      ensures npos == BatchOf(old(remaining))
      ensures finished == old(finished) + done
      ensures remaining == old(remaining) - npos && remaining >= 0
    {
      finished := finished + done;
      if remaining == 0 {
        npos := 0;
      } else if remaining < BATCH_SIZE {
        npos := remaining;
      } else {
        npos := BATCH_SIZE;
      }
      remaining := remaining - npos;
    }
  }

  /**
   * What the work a run hands out adds up to: taking batches until a
   * request returns 0 hands out exactly the remaining positions.
   */
  function Batches(remaining: int): (bs: seq<int>)
    ensures remaining >= 0 ==> forall k :: 0 <= k < |bs| ==> 0 < bs[k] <= BATCH_SIZE
    ensures Sum(bs) == remaining
    decreases if remaining < 0 then 1 else remaining
  {
    var npos := BatchOf(remaining);
    if npos == 0 then [] else [npos] + Batches(remaining - npos)
  }

  function Sum(s: seq<int>): int
  {
    if s == [] then 0 else s[0] + Sum(s[1..])
  }

  lemma {:induction false} SumAppend(a: seq<int>, x: int)
    ensures Sum(a + [x]) == Sum(a) + x
  {
    if a != [] {
      assert (a + [x])[1..] == a[1..] + [x];
      SumAppend(a[1..], x);
    }
  }

  /**
   * process_func of tools/generate_training_data.py: request a batch,
   * reporting the previous one as finished, run the engine for it, and stop
   * at the first empty batch. The batches run are returned; generating them
   * (a subprocess) is not part of this model.
   */
  method ProcessFunc(work: Counters) returns (batches: seq<int>)
    modifies work
    ensures batches == Batches(old(work.remaining))
    ensures work.remaining == 0
    ensures work.finished == old(work.finished) + Sum(batches)
  {
    batches := [];
    var workTodo := 0;
    ghost var initial := work.remaining;
    ghost var finished0 := work.finished;
    while true
      invariant Handed(batches, workTodo, work.remaining, work.finished, initial, finished0)
      decreases if work.remaining < 0 then 1 else work.remaining
    {
      ghost var before := work.remaining;
      ghost var reported := work.finished;
      workTodo := work.RequestWork(workTodo);
      if workTodo == 0 {
        break;
      }
      // generate_batch(training_file, work_todo, args)
      HandedStep(batches, workTodo, before, work.remaining, reported, initial, finished0);
      batches := batches + [workTodo];
    }
  }

  /** The loop state of process_func: the batches so far, the last one not yet reported. */
  predicate Handed(batches: seq<int>, workTodo: int, remaining: int, finished: int, initial: int, finished0: int)
  {
    && workTodo == (if batches == [] then 0 else batches[|batches| - 1])
    && batches + Batches(remaining) == Batches(initial)
    && finished + workTodo == finished0 + Sum(batches)
  }

  lemma HandedStep(batches: seq<int>, npos: int, before: int, after: int, reported: int, initial: int, finished0: int)
    requires Handed(batches, if batches == [] then 0 else batches[|batches| - 1], before, reported, initial, finished0)
    requires npos == BatchOf(before) && npos != 0 && after == before - npos
    ensures Handed(batches + [npos], npos, after, reported + (if batches == [] then 0 else batches[|batches| - 1]), initial, finished0)
  {
    BatchesUnfold(before, npos, after);
    Regroup(batches, npos, Batches(after));
    SumAppend(batches, npos);
  }

  lemma BatchesUnfold(before: int, npos: int, after: int)
    requires npos == BatchOf(before) && npos != 0 && after == before - npos
    ensures Batches(before) == [npos] + Batches(after)
  {
  }

  lemma Regroup(a: seq<int>, x: int, b: seq<int>)
    ensures a + [x] + b == a + ([x] + b)
  {
  }

  /** Every batch handed out is at most BATCH_SIZE, and a run hands out all that was requested. */
  lemma ProcessFuncTotals(npositions: int)
    requires npositions >= 0
    ensures forall k :: 0 <= k < |Batches(npositions)| ==> 0 < Batches(npositions)[k] <= BATCH_SIZE
    ensures Sum(Batches(npositions)) == npositions
    ensures |Batches(npositions)| == (npositions + BATCH_SIZE - 1) / BATCH_SIZE
  {
    BatchCount(npositions);
  }

  lemma {:induction false} BatchCount(n: int)
    requires n >= 0
    ensures |Batches(n)| == (n + BATCH_SIZE - 1) / BATCH_SIZE
    decreases n
  {
    if n > 0 {
      BatchCount(n - BatchOf(n));
    }
  }
}
