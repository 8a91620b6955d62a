/**
 * The block indexer's engine (indexer/indexer.go): one pass of ForEachBlock
 * run sequentially. The chain's RPC endpoint and the actions' Execute are
 * oracles; the goroutines become the iterations of one loop, the semaphore a
 * slot counter and the mutex a two-state value.
 */
module Indexer {
  import opened Wrappers
  import opened ChainTypes

  /** Attempt budget of every block query (RtyAttNum). */
  const RtyAttNum: nat := 5

  /** What the RPC endpoint answers to one block query. */
  datatype BlockReply = Got(block: Block) | QueryFailed(error: Error)

  /** The RPC endpoint: the answer to attempt `k` (0-based) of the query for a height. */
  type Rpc = (Height, nat) -> BlockReply

  /** The calls a pass makes to its collaborators, in order. */
  datatype Event<A> =
    | BlockQueried(height: Height, attempt: nat)
    | ActionExecuted(action: A, block: Block)
    | ActionFailed(action: A, block: Block, error: Error)  // the warning logged for a failed Execute

  /** Outcome of retry.Do around the block query: the last reply and the attempts made. */
  datatype Retried = Retried(reply: BlockReply, attempts: nat)

  /**
   * retry.Do from attempt `from` on: stop at the first block, or after
   * RtyAttNum failures with the last error only (LastErrorOnly).
   */
  function RetryDo(rpc: Rpc, h: Height, from: nat): (r: Retried)
    requires from < RtyAttNum
    ensures from < r.attempts <= RtyAttNum
    ensures r.reply == rpc(h, r.attempts - 1)
    ensures r.reply.QueryFailed? ==> r.attempts == RtyAttNum
    ensures forall k :: from <= k < r.attempts - 1 ==> rpc(h, k).QueryFailed?
    decreases RtyAttNum - from
  {
    match rpc(h, from)
    case Got(b) => Retried(Got(b), from + 1)
    case QueryFailed(e) =>
      if from + 1 == RtyAttNum then Retried(QueryFailed(e), RtyAttNum)
      else RetryDo(rpc, h, from + 1)
  }

  /** Whether the block at h cannot be fetched within the attempt budget. */
  predicate FetchFails(rpc: Rpc, h: Height) {
    RetryDo(rpc, h, 0).reply.QueryFailed?
  }

  /** The query events of attempts 0 .. n-1 for h. */
  function Queries<A>(h: Height, n: nat): seq<Event<A>> {
    seq(n, k requires 0 <= k < n => BlockQueried(h, k))
  }

  /** Calling one action's Execute on a block, and the warning when it fails. */
  function Execution<A>(a: A, execute: (A, Block) -> Option<Error>, b: Block): seq<Event<A>> {
    [ActionExecuted(a, b)] + match execute(a, b) case Some(e) => [ActionFailed(a, b, e)] case None => []
  }

  /** Running the actions on a fetched block, in slice order (lines 100-110). */
  function Executions<A>(actions: seq<A>, execute: (A, Block) -> Option<Error>, b: Block): seq<Event<A>>
    decreases |actions|
  {
    if actions == [] then []
    else Executions(actions[..|actions| - 1], execute, b) + Execution(actions[|actions| - 1], execute, b)
  }

  /** What a task or a pass returns, adds to failedBlocks and does. */
  datatype Outcome<A> = Outcome(err: Option<Error>, failed: seq<Height>, trace: seq<Event<A>>)

  /** One task (lines 72-114): fetch with retry, then run every action or record the failure. */
  function Task<A>(rpc: Rpc, execute: (A, Block) -> Option<Error>, actions: seq<A>, h: Height): Outcome<A> {
    var r := RetryDo(rpc, h, 0);
    match r.reply
    case QueryFailed(e) => Outcome(Some(e), [h], Queries(h, r.attempts))
    case Got(b) => Outcome(None, [], Queries(h, r.attempts) + Executions(actions, execute, b))
  }

  /** One pass over `blocks` (lines 68-118): every task in turn, eg.Wait keeping the first error. */
  function RunPass<A>(rpc: Rpc, execute: (A, Block) -> Option<Error>, actions: seq<A>, blocks: seq<Height>): Outcome<A>
    decreases |blocks|
  {
    if blocks == [] then Outcome(None, [], [])
    else
      var p := RunPass(rpc, execute, actions, blocks[..|blocks| - 1]);
      var t := Task(rpc, execute, actions, blocks[|blocks| - 1]);
      Outcome(if p.err.Some? then p.err else t.err, p.failed + t.failed, p.trace + t.trace)
  }

  // ---------------------------------------------------------------------------
  // Observations of a trace

  /** The (action, block) pairs of the Execute calls in a trace, in order. */
  function Dispatched<A>(trace: seq<Event<A>>): seq<(A, Block)>
    decreases |trace|
  {
    if trace == [] then []
    else
      Dispatched(trace[..|trace| - 1])
      + match trace[|trace| - 1] case ActionExecuted(a, b) => [(a, b)] case _ => []
  }

  /** The number of block queries in a trace. */
  function QueryCount<A>(trace: seq<Event<A>>): nat
    decreases |trace|
  {
    if trace == [] then 0
    else QueryCount(trace[..|trace| - 1]) + if trace[|trace| - 1].BlockQueried? then 1 else 0
  }

  /** Every action paired with the block, in slice order. */
  function Pairs<A>(actions: seq<A>, b: Block): seq<(A, Block)> {
    seq(|actions|, i requires 0 <= i < |actions| => (actions[i], b))
  }

  /** The Execute calls expected when every height of `blocks` is fetched. */
  function AllDispatches<A>(rpc: Rpc, actions: seq<A>, blocks: seq<Height>): seq<(A, Block)>
    requires forall i :: 0 <= i < |blocks| ==> !FetchFails(rpc, blocks[i])
    decreases |blocks|
  {
    if blocks == [] then []
    else
      var h := blocks[|blocks| - 1];
      assert !FetchFails(rpc, h);
      AllDispatches(rpc, actions, blocks[..|blocks| - 1]) + Pairs(actions, RetryDo(rpc, h, 0).reply.block)
  }

  lemma {:induction false} DispatchedAppend<A>(s: seq<Event<A>>, t: seq<Event<A>>)
    ensures Dispatched(s + t) == Dispatched(s) + Dispatched(t)
    decreases |t|
  {
    if t == [] {
      assert s + t == s;
    } else {
      assert (s + t)[..|s + t| - 1] == s + t[..|t| - 1];
      DispatchedAppend(s, t[..|t| - 1]);
    }
  }

  lemma {:induction false} QueryCountAppend<A>(s: seq<Event<A>>, t: seq<Event<A>>)
    ensures QueryCount(s + t) == QueryCount(s) + QueryCount(t)
    decreases |t|
  {
    if t == [] {
      assert s + t == s;
    } else {
      assert (s + t)[..|s + t| - 1] == s + t[..|t| - 1];
      QueryCountAppend(s, t[..|t| - 1]);
    }
  }

  lemma {:induction false} QueriesObserved<A>(h: Height, n: nat)
    ensures Dispatched(Queries<A>(h, n)) == []
    ensures QueryCount(Queries<A>(h, n)) == n
    decreases n
  {
    if n > 0 {
      assert Queries<A>(h, n)[..n - 1] == Queries<A>(h, n - 1);
      QueriesObserved<A>(h, n - 1);
    }
  }

  // ---------------------------------------------------------------------------
  // Properties of the actions' dispatch

  /**
   * On a fetched block every action's Execute is called exactly once, in
   * slice order, whatever the actions return; no block is queried.
   */
  lemma {:induction false} ExecutionsRunEveryActionOnce<A>(actions: seq<A>, execute: (A, Block) -> Option<Error>, b: Block)
    ensures Dispatched(Executions(actions, execute, b)) == Pairs(actions, b)
    ensures QueryCount(Executions(actions, execute, b)) == 0
    decreases |actions|
  {
    if actions != [] {
      var init := actions[..|actions| - 1];
      var a := actions[|actions| - 1];
      ExecutionsRunEveryActionOnce(init, execute, b);
      var step := Execution(a, execute, b);
      DispatchedAppend(Executions(init, execute, b), step);
      QueryCountAppend(Executions(init, execute, b), step);
      assert Dispatched(step) == [(a, b)] by {
        DispatchedAppend([ActionExecuted(a, b)], step[1..]);
        assert [ActionExecuted(a, b)] + step[1..] == step;
        assert Dispatched([ActionExecuted(a, b)]) == [(a, b)] by {
          assert ([] + [ActionExecuted(a, b)])[..0] == [];
        }
      }
      assert QueryCount(step) == 0 by {
        QueryCountAppend([ActionExecuted(a, b)], step[1..]);
        assert [ActionExecuted(a, b)] + step[1..] == step;
      }
    }
  }

  /**
   * A task queries its height between 1 and RtyAttNum times; a failed fetch
   * runs no action, marks the height failed and returns the last fetch error;
   * a fetched block runs every action and the task returns nil.
   */
  lemma TaskBehaviour<A>(rpc: Rpc, execute: (A, Block) -> Option<Error>, actions: seq<A>, h: Height)
    ensures var t := Task(rpc, execute, actions, h);
      && 1 <= QueryCount(t.trace) <= RtyAttNum
      && (FetchFails(rpc, h) ==>
            t.err == Some(rpc(h, RtyAttNum - 1).error) && t.failed == [h] && Dispatched(t.trace) == [])
      && (!FetchFails(rpc, h) ==>
            t.err == None && t.failed == [] && Dispatched(t.trace) == Pairs(actions, RetryDo(rpc, h, 0).reply.block))
  {
    var r := RetryDo(rpc, h, 0);
    QueriesObserved<A>(h, r.attempts);
    if r.reply.Got? {
      ExecutionsRunEveryActionOnce(actions, execute, r.reply.block);
      DispatchedAppend(Queries<A>(h, r.attempts), Executions(actions, execute, r.reply.block));
      QueryCountAppend(Queries<A>(h, r.attempts), Executions(actions, execute, r.reply.block));
    }
  }

  // ---------------------------------------------------------------------------
  // Properties of a pass

  /**
   * A pass returns an error exactly when failedBlocks is non-empty, so the
   * recursive call of line 122, which needs no error and a failure, is never
   * reached. The error is the last fetch error of the first failing height.
   */
  lemma {:induction false} PassErrorIffFailure<A>(rpc: Rpc, execute: (A, Block) -> Option<Error>, actions: seq<A>, blocks: seq<Height>)
    ensures var p := RunPass(rpc, execute, actions, blocks);
      && (p.err.Some? <==> p.failed != [])
      && (p.err.Some? <==> exists i :: 0 <= i < |blocks| && FetchFails(rpc, blocks[i]))
      && (p.err.Some? ==> exists i :: 0 <= i < |blocks| && FetchFails(rpc, blocks[i])
                                      && p.err == Some(rpc(blocks[i], RtyAttNum - 1).error)
                                      && forall j :: 0 <= j < i ==> !FetchFails(rpc, blocks[j]))
    decreases |blocks|
  {
    if blocks != [] {
      var init := blocks[..|blocks| - 1];
      var h := blocks[|blocks| - 1];
      PassErrorIffFailure(rpc, execute, actions, init);
      var p := RunPass(rpc, execute, actions, init);
      forall i | 0 <= i < |init| ensures init[i] == blocks[i] { }
      if p.err.Some? {
        var i :| 0 <= i < |init| && FetchFails(rpc, init[i])
                  && p.err == Some(rpc(init[i], RtyAttNum - 1).error)
                  && forall j :: 0 <= j < i ==> !FetchFails(rpc, init[j]);
        assert blocks[i] == init[i];
      } else if FetchFails(rpc, h) {
        assert forall j :: 0 <= j < |blocks| - 1 ==> !FetchFails(rpc, blocks[j]);
      } else {
        forall i | 0 <= i < |blocks| ensures !FetchFails(rpc, blocks[i]) {
          if i < |init| { assert blocks[i] == init[i]; }
        }
      }
    }
  }

  /**
   * failedBlocks holds exactly the heights whose fetch failed: a height that
   * was fetched never appears in it, and it is no longer than the input.
   */
  lemma {:induction false} PassFailedAreFailedFetches<A>(rpc: Rpc, execute: (A, Block) -> Option<Error>, actions: seq<A>, blocks: seq<Height>)
    ensures var p := RunPass(rpc, execute, actions, blocks);
      && |p.failed| <= |blocks|
      && forall x :: x in p.failed <==> x in blocks && FetchFails(rpc, x)
    decreases |blocks|
  {
    if blocks != [] {
      var init := blocks[..|blocks| - 1];
      PassFailedAreFailedFetches(rpc, execute, actions, init);
      assert blocks == init + [blocks[|blocks| - 1]];
    }
  }

  /** What the actions' Execute returns changes neither the pass's error nor failedBlocks. */
  lemma {:induction false} PassIgnoresActionErrors<A>(rpc: Rpc, ex1: (A, Block) -> Option<Error>, ex2: (A, Block) -> Option<Error>, actions: seq<A>, blocks: seq<Height>)
    ensures RunPass(rpc, ex1, actions, blocks).err == RunPass(rpc, ex2, actions, blocks).err
    ensures RunPass(rpc, ex1, actions, blocks).failed == RunPass(rpc, ex2, actions, blocks).failed
    ensures Dispatched(RunPass(rpc, ex1, actions, blocks).trace) == Dispatched(RunPass(rpc, ex2, actions, blocks).trace)
    decreases |blocks|
  {
    if blocks != [] {
      var init := blocks[..|blocks| - 1];
      var h := blocks[|blocks| - 1];
      PassIgnoresActionErrors(rpc, ex1, ex2, actions, init);
      TaskBehaviour(rpc, ex1, actions, h);
      TaskBehaviour(rpc, ex2, actions, h);
      DispatchedAppend(RunPass(rpc, ex1, actions, init).trace, Task(rpc, ex1, actions, h).trace);
      DispatchedAppend(RunPass(rpc, ex2, actions, init).trace, Task(rpc, ex2, actions, h).trace);
    }
  }

  /**
   * When every fetch succeeds the pass returns nil with no failures, and every
   * entry of `blocks`, duplicates included, gets the whole action list once,
   * entries in input order and actions in slice order.
   */
  lemma {:induction false} PassWithoutFailuresRunsEverything<A>(rpc: Rpc, execute: (A, Block) -> Option<Error>, actions: seq<A>, blocks: seq<Height>)
    requires forall i :: 0 <= i < |blocks| ==> !FetchFails(rpc, blocks[i])
    ensures var p := RunPass(rpc, execute, actions, blocks);
      p.err == None && p.failed == [] && Dispatched(p.trace) == AllDispatches(rpc, actions, blocks)
    decreases |blocks|
  {
    if blocks != [] {
      var init := blocks[..|blocks| - 1];
      var h := blocks[|blocks| - 1];
      assert forall i :: 0 <= i < |init| ==> init[i] == blocks[i];
      PassWithoutFailuresRunsEverything(rpc, execute, actions, init);
      TaskBehaviour(rpc, execute, actions, h);
      DispatchedAppend(RunPass(rpc, execute, actions, init).trace, Task(rpc, execute, actions, h).trace);
    }
  }

  // ---------------------------------------------------------------------------
  // The failedBlocks mutex (lines 89-93)

  datatype Mutex = Unlocked | Locked

  /** sync.Mutex.Lock: the caller gets a locked mutex, or blocks (None) when it is held. */
  function Lock(m: Mutex): Option<Mutex> {
    if m == Unlocked then Some(Locked) else None
  }

  /** sync.Mutex.Unlock: unlocking a mutex that is not held is a fatal error (None). */
  function Unlock(m: Mutex): Option<Mutex> {
    if m == Locked then Some(Unlocked) else None
  }

  /**
   * The append as written: Lock, then append, then the deferred call, which
   * is Lock again. None means the goroutine never gets past it.
   */
  function AppendFailedAsWritten(m: Mutex, failed: seq<Height>, h: Height): Option<(Mutex, seq<Height>)> {
    match Lock(m)
    case None => None
    case Some(held) =>
      var appended := failed + [h];
      match Lock(held)
      case None => None
      case Some(m') => Some((m', appended))
  }

  /** As written, the first task whose fetch fails blocks for ever, whatever the mutex's state. */
  lemma AppendFailedAsWrittenBlocks(m: Mutex, failed: seq<Height>, h: Height)
    ensures AppendFailedAsWritten(m, failed, h) == None
  {
  }

  /** The append as intended: Lock, append, Unlock. */
  function AppendFailed(m: Mutex, failed: seq<Height>, h: Height): (r: Option<(Mutex, seq<Height>)>)
    ensures m == Unlocked ==> r == Some((Unlocked, failed + [h]))
  {
    match Lock(m)
    case None => None
    case Some(held) =>
      match Unlock(held)
      case None => None
      case Some(m') => Some((m', failed + [h]))
  }

  // ---------------------------------------------------------------------------
  // The imperative pass

  /** The variables one ForEachBlock call shares with its tasks (lines 56-61). */
  class PassState {
    const concurrentBlocks: nat
    var failedBlocks: seq<Height>
    var held: nat     // slots of `sem` in use
    var mutex: Mutex

    ghost predicate Valid()
      reads this
    {
      held <= concurrentBlocks && mutex == Unlocked
    }

    constructor (concurrentBlocks: nat)
      ensures Valid()
      ensures this.concurrentBlocks == concurrentBlocks && failedBlocks == [] && held == 0
    {
      this.concurrentBlocks := concurrentBlocks;
      failedBlocks := [];
      held := 0;
      mutex := Unlocked;
    }

    /** `sem <- struct{}{}`: take a slot; the sequential model never finds the channel full. */
    method Acquire()
      requires Valid() && held < concurrentBlocks
      modifies this`held
      ensures Valid() && held == old(held) + 1
    {
      held := held + 1;
    }

    /** `<-sem`: give a slot back. */
    method Release()
      requires Valid() && held > 0
      modifies this`held
      ensures Valid() && held == old(held) - 1
    {
      held := held - 1;
    }

    /** Append a failed height under the mutex, releasing it afterwards. */
    method AppendFailedBlock(h: Height)
      requires Valid()
      modifies this`failedBlocks, this`mutex
      ensures Valid() && failedBlocks == old(failedBlocks) + [h]
    {
      var r := AppendFailed(mutex, failedBlocks, h);
      mutex, failedBlocks := r.value.0, r.value.1;
    }
  }

  /** The indexer with its chain client's RPC endpoint and a record of the calls made. */
  class Indexer<A> {
    const rpc: Rpc
    var trace: seq<Event<A>>

    constructor (rpc: Rpc)
      ensures this.rpc == rpc && trace == []
    {
      this.rpc := rpc;
      trace := [];
    }

    /** retry.Do around RPCClient.Block (lines 76-87), without its delays. */
    method QueryBlock(h: Height) returns (reply: BlockReply)
      modifies this`trace
      ensures var r := RetryDo(rpc, h, 0);
        reply == r.reply && trace == old(trace) + Queries(h, r.attempts)
    {
      var attempt: nat := 0;
      reply := rpc(h, attempt);
      trace := trace + [BlockQueried(h, attempt)];
      while reply.QueryFailed? && attempt + 1 < RtyAttNum
        invariant attempt < RtyAttNum
        invariant reply == rpc(h, attempt)
        invariant trace == old(trace) + Queries(h, attempt + 1)
        invariant RetryDo(rpc, h, 0) == RetryDo(rpc, h, attempt)
        decreases RtyAttNum - attempt
      {
        attempt := attempt + 1;
        reply := rpc(h, attempt);
        trace := trace + [BlockQueried(h, attempt)];
        assert Queries<A>(h, attempt + 1) == Queries<A>(h, attempt) + [BlockQueried(h, attempt)];
      }
    }

    /** One task's body (lines 72-114); the caller has taken its slot. */
    method RunTask(pass: PassState, h: Height, actions: seq<A>, execute: (A, Block) -> Option<Error>) returns (err: Option<Error>)
      requires pass.Valid() && pass.held >= 1
      modifies this`trace, pass`failedBlocks, pass`mutex, pass`held
      ensures pass.Valid() && pass.held == old(pass.held) - 1
      ensures var t := Task(rpc, execute, actions, h);
        && err == t.err
        && pass.failedBlocks == old(pass.failedBlocks) + t.failed
        && trace == old(trace) + t.trace
    {
      var reply := QueryBlock(h);
      if reply.QueryFailed? {
        pass.AppendFailedBlock(h);
        pass.Release();
        return Some(reply.error);
      }
      RunActions(reply.block, actions, execute);
      pass.Release();
      return None;
    }

    /** The action loop of lines 100-110: every action once, in order; a failure is only logged. */
    method RunActions(block: Block, actions: seq<A>, execute: (A, Block) -> Option<Error>)
      modifies this`trace
      ensures trace == old(trace) + Executions(actions, execute, block)
    {
      ghost var before := trace;
      for k := 0 to |actions|
        invariant trace == before + Executions(actions[..k], execute, block)
      {
        var a := actions[k];
        var e := execute(a, block);
        trace := trace + [ActionExecuted(a, block)];
        if e.Some? {
          // the warning of lines 103-108; the error goes no further
          trace := trace + [ActionFailed(a, block, e.value)];
        }
        assert actions[..k + 1][..k] == actions[..k];
      }
      assert actions[..|actions|] == actions;
    }

    /**
     * ForEachBlock (lines 55-125). The caller must give at least one slot:
     * with none, `sem <- struct{}{}` on an unbuffered channel blocks for ever.
     */
    method ForEachBlock(blocks: seq<Height>, actions: seq<A>, execute: (A, Block) -> Option<Error>, concurrentBlocks: nat)
      returns (err: Option<Error>)
      requires concurrentBlocks >= 1
      modifies this`trace
      ensures var p := RunPass(rpc, execute, actions, blocks);
        err == p.err && trace == old(trace) + p.trace
    {
      var pass := new PassState(concurrentBlocks);
      ghost var before := trace;
      err := None;
      for i := 0 to |blocks|
        invariant pass.Valid() && pass.held == 0
        invariant var p := RunPass(rpc, execute, actions, blocks[..i]);
          err == p.err && pass.failedBlocks == p.failed && trace == before + p.trace
      {
        pass.Acquire();
        var taskErr := RunTask(pass, blocks[i], actions, execute);
        if err.None? {
          err := taskErr;  // eg.Wait reports the first error
        }
        assert blocks[..i + 1][..i] == blocks[..i];
      }
      assert blocks[..|blocks|] == blocks;
      if err.Some? {
        return;
      }
      PassErrorIffFailure(rpc, execute, actions, blocks);
      if |pass.failedBlocks| > 0 {
        // line 122: ForEachBlock(ctx, failedBlocks, ...) is unreachable
        assert false;
      }
    }
  }
}
