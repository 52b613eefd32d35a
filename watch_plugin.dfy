/**
 * The file-watch plugin: it waits for file-system events, coalesces a
 * burst of them behind a debounce timer, and on each timer expiry that
 * follows an event cancels the previous run of its job and starts one new
 * run in a fresh child context.
 */
module Watch {
  import opened Wrappers
  import opened CancelScope
  import opened JobContext
  import Manifest

  /** What the event loop can receive: a file-system event, the debounce timer, or the closed event channel. */
  datatype Input = FsEvent | TimerFire | Closed

  /**
   * The state of the event loop. `hasEvent` is the dirty flag, `armed`
   * whether the debounce timer is running, `current` the token of the
   * current child context, `issued` every child token the plugin created
   * (oldest first), `runs` the child tokens the job was started on, and
   * `scope` the cancellation tree.
   */
  datatype Loop = Loop(hasEvent: bool, armed: bool, current: Token,
                       issued: seq<Token>, runs: seq<Token>, scope: Scope)

  /** The state once the first child context exists and the timer has been started. */
  function Start(s: Scope, parent: Token): (l: Loop)
    requires WellFormed(s) && parent < s.next
    ensures LoopInv(l, parent) && !l.hasEvent && l.runs == []
    ensures l.issued == [l.current] && IsCancelled(l.scope, l.current) == IsCancelled(s, parent)
  {
    var c := AddChild(s, parent);
    ChildStartsAsParent(s, parent);
    Loop(false, true, c.token, [c.token], [], c.scope)
  }

  /**
   * Every child created before the current one is cancelled, every child
   * hangs directly under `parent`, children are issued in increasing
   * order, the job ran once on each child after the first, and the dirty
   * flag is only set while the timer runs.
   */
  ghost predicate LoopInv(l: Loop, parent: Token) {
    WellFormed(l.scope) && parent < l.scope.next &&
    |l.issued| >= 1 && l.current == l.issued[|l.issued| - 1] && l.runs == l.issued[1..] &&
    (forall i :: 0 <= i < |l.issued| ==>
       l.issued[i] < l.scope.next && l.issued[i] in l.scope.parent && l.scope.parent[l.issued[i]] == parent) &&
    (forall i, j :: 0 <= i < j < |l.issued| ==> l.issued[i] < l.issued[j]) &&
    (forall i :: 0 <= i < |l.issued| - 1 ==> IsCancelled(l.scope, l.issued[i])) &&
    (l.hasEvent ==> l.armed)
  }

  /** One turn of the event loop on an input other than `Closed`. */
  function Step(l: Loop, parent: Token, input: Input): (r: Loop)
    requires LoopInv(l, parent) && input != Closed
    ensures LoopInv(r, parent)
    ensures input == FsEvent ==>
      r.hasEvent && r.armed && r.current == l.current && r.issued == l.issued && r.runs == l.runs &&
      r.scope == l.scope
    ensures input == TimerFire && !l.hasEvent ==> r == l.(armed := false)
    ensures input == TimerFire && l.hasEvent ==>
      !r.hasEvent && !r.armed &&
      r.scope == AddChild(CancelAt(l.scope, l.current), parent).scope &&
      r.current == l.scope.next && r.current in r.scope.parent && r.scope.parent[r.current] == parent &&
      r.issued == l.issued + [r.current] && r.runs == l.runs + [r.current] &&
      IsCancelled(r.scope, l.current) && IsCancelled(r.scope, r.current) == IsCancelled(l.scope, parent)
  {
    match input
    case FsEvent => l.(hasEvent := true, armed := true)
    case TimerFire =>
      if l.hasEvent then
        var s1 := CancelAt(l.scope, l.current);
        var c := AddChild(s1, parent);
        var r := Loop(false, false, c.token, l.issued + [c.token], l.runs + [c.token], c.scope);
        FireKeepsInv(l, parent, s1, c, r);
        r
      else
        l.(armed := false)
  }

  /** The proof that a firing timer keeps `LoopInv`. */
  lemma {:induction false} FireKeepsInv(l: Loop, parent: Token, s1: Scope, c: Issued, r: Loop)
    requires LoopInv(l, parent) && l.hasEvent
    requires s1 == CancelAt(l.scope, l.current) && c == AddChild(s1, parent)
    requires r == Loop(false, false, c.token, l.issued + [c.token], l.runs + [c.token], c.scope)
    ensures LoopInv(r, parent)
    ensures IsCancelled(r.scope, l.current) && IsCancelled(r.scope, r.current) == IsCancelled(l.scope, parent)
  {
    var n := |l.issued|;
    assert l.current < l.scope.next;
    forall i | 0 <= i < n
      ensures IsCancelled(r.scope, r.issued[i])
    {
      var x := l.issued[i];
      if i < n - 1 {
        CancelAtCancels(l.scope, l.current, x);
      } else {
        CancelReachesDescendants(l.scope, l.current, x);
      }
      AddChildPreserves(s1, parent, x, x);
    }
    forall i | 0 <= i < n + 1
      ensures r.issued[i] < r.scope.next && r.issued[i] in r.scope.parent && r.scope.parent[r.issued[i]] == parent
    {
      if i < n {
        assert r.issued[i] == l.issued[i] < l.scope.next;
      }
    }
    forall i, j | 0 <= i < j < n + 1
      ensures r.issued[i] < r.issued[j]
    {
      assert r.issued[i] == l.issued[i] < l.scope.next;
      if j < n {
        assert r.issued[j] == l.issued[j];
      }
    }
    assert r.runs == r.issued[1..];
    ChildStartsAsParent(s1, parent);
    CancelAtCancels(l.scope, l.current, parent);
    ParentNotBelowChild(l.scope, l.current);
  }

  /** The loop over `inputs`, ending at the first `Closed`. */
  function RunLoop(l: Loop, parent: Token, inputs: seq<Input>): (r: Loop)
    requires LoopInv(l, parent)
    ensures LoopInv(r, parent) && l.issued <= r.issued
    decreases |inputs|
  {
    if inputs == [] || inputs[0] == Closed then l
    else
      var next := Step(l, parent, inputs[0]);
      assert l.issued <= next.issued;
      RunLoop(next, parent, inputs[1..])
  }

  /** One turn of `RunLoop` at position `i` of `inputs`. */
  lemma RunLoopUnfolds(l: Loop, parent: Token, inputs: seq<Input>, i: nat)
    requires LoopInv(l, parent) && i < |inputs| && inputs[i] != Closed
    ensures RunLoop(l, parent, inputs[i..]) == RunLoop(Step(l, parent, inputs[i]), parent, inputs[i + 1..])
  {
    assert inputs[i..][1..] == inputs[i + 1..];
  }

  /** The deferred teardown of `Call`: cancel the current child context. */
  function Teardown(l: Loop): (r: Loop)
    ensures r.current == l.current && r.issued == l.issued && r.runs == l.runs
    ensures IsCancelled(r.scope, l.current)
  {
    l.(scope := CancelAt(l.scope, l.current))
  }

  /**
   * Teardown revives nothing cancelled before and leaves every token older
   * than the current child as it was.
   */
  lemma {:induction false} TeardownSpares(l: Loop, x: Token)
    ensures IsCancelled(l.scope, x) ==> IsCancelled(Teardown(l).scope, x)
    ensures x < l.current ==> IsCancelled(Teardown(l).scope, x) == IsCancelled(l.scope, x)
  {
    CancelAtCancels(l.scope, l.current, x);
    if x < l.current {
      CancelSparesBelow(l.scope, l.current, x);
    }
  }

  /** A turn of the loop leaves every token older than the loop's first child as it was. */
  lemma {:induction false} StepSparesOlder(l: Loop, parent: Token, input: Input, x: Token)
    requires LoopInv(l, parent) && input != Closed && x < l.issued[0]
    ensures IsCancelled(Step(l, parent, input).scope, x) == IsCancelled(l.scope, x)
  {
    if input == TimerFire && l.hasEvent {
      var s1 := CancelAt(l.scope, l.current);
      assert l.issued[0] <= l.current;
      CancelSparesBelow(l.scope, l.current, x);
      AddChildPreserves(s1, parent, x, x);
    }
  }

  /**
   * Restarting the job never cancels the plugin's own context nor any
   * other token older than the loop's first child: only the loop's own
   * children are ever cancelled.
   */
  lemma {:induction false} RunLoopSparesOlder(l: Loop, parent: Token, inputs: seq<Input>, x: Token)
    requires LoopInv(l, parent) && x < l.issued[0]
    ensures IsCancelled(RunLoop(l, parent, inputs).scope, x) == IsCancelled(l.scope, x)
    decreases |inputs|
  {
    if inputs != [] && inputs[0] != Closed {
      StepSparesOlder(l, parent, inputs[0], x);
      RunLoopSparesOlder(Step(l, parent, inputs[0]), parent, inputs[1..], x);
    }
  }

  /**
   * A whole run of the plugin, teardown included, leaves the cancellation
   * status of every token that existed before it as it was.
   */
  lemma {:induction false} CallSparesOlder(s: Scope, parent: Token, inputs: seq<Input>, x: Token)
    requires WellFormed(s) && parent < s.next && x < s.next
    ensures IsCancelled(Teardown(RunLoop(Start(s, parent), parent, inputs)).scope, x) == IsCancelled(s, x)
  {
    var l0 := Start(s, parent);
    var l := RunLoop(l0, parent, inputs);
    assert l.issued[0] == l0.issued[0] == s.next;
    assert l.issued[0] <= l.current;
    AddChildPreserves(s, parent, x, x);
    RunLoopSparesOlder(l0, parent, inputs, x);
    TeardownSpares(l, x);
  }

  /**
   * The number of timer expiries that find the dirty flag set, counted up
   * to the first `Closed`, given whether the flag is set at the start.
   */
  function DirtyFires(inputs: seq<Input>, dirty: bool): nat
    decreases |inputs|
  {
    if inputs == [] || inputs[0] == Closed then 0
    else if inputs[0] == FsEvent then DirtyFires(inputs[1..], true)
    else (if dirty then 1 else 0) + DirtyFires(inputs[1..], false)
  }

  /** The job is started once for every timer expiry that finds the dirty flag set. */
  lemma {:induction false} RunsCountDirtyFires(l: Loop, parent: Token, inputs: seq<Input>)
    requires LoopInv(l, parent)
    ensures |RunLoop(l, parent, inputs).runs| == |l.runs| + DirtyFires(inputs, l.hasEvent)
    decreases |inputs|
  {
    if inputs != [] && inputs[0] != Closed {
      RunsCountDirtyFires(Step(l, parent, inputs[0]), parent, inputs[1..]);
    }
  }

  /**
   * An event arrived after the last timer expiry in `inputs`, or, when
   * the timer never expired in `inputs`, the flag was already set.
   */
  ghost predicate Pending(inputs: seq<Input>, dirty: bool) {
    (exists j :: 0 <= j < |inputs| && inputs[j] == FsEvent &&
       forall k :: j < k < |inputs| ==> inputs[k] != TimerFire) ||
    (dirty && forall k :: 0 <= k < |inputs| ==> inputs[k] != TimerFire)
  }

  /** `Pending` after one more input other than `Closed`. */
  lemma PendingAfterFirst(inputs: seq<Input>, dirty: bool)
    requires inputs != [] && inputs[0] != Closed
    ensures Pending(inputs, dirty) == Pending(inputs[1..], inputs[0] == FsEvent)
  {
  }

  /**
   * While the event channel stays open, the dirty flag is set exactly when
   * an event arrived after the last timer expiry, so an expiry starts the
   * job exactly when an event came in since the previous expiry.
   */
  lemma {:induction false} FlagMeansPending(l: Loop, parent: Token, inputs: seq<Input>)
    requires LoopInv(l, parent)
    requires forall k :: 0 <= k < |inputs| ==> inputs[k] != Closed
    ensures RunLoop(l, parent, inputs).hasEvent == Pending(inputs, l.hasEvent)
    decreases |inputs|
  {
    if inputs != [] {
      PendingAfterFirst(inputs, l.hasEvent);
      FlagMeansPending(Step(l, parent, inputs[0]), parent, inputs[1..]);
    }
  }

  /** Nothing after a `Closed` input is processed. */
  lemma ClosedEndsLoop(l: Loop, parent: Token, rest: seq<Input>)
    requires LoopInv(l, parent)
    ensures RunLoop(l, parent, [Closed] + rest) == l
  {
  }

  /** After teardown every child context the plugin created is cancelled. */
  lemma {:induction false} TeardownCancelsAll(l: Loop, parent: Token)
    requires LoopInv(l, parent)
    ensures forall i :: 0 <= i < |l.issued| ==> IsCancelled(Teardown(l).scope, l.issued[i])
  {
    forall i | 0 <= i < |l.issued|
      ensures IsCancelled(Teardown(l).scope, l.issued[i])
    {
      CancelAtCancels(l.scope, l.current, l.issued[i]);
    }
  }

  /** At most one child context created by the loop is live: the current one. */
  lemma {:induction false} AtMostOneLive(l: Loop, parent: Token, i: nat, j: nat)
    requires LoopInv(l, parent)
    requires i < |l.issued| && j < |l.issued|
    requires !IsCancelled(l.scope, l.issued[i]) && !IsCancelled(l.scope, l.issued[j])
    ensures i == j && l.issued[i] == l.current
  {
  }

  /** `n` copies of `x`. */
  function Repeat(x: Input, n: nat): (r: seq<Input>)
    ensures |r| == n && forall i :: 0 <= i < n ==> r[i] == x
  {
    if n == 0 then [] else [x] + Repeat(x, n - 1)
  }

  /** A burst of events sets the dirty flag, whatever it was before. */
  lemma {:induction false} BurstMarksDirty(k: nat, rest: seq<Input>, dirty: bool)
    requires k >= 1
    ensures DirtyFires(Repeat(FsEvent, k) + rest, dirty) == DirtyFires(rest, true)
  {
    assert (Repeat(FsEvent, k) + rest)[1..] == Repeat(FsEvent, k - 1) + rest;
    if k > 1 {
      BurstMarksDirty(k - 1, rest, true);
    }
  }

  /** Timer expiries without events in between start the job at most once, and only if the flag was set. */
  lemma {:induction false} FiresRunOnce(m: nat, rest: seq<Input>, dirty: bool)
    requires m >= 1
    ensures DirtyFires(Repeat(TimerFire, m) + rest, dirty) == (if dirty then 1 else 0) + DirtyFires(rest, false)
  {
    assert (Repeat(TimerFire, m) + rest)[1..] == Repeat(TimerFire, m - 1) + rest;
    if m > 1 {
      FiresRunOnce(m - 1, rest, false);
    }
  }

  /** A burst of `k` events followed by `m` timer expiries. */
  function Burst(k: nat, m: nat): (r: seq<Input>)
    ensures |r| == k + m
  {
    Repeat(FsEvent, k) + Repeat(TimerFire, m)
  }

  /** A burst counts one dirty expiry, whatever came before, and leaves the flag clear. */
  lemma {:induction false} BurstFiresOnce(k: nat, m: nat, rest: seq<Input>, dirty: bool)
    requires k >= 1 && m >= 1
    ensures DirtyFires(Burst(k, m) + rest, dirty) == 1 + DirtyFires(rest, false)
  {
    assert Burst(k, m) + rest == Repeat(FsEvent, k) + (Repeat(TimerFire, m) + rest);
    BurstMarksDirty(k, Repeat(TimerFire, m) + rest, dirty);
    FiresRunOnce(m, rest, true);
  }

  /** A burst of `k` events followed by `m` timer expiries starts the job exactly once. */
  lemma {:induction false} OneBurstOneRun(s: Scope, parent: Token, k: nat, m: nat)
    requires WellFormed(s) && parent < s.next && k >= 1 && m >= 1
    ensures |RunLoop(Start(s, parent), parent, Burst(k, m)).runs| == 1
  {
    RunsCountDirtyFires(Start(s, parent), parent, Burst(k, m));
    BurstFiresOnce(k, m, [], false);
    assert Burst(k, m) + [] == Burst(k, m);
  }

  /**
   * Two bursts start the job twice, and the first run's context is
   * cancelled by the time the second starts.
   */
  lemma {:induction false} TwoBurstsTwoRuns(s: Scope, parent: Token, k1: nat, m1: nat, k2: nat, m2: nat)
    requires WellFormed(s) && parent < s.next && k1 >= 1 && m1 >= 1 && k2 >= 1 && m2 >= 1
    ensures var r := RunLoop(Start(s, parent), parent, Burst(k1, m1) + Burst(k2, m2));
      |r.runs| == 2 && IsCancelled(r.scope, r.runs[0])
  {
    var inputs := Burst(k1, m1) + Burst(k2, m2);
    var l := Start(s, parent);
    RunsCountDirtyFires(l, parent, inputs);
    BurstFiresOnce(k1, m1, Burst(k2, m2), false);
    BurstFiresOnce(k2, m2, [], false);
    assert Burst(k2, m2) + [] == Burst(k2, m2);
    var r := RunLoop(l, parent, inputs);
    assert |r.issued| == 3 && r.issued[1] == r.runs[0];
  }

  /** The per-invocation parameters of the plugin. */
  class Plugin {
    const path: string
    const debounceTime: nat
    const job: Manifest.Job

    constructor (path: string, debounceTime: nat, job: Manifest.Job)
      ensures this.path == path && this.debounceTime == debounceTime && this.job == job
    {
      this.path := path;
      this.debounceTime := debounceTime;
      this.job := job;
    }

    /**
     * Watches `path` and re-runs `job` as described by `RunLoop`. `watchErr`
     * is the outcome of installing the watch, `inputs` what the event loop
     * receives before the plugin is stopped; `runs` are the child contexts
     * the job was started on.
     */
    method Call(ctx: RunContext, watchErr: Option<Error>, inputs: seq<Input>)
      returns (err: Option<Error>, runs: seq<Token>)
      requires ctx.Valid()
      modifies ctx.tree
      ensures ctx.Valid()
      ensures watchErr.Some? ==>
        err == Some(Error("failed to initialize watcher for '" + path + "': " + watchErr.value.message)) &&
        runs == [] && ctx.tree.scope == old(ctx.tree.scope)
      ensures watchErr.None? ==>
        var l := RunLoop(Start(old(ctx.tree.scope), ctx.context), ctx.context, inputs);
        err == None && runs == l.runs && ctx.tree.scope == Teardown(l).scope
      ensures watchErr.None? ==>
        |runs| == DirtyFires(inputs, false) &&
        forall i :: 0 <= i < |runs| ==> IsCancelled(ctx.tree.scope, runs[i])
      ensures forall x: Token :: x < old(ctx.tree.scope.next) ==>
        (IsCancelled(ctx.tree.scope, x) <==> IsCancelled(old(ctx.tree.scope), x))
    {
      if watchErr.Some? {
        err := Some(Error("failed to initialize watcher for '" + path + "': " + watchErr.value.message));
        runs := [];
        return;
      }
      ghost var s0 := ctx.tree.scope;
      ghost var parent := ctx.context;
      ghost var l0 := Start(s0, parent);
      var childCtx := ctx.ChildContext();
      var last;
      last, runs := EventLoop(ctx, childCtx, inputs, l0);
      ghost var l := RunLoop(l0, parent, inputs);
      last.Cancel();
      err := None;
      RunsCountDirtyFires(l0, parent, inputs);
      TeardownCancelsAll(l, parent);
      forall k | 0 <= k < |runs|
        ensures IsCancelled(ctx.tree.scope, runs[k])
      {
        assert runs[k] == l.issued[k + 1];
      }
      forall x: Token | x < s0.next
        ensures IsCancelled(ctx.tree.scope, x) <==> IsCancelled(s0, x)
      {
        CallSparesOlder(s0, parent, inputs, x);
      }
    }

    /**
     * The event loop of `Call`, entered with the first child context `first`
     * and the timer running. It returns the child context current when the
     * loop ends and the child contexts the job was started on.
     */
    method EventLoop(ctx: RunContext, first: RunContext, inputs: seq<Input>, ghost l0: Loop)
      returns (last: RunContext, runs: seq<Token>)
      requires ctx.Valid() && first.Valid() && first.tree == ctx.tree
      requires LoopInv(l0, ctx.context) && !l0.hasEvent && l0.armed && l0.runs == []
      requires l0.current == first.context && first.cancelFn == Some(first.context)
      requires l0.scope == ctx.tree.scope
      modifies ctx.tree
      ensures ctx.Valid() && last.Valid() && last.tree == ctx.tree
      ensures var l := RunLoop(l0, ctx.context, inputs);
        ctx.tree.scope == l.scope && runs == l.runs &&
        last.context == l.current && last.cancelFn == Some(last.context)
    {
      ghost var parent := ctx.context;
      ghost var target := RunLoop(l0, parent, inputs);
      ghost var l := l0;
      last := first;
      var hasEvent := false;
      var armed := true;
      runs := [];
      var i := 0;
      while i < |inputs| && inputs[i] != Closed
        invariant 0 <= i <= |inputs|
        invariant ctx.Valid() && last.Valid() && last.tree == ctx.tree
        invariant LoopInv(l, parent) && target == RunLoop(l, parent, inputs[i..])
        invariant l.hasEvent == hasEvent && l.armed == armed && l.runs == runs
        invariant l.current == last.context && last.cancelFn == Some(last.context)
        invariant l.scope == ctx.tree.scope
      {
        last, hasEvent, armed, runs := Turn(ctx, last, inputs[i], hasEvent, armed, runs, l);
        ghost var stepped := Step(l, parent, inputs[i]);
        RunLoopUnfolds(l, parent, inputs, i);
        assert target == RunLoop(stepped, parent, inputs[i + 1..]);
        l, i := stepped, i + 1;
      }
    }

    /**
     * One turn of the event loop: an event sets the dirty flag and restarts
     * the timer; a timer expiry that finds the flag set cancels the current
     * child context and starts the job in a new one.
     */
    method Turn(ctx: RunContext, cur: RunContext, input: Input, hasEvent: bool, armed: bool,
                runs: seq<Token>, ghost l: Loop)
      returns (next: RunContext, hasEvent': bool, armed': bool, runs': seq<Token>)
      requires input != Closed
      requires ctx.Valid() && cur.Valid() && cur.tree == ctx.tree
      requires LoopInv(l, ctx.context) && l.hasEvent == hasEvent && l.armed == armed && l.runs == runs
      requires l.current == cur.context && cur.cancelFn == Some(cur.context) && l.scope == ctx.tree.scope
      modifies ctx.tree
      ensures ctx.Valid() && next.Valid() && next.tree == ctx.tree
      ensures var r := Step(l, ctx.context, input);
        r.hasEvent == hasEvent' && r.armed == armed' && r.runs == runs' &&
        r.current == next.context && next.cancelFn == Some(next.context) && r.scope == ctx.tree.scope
    {
      next, hasEvent', armed', runs' := cur, hasEvent, armed, runs;
      match input {
        case FsEvent =>
          hasEvent' := true;
          armed' := true;
        case TimerFire =>
          armed' := false;
          if hasEvent {
            hasEvent' := false;
            cur.Cancel();
            next := ctx.ChildContext();
            runs' := runs + [next.context];
          }
      }
    }
  }
}
