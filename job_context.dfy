/**
 * The run context handed to every dispatched job: a cancellable scope, a
 * result channel shared with the context it was derived from, a wait group
 * signalled when the job reports, and a one-shot guard so that only the
 * first reported result takes effect.
 */
module JobContext {
  import opened Wrappers
  import opened CancelScope

  /** A non-nil Go error; a nil error is `None`. */
  datatype Error = Error(message: string)

  /** What a call of `Result` did to the result cell. */
  datatype Delivery =
    | Absorbed  // the once-guard was already used: nothing happened
    | Sent      // the error went into the channel's buffer
    | Blocked   // the Go send would block (nil channel or full buffer); here the call returns with only the guard used

  /** The cancellation state of all contexts of one run, shared by reference. */
  class ContextTree {
    var scope: Scope

    ghost predicate Valid()
      reads this
    {
      WellFormed(scope)
    }

    constructor ()
      ensures Valid() && scope == Empty
    {
      scope := Empty;
    }

    /** A new uncancelled top-level context. */
    method Background() returns (t: Token)
      requires Valid()
      modifies this
      ensures Valid() && scope == AddRoot(old(scope)).scope && t == AddRoot(old(scope)).token
      ensures t == old(scope.next) && !IsCancelled(scope, t)
    {
      var r := AddRoot(scope);
      AddRootIsLive(scope);
      scope, t := r.scope, r.token;
    }

    /** `context.WithCancel(p)`: a token nested under `p`; its cancel function cancels the new token. */
    method WithCancel(p: Token) returns (t: Token)
      requires Valid() && p < scope.next
      modifies this
      ensures Valid() && scope == AddChild(old(scope), p).scope && t == AddChild(old(scope), p).token
      ensures t == old(scope.next) && IsCancelled(scope, t) == IsCancelled(old(scope), p)
    {
      var r := AddChild(scope, p);
      ChildStartsAsParent(scope, p);
      scope, t := r.scope, r.token;
    }

    /** Calling the cancel function of `t`. */
    method Cancel(t: Token)
      requires Valid() && t < scope.next
      modifies this
      ensures Valid() && scope == CancelAt(old(scope), t)
    {
      scope := CancelAt(scope, t);
    }
  }

  /** A buffered `chan error`. */
  class Channel {
    const capacity: nat
    var buffer: seq<Option<Error>>

    constructor (capacity: nat)
      ensures this.capacity == capacity && buffer == []
    {
      this.capacity := capacity;
      buffer := [];
    }
  }

  /** A `sync.WaitGroup`, reduced to its counter. */
  class WaitGroup {
    var counter: int

    constructor (counter: int)
      ensures this.counter == counter
    {
      this.counter := counter;
    }

    method Done()
      modifies this
      ensures counter == old(counter) - 1
    {
      counter := counter - 1;
    }
  }

  class RunContext {
    const rootVars: map<string, string>
    const tree: ContextTree
    /** The token of the Go `context.Context` this run context carries. */
    const context: Token
    /** The result channel; `null` for a context made by `WithTimeout`. */
    const errors: Channel?
    /** The token that the cancel function cancels; `None` when there is no cancel function. */
    const cancelFn: Option<Token>
    const child: bool
    var wg: WaitGroup?
    /** Whether the once-guard of `Result` has been used. */
    var onceUsed: bool
    var finished: bool

    /**
     * The context's token is known to the tree, a cancel function cancels
     * exactly that token, and only a delivered result finishes the context.
     */
    ghost predicate Valid()
      reads this, tree
    {
      tree.Valid() && context < tree.scope.next &&
      (cancelFn.Some? ==> cancelFn.value == context) &&
      (finished ==> onceUsed)
    }

    /** A struct literal: the given fields, with a fresh once-guard and `finished` false. */
    constructor (rootVars: map<string, string>, tree: ContextTree, context: Token,
                 errors: Channel?, cancelFn: Option<Token>, child: bool, wg: WaitGroup?)
      ensures this.rootVars == rootVars && this.tree == tree && this.context == context
      ensures this.errors == errors && this.cancelFn == cancelFn && this.child == child && this.wg == wg
      ensures !onceUsed && !finished
    {
      this.rootVars := rootVars;
      this.tree := tree;
      this.context := context;
      this.errors := errors;
      this.cancelFn := cancelFn;
      this.child := child;
      this.wg := wg;
      onceUsed := false;
      finished := false;
    }

    method SetWaitGroup(w: WaitGroup?)
      modifies this
      ensures wg == w && onceUsed == old(onceUsed) && finished == old(finished)
      ensures old(Valid()) ==> Valid()
    {
      wg := w;
    }

    function IsChild(): (r: bool)
      reads this
      ensures r == child
    {
      child
    }

    /** A context is alive until its first result has been delivered with a wait group attached. */
    function IsAlive(): (r: bool)
      reads this
      ensures r <==> !finished
    {
      !finished
    }

    /** A context in the same cancel scope, sharing channel and wait group. */
    method ForkContext() returns (c: RunContext)
      requires Valid()
      ensures fresh(c) && c.Valid()
      ensures c.rootVars == rootVars && c.tree == tree && c.context == context && c.cancelFn == cancelFn
      ensures c.errors == errors && c.wg == wg && c.child
      ensures !c.onceUsed && c.IsAlive()
    {
      c := new RunContext(rootVars, tree, context, errors, cancelFn, true, wg);
    }

    /** A context with a new cancel scope nested under this one, sharing channel and wait group. */
    method ChildContext() returns (c: RunContext)
      requires Valid()
      modifies tree
      ensures fresh(c) && Valid() && c.Valid()
      ensures var r := AddChild(old(tree.scope), context);
        tree.scope == r.scope && c.context == r.token && c.cancelFn == Some(r.token)
      ensures IsCancelled(tree.scope, c.context) == IsCancelled(old(tree.scope), context)
      ensures IsAncestorOrSelf(tree.scope, context, c.context)
      ensures c.rootVars == rootVars && c.tree == tree && c.errors == errors && c.wg == wg && c.child
      ensures !c.onceUsed && c.IsAlive()
    {
      var t := tree.WithCancel(context);
      c := new RunContext(rootVars, tree, t, errors, Some(t), true, wg);
    }

    /**
     * A context with a new cancel scope nested under this one, and neither
     * result channel nor wait group. The deadline `timeout` is not modelled.
     */
    method WithTimeout(timeout: nat) returns (c: RunContext)
      requires Valid()
      modifies tree
      ensures fresh(c) && Valid() && c.Valid()
      ensures var r := AddChild(old(tree.scope), context);
        tree.scope == r.scope && c.context == r.token && c.cancelFn == Some(r.token)
      ensures c.rootVars == rootVars && c.tree == tree && c.errors == null && c.wg == null && !c.child
      ensures !c.onceUsed && c.IsAlive()
    {
      var t := tree.WithCancel(context);
      c := new RunContext(rootVars, tree, t, null, Some(t), false, null);
    }

    /** Calls the cancel function, if the context has one. */
    method Cancel()
      requires Valid()
      modifies tree
      ensures Valid()
      ensures cancelFn.None? ==> tree.scope == old(tree.scope)
      ensures cancelFn.Some? ==> tree.scope == CancelAt(old(tree.scope), cancelFn.value)
      ensures cancelFn.Some? ==>
        forall x :: IsAncestorOrSelf(old(tree.scope), context, x) ==> IsCancelled(tree.scope, x)
    {
      if cancelFn == None {
        return;
      }
      ghost var s0 := tree.scope;
      tree.Cancel(cancelFn.value);
      forall x | IsAncestorOrSelf(s0, context, x)
        ensures IsCancelled(tree.scope, x)
      {
        CancelReachesDescendants(s0, context, x);
      }
    }

    /**
     * Reports the job's result. Only the first call takes effect: it sends
     * `err` into the channel and, when a wait group is attached, marks the
     * context finished and signals the wait group once.
     */
    method Result(err: Option<Error>) returns (d: Delivery)
      requires Valid()
      modifies this, errors, wg
      ensures Valid() && onceUsed && wg == old(wg)
      ensures old(onceUsed) ==> d == Absorbed
      ensures !old(onceUsed) ==> d != Absorbed
      ensures d != Sent ==>
        finished == old(finished) &&
        (errors != null ==> errors.buffer == old(errors.buffer)) &&
        (wg != null ==> wg.counter == old(wg.counter))
      ensures !old(onceUsed) ==> (d == Blocked <==> errors == null || |old(errors.buffer)| >= errors.capacity)
      ensures d == Sent ==>
        errors != null && |old(errors.buffer)| < errors.capacity &&
        errors.buffer == old(errors.buffer) + [err] &&
        (wg != null ==> finished && wg.counter == old(wg.counter) - 1) &&
        (wg == null ==> finished == old(finished))
    {
      if onceUsed {
        return Absorbed;
      }
      onceUsed := true;
      if errors == null || |errors.buffer| >= errors.capacity {
        return Blocked;
      }
      errors.buffer := errors.buffer + [err];
      if wg == null {
        return Sent;
      }
      finished := true;
      wg.Done();
      d := Sent;
    }

    /** `Result` with a nil error. */
    method Success() returns (d: Delivery)
      requires Valid()
      modifies this, errors, wg
      ensures Valid() && onceUsed && wg == old(wg)
      ensures old(onceUsed) ==> d == Absorbed
      ensures !old(onceUsed) ==> d != Absorbed
      ensures d != Sent ==>
        finished == old(finished) &&
        (errors != null ==> errors.buffer == old(errors.buffer)) &&
        (wg != null ==> wg.counter == old(wg.counter))
      ensures !old(onceUsed) ==> (d == Blocked <==> errors == null || |old(errors.buffer)| >= errors.capacity)
      ensures d == Sent ==>
        errors != null && |old(errors.buffer)| < errors.capacity &&
        errors.buffer == old(errors.buffer) + [None] &&
        (wg != null ==> finished && wg.counter == old(wg.counter) - 1) &&
        (wg == null ==> finished == old(finished))
    {
      d := Result(None);
    }
  }

  /** A root run context: alive, not a child, no wait group, no cancel function, an empty channel of capacity 1. */
  method NewRunContext(rootVars: map<string, string>, tree: ContextTree, ctx: Token) returns (r: RunContext)
    requires tree.Valid() && ctx < tree.scope.next
    ensures fresh(r) && fresh(r.errors) && r.Valid()
    ensures r.rootVars == rootVars && r.tree == tree && r.context == ctx
    ensures r.errors != null && r.errors.capacity == 1 && r.errors.buffer == []
    ensures !r.IsChild() && r.wg == null && r.cancelFn == None
    ensures !r.onceUsed && r.IsAlive()
  {
    var ch := new Channel(1);
    r := new RunContext(rootVars, tree, ctx, ch, None, false, null);
  }
}
