/**
 * A value model of the cancellation tree that Go's `context` package keeps
 * behind `context.WithCancel` and `context.WithTimeout`: every context is a
 * token, a derived token remembers its parent, and a token counts as
 * cancelled when it or any of its ancestors has been cancelled.
 */
module CancelScope {

  type Token = nat

  /**
   * `parent` maps each derived token to the token it was derived from,
   * `cancelled` holds the tokens whose cancel function was called, and
   * `next` is the next token to hand out. Tokens are handed out in
   * increasing order, so a parent is always smaller than its children.
   */
  datatype Scope = Scope(parent: map<Token, Token>, cancelled: set<Token>, next: Token)

  /** A freshly issued token together with the scope that knows it. */
  datatype Issued = Issued(scope: Scope, token: Token)

  /** No scope exists yet. */
  const Empty: Scope := Scope(map[], {}, 0)

  /** Every derived or cancelled token is known, and a child lies above its parent. */
  predicate WellFormed(s: Scope) {
    (forall t :: t in s.parent ==> t < s.next && s.parent[t] < t) &&
    (forall t :: t in s.cancelled ==> t < s.next)
  }

  /** `a` is `t` itself or one of its ancestors. */
  predicate IsAncestorOrSelf(s: Scope, a: Token, t: Token)
    decreases t
  {
    a == t || (t in s.parent && s.parent[t] < t && IsAncestorOrSelf(s, a, s.parent[t]))
  }

  /** `t` or one of its ancestors has been cancelled. */
  predicate IsCancelled(s: Scope, t: Token)
    decreases t
  {
    t in s.cancelled || (t in s.parent && s.parent[t] < t && IsCancelled(s, s.parent[t]))
  }

  /** A new top-level token, as for `context.Background()`. */
  function AddRoot(s: Scope): (r: Issued)
    ensures WellFormed(s) ==> WellFormed(r.scope) && r.token !in r.scope.parent
    ensures r.token == s.next && r.scope.next == s.next + 1
  {
    Issued(s.(next := s.next + 1), s.next)
  }

  /** A new token nested under `p`, as for `context.WithCancel(p)`. */
  function AddChild(s: Scope, p: Token): (r: Issued)
    ensures WellFormed(s) && p < s.next ==> WellFormed(r.scope)
    ensures r.token == s.next && r.scope.next == s.next + 1
    ensures r.token in r.scope.parent && r.scope.parent[r.token] == p
    ensures r.scope.cancelled == s.cancelled
  {
    Issued(Scope(s.parent[s.next := p], s.cancelled, s.next + 1), s.next)
  }

  /** The effect of calling the cancel function of `t`. */
  function CancelAt(s: Scope, t: Token): (r: Scope)
    ensures WellFormed(s) && t < s.next ==> WellFormed(r)
    ensures r.next == s.next && r.parent == s.parent && t in r.cancelled
  {
    s.(cancelled := s.cancelled + {t})
  }

  /** Ancestors are never larger than their descendants. */
  lemma {:induction false} AncestorNotAbove(s: Scope, a: Token, t: Token)
    requires IsAncestorOrSelf(s, a, t)
    ensures a <= t
  {
    if a != t {
      AncestorNotAbove(s, a, s.parent[t]);
    }
  }

  /** A parent is never a descendant of its own child. */
  lemma {:induction false} ParentNotBelowChild(s: Scope, c: Token)
    requires c in s.parent && s.parent[c] < c
    ensures !IsAncestorOrSelf(s, c, s.parent[c])
  {
    if IsAncestorOrSelf(s, c, s.parent[c]) {
      AncestorNotAbove(s, c, s.parent[c]);
    }
  }

  /**
   * Cancelling `t` cancels exactly the tokens that were already cancelled
   * and those that have `t` as an ancestor (or are `t`).
   */
  lemma {:induction false} CancelAtCancels(s: Scope, t: Token, x: Token)
    ensures IsCancelled(CancelAt(s, t), x) <==> IsCancelled(s, x) || IsAncestorOrSelf(s, t, x)
    decreases x
  {
    if x in s.parent && s.parent[x] < x {
      CancelAtCancels(s, t, s.parent[x]);
    }
  }

  /** Issuing a new child leaves every known token's ancestry and cancellation as it was. */
  lemma {:induction false} AddChildPreserves(s: Scope, p: Token, x: Token, a: Token)
    requires WellFormed(s) && x < s.next
    ensures IsCancelled(AddChild(s, p).scope, x) == IsCancelled(s, x)
    ensures IsAncestorOrSelf(AddChild(s, p).scope, a, x) == IsAncestorOrSelf(s, a, x)
    decreases x
  {
    if x in s.parent {
      AddChildPreserves(s, p, s.parent[x], a);
    }
  }

  /** Issuing a new root leaves every token's ancestry and cancellation as it was. */
  lemma {:induction false} AddRootPreserves(s: Scope, x: Token, a: Token)
    ensures IsCancelled(AddRoot(s).scope, x) == IsCancelled(s, x)
    ensures IsAncestorOrSelf(AddRoot(s).scope, a, x) == IsAncestorOrSelf(s, a, x)
    decreases x
  {
    if x in s.parent && s.parent[x] < x {
      AddRootPreserves(s, s.parent[x], a);
    }
  }

  /** A new root is live. */
  lemma {:induction false} AddRootIsLive(s: Scope)
    requires WellFormed(s)
    ensures !IsCancelled(AddRoot(s).scope, AddRoot(s).token)
  {
  }

  /** A new child is cancelled exactly when its parent already is. */
  lemma {:induction false} ChildStartsAsParent(s: Scope, p: Token)
    requires WellFormed(s) && p < s.next
    ensures IsCancelled(AddChild(s, p).scope, AddChild(s, p).token) == IsCancelled(s, p)
  {
    AddChildPreserves(s, p, p, p);
  }

  /** Cancelling a child never cancels its parent nor any other token that existed before it. */
  lemma {:induction false} ChildCancelSparesOthers(s: Scope, p: Token, x: Token)
    requires WellFormed(s) && p < s.next && x < s.next
    ensures var r := AddChild(s, p);
      IsCancelled(CancelAt(r.scope, r.token), x) == IsCancelled(s, x)
  {
    var r := AddChild(s, p);
    CancelAtCancels(r.scope, r.token, x);
    AddChildPreserves(s, p, x, r.token);
    if IsAncestorOrSelf(r.scope, r.token, x) {
      AncestorNotAbove(r.scope, r.token, x);
    }
  }

  /** Cancelling a token leaves every smaller token as it was: none of them descends from it. */
  lemma {:induction false} CancelSparesBelow(s: Scope, t: Token, x: Token)
    requires x < t
    ensures IsCancelled(CancelAt(s, t), x) == IsCancelled(s, x)
  {
    CancelAtCancels(s, t, x);
    if IsAncestorOrSelf(s, t, x) {
      AncestorNotAbove(s, t, x);
    }
  }

  /** Cancelling a token cancels every one of its descendants. */
  lemma {:induction false} CancelReachesDescendants(s: Scope, a: Token, x: Token)
    requires IsAncestorOrSelf(s, a, x)
    ensures IsCancelled(CancelAt(s, a), x)
  {
    CancelAtCancels(s, a, x);
  }

  /** Cancellation is never undone by issuing or cancelling tokens. */
  lemma {:induction false} CancelledStaysCancelled(s: Scope, p: Token, t: Token, x: Token)
    requires WellFormed(s) && x < s.next && IsCancelled(s, x)
    ensures IsCancelled(CancelAt(s, t), x)
    ensures IsCancelled(AddChild(s, p).scope, x)
  {
    CancelAtCancels(s, t, x);
    AddChildPreserves(s, p, x, x);
  }
}
