/** Contexts and the tree of their cancellations (src/context.c). A cancellation that is triggered calls
    its callbacks one by one: the chained cancellations of derived contexts, which are triggered in
    turn, and handlers, behind which other tasks run. What those do is a script. */
module CancellationObject {
  import opened Queues

  /** An entry of cancel->callbacks. */
  datatype Cb = Chain(child: nat) | Handler(id: nat)

  datatype Node = Node(triggered: bool, error: int, callbacks: seq<Cb>)

  /** What another task does while it runs; Back returns to the interrupted drain. */
  datatype Act =
    | AskCancel(node: nat, error: int)
    | AskRegister(context: nat)
    | AskUnregister(handler: nat)
    | AskWithCancel(context: nat)
    | AskWith(context: nat)
    | AskShield(context: nat)
    | Back

  /** m is n or was derived from it through chained cancellations. */
  ghost predicate Descends(parent: seq<Option<nat>>, m: nat, n: nat)
    requires m < |parent| && Rooted(parent)
    decreases m
  {
    m == n || (parent[m].Some? && Descends(parent, parent[m].value, n))
  }

  /** A cancellation is chained to an older one. */
  ghost predicate Rooted(parent: seq<Option<nat>>) {
    forall m :: 0 <= m < |parent| && parent[m].Some? ==> parent[m].value < m
  }

  lemma {:induction false} DescendsMore(parent: seq<Option<nat>>, m: nat, c: nat, n: nat)
    requires Rooted(parent) && m < |parent| && c < |parent| && parent[c] == Some(n) && Descends(parent, m, c)
    ensures Descends(parent, m, n)
    decreases m
  {
    if m == c {
    } else {
      DescendsMore(parent, parent[m].value, c, n);
    }
  }

  lemma {:induction false} DescendsUp(parent: seq<Option<nat>>, m: nat, n: nat)
    requires Rooted(parent) && m < |parent| && Descends(parent, m, n)
    ensures n <= m
    decreases m
  {
    if m == n {
    } else {
      DescendsUp(parent, parent[m].value, n);
    }
  }

  lemma {:induction false} DescendsPrefix(before: seq<Option<nat>>, after: seq<Option<nat>>, m: nat, n: nat)
    requires Rooted(before) && Rooted(after) && before <= after && m < |before|
    ensures Descends(before, m, n) <==> Descends(after, m, n)
    decreases m
  {
    if m == n || before[m].None? {
    } else {
      DescendsPrefix(before, after, before[m].value, n);
    }
  }

  /** The parent has m in its list of callbacks until it is triggered, and m with it. */
  ghost predicate Linked(nodes: seq<Node>, parent: seq<Option<nat>>, m: nat)
    requires m < |nodes| == |parent|
  {
    parent[m].Some? ==>
      && parent[m].value < m
      && (Chain(m) in nodes[parent[m].value].callbacks || (nodes[m].triggered && nodes[parent[m].value].triggered))
  }

  ghost predicate Owned(count: nat, parent: seq<Option<nat>>, home: seq<nat>, p: nat, cb: Cb)
    requires count == |parent|
  {
    match cb
    case Chain(c) => c < count && parent[c] == Some(p)
    case Handler(h) => h < |home| && home[h] == p
  }

  /** Everything in p's list belongs there, once. */
  ghost predicate ListOk(nodes: seq<Node>, parent: seq<Option<nat>>, home: seq<nat>, p: nat)
    requires p < |nodes| == |parent|
  {
    && NoDup(nodes[p].callbacks)
    && forall cb :: cb in nodes[p].callbacks ==> Owned(|nodes|, parent, home, p, cb)
  }

  /** A handler is registered where it was put until it fires or is unregistered. */
  ghost predicate Accounted(nodes: seq<Node>, home: seq<nat>, fired: seq<nat>, removed: set<nat>, h: nat)
    requires h < |home|
  {
    && home[h] < |nodes|
    && (Handler(h) in nodes[home[h]].callbacks <==> h !in fired && h !in removed)
    && !(h in fired && h in removed)
  }

  /** Only a cancellation that is being drained is triggered and still has callbacks. */
  ghost predicate Drained(nodes: seq<Node>, draining: set<nat>) {
    forall p :: 0 <= p < |nodes| && nodes[p].triggered && p !in draining ==> nodes[p].callbacks == []
  }

  ghost predicate TreeOk(nodes: seq<Node>, parent: seq<Option<nat>>, home: seq<nat>) {
    && |nodes| == |parent|
    && (forall m :: 0 <= m < |nodes| ==> Linked(nodes, parent, m))
    && (forall p :: 0 <= p < |nodes| ==> ListOk(nodes, parent, home, p))
  }

  ghost predicate HandlersOk(nodes: seq<Node>, home: seq<nat>, fired: seq<nat>, removed: set<nat>) {
    && NoDup(fired)
    && (forall h :: h in fired || h in removed ==> h < |home|)
    && (forall h :: 0 <= h < |home| ==> Accounted(nodes, home, fired, removed, h))
  }

  lemma RootedTree(nodes: seq<Node>, parent: seq<Option<nat>>, home: seq<nat>)
    requires TreeOk(nodes, parent, home)
    ensures Rooted(parent)
  {
    forall m | 0 <= m < |parent| && parent[m].Some?
      ensures parent[m].value < m
    {
      assert Linked(nodes, parent, m);
    }
  }

  /** With nothing being drained, whatever descends from a triggered cancellation is triggered. */
  lemma {:induction false} TriggeredDown(nodes: seq<Node>, parent: seq<Option<nat>>, home: seq<nat>, m: nat, n: nat)
    requires TreeOk(nodes, parent, home) && Drained(nodes, {}) && Rooted(parent)
    requires m < |nodes| && n < |nodes| && Descends(parent, m, n) && nodes[n].triggered
    ensures nodes[m].triggered
    decreases m
  {
    if m == n {
    } else {
      TriggeredDown(nodes, parent, home, parent[m].value, n);
      assert Linked(nodes, parent, m);
    }
  }

  /** The script cancels m or one that m descends from. */
  ghost predicate Asked(parent: seq<Option<nat>>, m: nat, script: seq<Act>)
    requires Rooted(parent) && m < |parent|
  {
    exists k, e :: AskCancel(k, e) in script && Descends(parent, m, k)
  }

  /** Between a and b only the cancellations that the script asks for were marked, only handlers
      registered there were called, and only the ones the script unregisters were removed. */
  ghost predicate CausedBy(a: seq<Node>, b: seq<Node>, parent: seq<Option<nat>>, home: seq<nat>,
                           calls: (seq<nat>, seq<nat>), gone: (set<nat>, set<nat>), script: seq<Act>)
  {
    && Rooted(parent) && |a| <= |b| == |parent|
    && (forall m: nat :: m < |a| && b[m].triggered && !a[m].triggered ==> Asked(parent, m, script))
    && (forall h: nat :: h in calls.1 && h !in calls.0 ==> h < |home| && home[h] < |parent| && Asked(parent, home[h], script))
    && (forall h: nat :: h in gone.1 && h !in gone.0 ==> AskUnregister(h) in script)
  }

  lemma AskedWithin(parent: seq<Option<nat>>, after: seq<Option<nat>>, m: nat, part: seq<Act>, script: seq<Act>)
    requires Rooted(parent) && Rooted(after) && parent <= after && m < |parent|
    requires Asked(parent, m, part) && forall a :: a in part ==> a in script
    ensures Asked(after, m, script)
  {
    var k, e :| AskCancel(k, e) in part && Descends(parent, m, k);
    DescendsPrefix(parent, after, m, k);
    assert AskCancel(k, e) in script;
  }

  /** One thing after another. */
  lemma CausedThen(a: seq<Node>, b: seq<Node>, d: seq<Node>, up: seq<Option<nat>>, parent: seq<Option<nat>>, at: seq<nat>, home: seq<nat>,
                   f: seq<nat>, g: seq<nat>, h: seq<nat>, r: set<nat>, s: set<nat>, u: set<nat>, first: seq<Act>, second: seq<Act>, script: seq<Act>)
    requires CausedBy(a, b, up, at, (f, g), (r, s), first) && CausedBy(b, d, parent, home, (g, h), (s, u), second)
    requires up <= parent && at <= home
    requires forall x :: x in first || x in second ==> x in script
    ensures CausedBy(a, d, parent, home, (f, h), (r, u), script)
  {
    forall m: nat | m < |a| && d[m].triggered && !a[m].triggered
      ensures Asked(parent, m, script)
    {
      if b[m].triggered {
        AskedWithin(up, parent, m, first, script);
      } else {
        AskedWithin(parent, parent, m, second, script);
      }
    }
    forall x: nat | x in h && x !in f
      ensures x < |home| && home[x] < |parent| && Asked(parent, home[x], script)
    {
      if x in g {
        AskedWithin(up, parent, at[x], first, script);
      } else {
        AskedWithin(parent, parent, home[x], second, script);
      }
    }
  }

  /** What descends from c descends from the one that c is chained to. */
  lemma CausedUp(a: seq<Node>, b: seq<Node>, parent: seq<Option<nat>>, home: seq<nat>, calls: (seq<nat>, seq<nat>),
                 gone: (set<nat>, set<nat>), n: nat, c: nat, error: int, script: seq<Act>)
    requires CausedBy(a, b, parent, home, calls, gone, [AskCancel(c, error)] + script)
    requires c < |parent| && parent[c] == Some(n)
    ensures CausedBy(a, b, parent, home, calls, gone, [AskCancel(n, error)] + script)
  {
    forall m: nat | m < |parent| && Asked(parent, m, [AskCancel(c, error)] + script)
      ensures Asked(parent, m, [AskCancel(n, error)] + script)
    {
      var k, e :| AskCancel(k, e) in [AskCancel(c, error)] + script && Descends(parent, m, k);
      if AskCancel(k, e) in script {
        assert AskCancel(k, e) in [AskCancel(n, error)] + script;
      } else {
        DescendsMore(parent, m, c, n);
        assert AskCancel(n, error) in [AskCancel(n, error)] + script;
      }
    }
    assert forall h: nat :: AskUnregister(h) in [AskCancel(c, error)] + script ==> AskUnregister(h) in [AskCancel(n, error)] + script;
  }

  // ---- What a drain that nobody interferes with does ----

  /** m is n or can be reached from n through the lists of callbacks. */
  ghost predicate InTree(nodes: seq<Node>, parent: seq<Option<nat>>, m: nat, n: nat)
    requires Rooted(parent) && m < |parent| == |nodes|
    decreases m
  {
    m == n || (parent[m].Some? && Chain(m) in nodes[parent[m].value].callbacks && InTree(nodes, parent, parent[m].value, n))
  }

  /** Everything in the tree is marked, without a callback left; the rest is as it was. */
  ghost predicate SweptAll(a: seq<Node>, b: seq<Node>, parent: seq<Option<nat>>, n: nat, error: int) {
    && Rooted(parent) && |a| == |b| == |parent|
    && forall m: nat :: m < |a| ==> b[m] == if InTree(a, parent, m, n) then Node(true, error, []) else a[m]
  }

  /** The same in the middle of the drain of n: what is no longer in the tree is marked. */
  ghost predicate Swept(a: seq<Node>, b: seq<Node>, parent: seq<Option<nat>>, n: nat, error: int) {
    && Rooted(parent) && |a| == |b| == |parent| && n < |a|
    && b[n].triggered == a[n].triggered && b[n].error == a[n].error
    && forall m: nat :: m < |a| && m != n ==>
         if InTree(a, parent, m, n) && !InTree(b, parent, m, n) then b[m] == Node(true, error, [])
         else b[m] == a[m] && (InTree(a, parent, m, n) <==> InTree(b, parent, m, n))
  }

  lemma SweptTwice(a: seq<Node>, b: seq<Node>, d: seq<Node>, parent: seq<Option<nat>>, n: nat, error: int)
    requires Swept(a, b, parent, n, error) && Swept(b, d, parent, n, error)
    ensures Swept(a, d, parent, n, error)
  {
  }

  lemma {:induction false} InTreeDescends(nodes: seq<Node>, parent: seq<Option<nat>>, m: nat, n: nat)
    requires Rooted(parent) && m < |parent| == |nodes| && InTree(nodes, parent, m, n)
    ensures Descends(parent, m, n) && n <= m
    decreases m
  {
    if m == n {
    } else {
      InTreeDescends(nodes, parent, parent[m].value, n);
    }
  }

  /** Nothing is left in the tree of a cancellation without callbacks. */
  lemma {:induction false} EmptyTree(nodes: seq<Node>, parent: seq<Option<nat>>, m: nat, n: nat)
    requires Rooted(parent) && m < |parent| == |nodes| && n < |nodes| && nodes[n].callbacks == []
    ensures InTree(nodes, parent, m, n) <==> m == n
    decreases m
  {
    if m == n {
    } else if parent[m].Some? {
      EmptyTree(nodes, parent, parent[m].value, n);
    }
  }

  lemma SweptOut(a: seq<Node>, b: seq<Node>, parent: seq<Option<nat>>, n: nat, error: int)
    requires Swept(a, b, parent, n, error) && b[n].callbacks == [] && a[n].triggered && a[n].error == error
    ensures SweptAll(a, b, parent, n, error)
  {
    forall m: nat | m < |a|
      ensures b[m] == if InTree(a, parent, m, n) then Node(true, error, []) else a[m]
    {
      EmptyTree(b, parent, m, n);
    }
  }

  lemma {:induction false} InTreeMore(nodes: seq<Node>, parent: seq<Option<nat>>, m: nat, c: nat, n: nat)
    requires Rooted(parent) && m < |parent| == |nodes| && c < |nodes| && n < |nodes|
    requires parent[c] == Some(n) && Chain(c) in nodes[n].callbacks && InTree(nodes, parent, m, c)
    ensures InTree(nodes, parent, m, n)
    decreases m
  {
    if m == c {
    } else {
      InTreeMore(nodes, parent, parent[m].value, c, n);
    }
  }

  /** The tree of c does not depend on the list of the older n. */
  lemma {:induction false} InTreeAbove(a: seq<Node>, b: seq<Node>, parent: seq<Option<nat>>, m: nat, c: nat, n: nat)
    requires Rooted(parent) && m < |parent| == |a| == |b| && n < c < |a|
    requires forall k: nat :: k < |a| && k != n ==> b[k].callbacks == a[k].callbacks
    ensures InTree(a, parent, m, c) <==> InTree(b, parent, m, c)
    decreases m
  {
    if m == c {
    } else if parent[m].Some? {
      InTreeAbove(a, b, parent, parent[m].value, c, n);
      if parent[m].value == n {
        if InTree(a, parent, n, c) { InTreeDescends(a, parent, n, c); }
        if InTree(b, parent, n, c) { InTreeDescends(b, parent, n, c); }
      }
    }
  }

  /** A handler at the head of n's list: the tree stays. */
  lemma {:induction false} HandlerTurn(a: seq<Node>, parent: seq<Option<nat>>, m: nat, n: nat)
    requires Rooted(parent) && m < |parent| == |a| && n < |a| && a[n].callbacks != [] && a[n].callbacks[0].Handler?
    requires NoDup(a[n].callbacks)
    ensures InTree(a, parent, m, n) <==> InTree(Extracted(a, n), parent, m, n)
    decreases m
  {
    if m == n {
    } else if parent[m].Some? {
      HandlerTurn(a, parent, parent[m].value, n);
      ExtractedIn(a, n, Chain(m));
    }
  }

  /** What the turn for the chained cancellation c leaves of a cancellation. */
  ghost predicate TurnOf(a: seq<Node>, b: seq<Node>, parent: seq<Option<nat>>, n: nat, c: nat, error: int) {
    && Rooted(parent) && |a| == |b| == |parent| && n < c < |a| && parent[c] == Some(n)
    && a[n].callbacks != [] && a[n].callbacks[0] == Chain(c) && NoDup(a[n].callbacks)
    && b[n] == Extracted(a, n)[n]
    && forall m: nat :: m < |a| && m != n ==> b[m] == if InTree(a, parent, m, c) then Node(true, error, []) else a[m]
  }

  /** What hangs on c is out of n's tree, and everything else stays in. */
  lemma {:induction false} ChainTurn(a: seq<Node>, b: seq<Node>, parent: seq<Option<nat>>, m: nat, n: nat, c: nat, error: int)
    requires TurnOf(a, b, parent, n, c, error) && m < |a|
    ensures InTree(b, parent, m, n) <==> InTree(a, parent, m, n) && !InTree(a, parent, m, c)
    decreases m
  {
    if m == n {
      if InTree(a, parent, n, c) { InTreeDescends(a, parent, n, c); }
    } else if parent[m].Some? {
      ChainTurn(a, b, parent, parent[m].value, n, c, error);
      ExtractedIn(a, n, Chain(m));
    }
  }

  lemma ChainSwept(a: seq<Node>, b: seq<Node>, parent: seq<Option<nat>>, n: nat, c: nat, error: int)
    requires TurnOf(a, b, parent, n, c, error)
    ensures Swept(a, b, parent, n, error)
  {
    forall m: nat | m < |a|
      ensures InTree(b, parent, m, n) <==> InTree(a, parent, m, n) && !InTree(a, parent, m, c)
      ensures InTree(a, parent, m, c) ==> InTree(a, parent, m, n)
    {
      ChainTurn(a, b, parent, m, n, c, error);
      assert Chain(c) in a[n].callbacks;
      if InTree(a, parent, m, c) { InTreeMore(a, parent, m, c, n); }
    }
  }

  /** m descends from n and nothing strictly between them has been triggered. */
  ghost predicate Open(nodes: seq<Node>, parent: seq<Option<nat>>, m: nat, n: nat)
    requires Rooted(parent) && m < |parent| == |nodes|
    decreases m
  {
    m == n || (parent[m].Some? && (parent[m].value == n || !nodes[parent[m].value].triggered) && Open(nodes, parent, parent[m].value, n))
  }

  /** With nothing being drained, the tree of an untriggered cancellation reaches exactly as far. */
  lemma {:induction false} InTreeIff(nodes: seq<Node>, parent: seq<Option<nat>>, home: seq<nat>, m: nat, n: nat)
    requires TreeOk(nodes, parent, home) && Rooted(parent) && Drained(nodes, {})
    requires m < |nodes| && n < |nodes| && !nodes[n].triggered
    ensures InTree(nodes, parent, m, n) <==> Open(nodes, parent, m, n)
    decreases m
  {
    if m == n {
    } else if parent[m].Some? {
      InTreeIff(nodes, parent, home, parent[m].value, n);
      assert Linked(nodes, parent, m);
    }
  }

  // ---- What the operations do to the tree ----

  /** Setting the flag and the error of one cancellation. */
  lemma MarkTree(nodes: seq<Node>, parent: seq<Option<nat>>, home: seq<nat>, n: nat, error: int)
    requires TreeOk(nodes, parent, home) && n < |nodes|
    ensures TreeOk(nodes[n := Node(true, error, nodes[n].callbacks)], parent, home)
  {
    var after := nodes[n := Node(true, error, nodes[n].callbacks)];
    forall m | 0 <= m < |after|
      ensures Linked(after, parent, m) && ListOk(after, parent, home, m)
    {
      assert Linked(nodes, parent, m) && ListOk(nodes, parent, home, m);
    }
  }

  lemma MarkHandlers(nodes: seq<Node>, home: seq<nat>, fired: seq<nat>, removed: set<nat>, n: nat, error: int)
    requires HandlersOk(nodes, home, fired, removed) && n < |nodes|
    ensures HandlersOk(nodes[n := Node(true, error, nodes[n].callbacks)], home, fired, removed)
  {
    var after := nodes[n := Node(true, error, nodes[n].callbacks)];
    forall h | 0 <= h < |home|
      ensures Accounted(after, home, fired, removed, h)
    {
      assert Accounted(nodes, home, fired, removed, h);
    }
  }

  /** ASYNC_LIST_EXTRACT_FIRST on n's callbacks. */
  function Extracted(nodes: seq<Node>, n: nat): seq<Node>
    requires n < |nodes| && nodes[n].callbacks != []
  {
    nodes[n := nodes[n].(callbacks := nodes[n].callbacks[1..])]
  }

  lemma ExtractedIn(nodes: seq<Node>, n: nat, cb: Cb)
    requires n < |nodes| && nodes[n].callbacks != [] && NoDup(nodes[n].callbacks)
    ensures cb in Extracted(nodes, n)[n].callbacks <==> cb in nodes[n].callbacks && cb != nodes[n].callbacks[0]
    ensures NoDup(Extracted(nodes, n)[n].callbacks)
  {
    var q := nodes[n].callbacks;
    assert q == [q[0]] + q[1..];
  }

  /** The first callback is taken off; the chained cancellation it may be is the only one that can have
      lost its link. */
  lemma ExtractTree(nodes: seq<Node>, parent: seq<Option<nat>>, home: seq<nat>, n: nat)
    requires TreeOk(nodes, parent, home) && n < |nodes| && nodes[n].callbacks != []
    ensures var after := Extracted(nodes, n);
            && (forall m :: 0 <= m < |after| && Chain(m) != nodes[n].callbacks[0] ==> Linked(after, parent, m))
            && (forall p :: 0 <= p < |after| ==> ListOk(after, parent, home, p))
  {
    var after := Extracted(nodes, n);
    assert ListOk(nodes, parent, home, n);
    forall p | 0 <= p < |after|
      ensures ListOk(after, parent, home, p)
    {
      assert ListOk(nodes, parent, home, p);
      ExtractedIn(nodes, n, nodes[n].callbacks[0]);
      assert forall cb :: cb in after[p].callbacks ==> cb in nodes[p].callbacks;
    }
    forall m | 0 <= m < |after| && Chain(m) != nodes[n].callbacks[0]
      ensures Linked(after, parent, m)
    {
      assert Linked(nodes, parent, m);
      ExtractedIn(nodes, n, Chain(m));
    }
  }

  /** A handler is taken off the list and called. */
  lemma FireHandlers(nodes: seq<Node>, parent: seq<Option<nat>>, home: seq<nat>, fired: seq<nat>, removed: set<nat>, n: nat, h: nat)
    requires HandlersOk(nodes, home, fired, removed) && |nodes| == |parent| && n < |nodes| && nodes[n].callbacks != []
    requires ListOk(nodes, parent, home, n) && nodes[n].callbacks[0] == Handler(h)
    ensures HandlersOk(Extracted(nodes, n), home, fired + [h], removed) && h !in fired
  {
    var after := Extracted(nodes, n);
    assert Handler(h) in nodes[n].callbacks && Owned(|nodes|, parent, home, n, Handler(h));
    assert Accounted(nodes, home, fired, removed, h);
    forall g | 0 <= g < |home|
      ensures Accounted(after, home, fired + [h], removed, g)
    {
      assert Accounted(nodes, home, fired, removed, g);
      ExtractedIn(nodes, n, Handler(g));
    }
  }

  /** A chained cancellation is taken off the list. */
  lemma ChainHandlers(nodes: seq<Node>, home: seq<nat>, fired: seq<nat>, removed: set<nat>, n: nat)
    requires HandlersOk(nodes, home, fired, removed) && n < |nodes| && nodes[n].callbacks != []
    requires nodes[n].callbacks[0].Chain? && NoDup(nodes[n].callbacks)
    ensures HandlersOk(Extracted(nodes, n), home, fired, removed)
  {
    var after := Extracted(nodes, n);
    forall g | 0 <= g < |home|
      ensures Accounted(after, home, fired, removed, g)
    {
      assert Accounted(nodes, home, fired, removed, g);
      ExtractedIn(nodes, n, Handler(g));
    }
  }

  /** ASYNC_LIST_APPEND on n's callbacks. */
  function Appended(nodes: seq<Node>, n: nat, cb: Cb): seq<Node>
    requires n < |nodes|
  {
    nodes[n := nodes[n].(callbacks := nodes[n].callbacks + [cb])]
  }

  /** The callback has joined the end of n's list, and that is all. */
  predicate LastIn(before: seq<Node>, after: seq<Node>, n: nat, cb: Cb) {
    && n < |before| && |after| >= |before|
    && after[n] == Node(before[n].triggered, before[n].error, before[n].callbacks + [cb])
    && forall m :: 0 <= m < |before| && m != n ==> after[m] == before[m]
  }

  lemma AppendTree(nodes: seq<Node>, parent: seq<Option<nat>>, home: seq<nat>, n: nat)
    requires TreeOk(nodes, parent, home) && n < |nodes|
    ensures TreeOk(Appended(nodes, n, Handler(|home|)), parent, home + [n])
  {
    var after := Appended(nodes, n, Handler(|home|));
    forall m | 0 <= m < |after|
      ensures Linked(after, parent, m) && ListOk(after, parent, home + [n], m)
    {
      assert Linked(nodes, parent, m) && ListOk(nodes, parent, home, m);
      assert forall cb :: cb in nodes[m].callbacks ==> Owned(|nodes|, parent, home, m, cb);
      assert !Owned(|nodes|, parent, home, m, Handler(|home|));
      NoDupPush(nodes[m].callbacks, Handler(|home|));
      assert forall cb :: cb in nodes[m].callbacks ==> cb in after[m].callbacks;
      assert forall cb :: cb in after[m].callbacks ==> cb in nodes[m].callbacks || (m == n && cb == Handler(|home|));
    }
  }

  lemma AppendHandlers(nodes: seq<Node>, parent: seq<Option<nat>>, home: seq<nat>, fired: seq<nat>, removed: set<nat>, n: nat)
    requires HandlersOk(nodes, home, fired, removed) && n < |nodes|
    ensures HandlersOk(Appended(nodes, n, Handler(|home|)), home + [n], fired, removed)
  {
    var after, k := Appended(nodes, n, Handler(|home|)), |nodes[n].callbacks|;
    assert after[n].callbacks[k] == Handler(|home|);
    forall h | 0 <= h < |home| + 1
      ensures Accounted(after, home + [n], fired, removed, h)
    {
      assert h < |home| ==> Accounted(nodes, home, fired, removed, h);
      assert forall cb :: cb in after[n].callbacks <==> cb in nodes[n].callbacks || cb == Handler(|home|);
    }
  }

  /** ASYNC_LIST_REMOVE of a handler. */
  function Removed(nodes: seq<Node>, n: nat, h: nat): seq<Node>
    requires n < |nodes|
  {
    nodes[n := nodes[n].(callbacks := Without(nodes[n].callbacks, Handler(h)))]
  }

  lemma NoDupPush(q: seq<Cb>, cb: Cb)
    requires NoDup(q) && cb !in q
    ensures NoDup(q + [cb])
  {
  }

  lemma RemoveTree(nodes: seq<Node>, parent: seq<Option<nat>>, home: seq<nat>, n: nat, h: nat)
    requires TreeOk(nodes, parent, home) && n < |nodes|
    ensures TreeOk(Removed(nodes, n, h), parent, home)
  {
    var after := Removed(nodes, n, h);
    forall m | 0 <= m < |after|
      ensures Linked(after, parent, m) && ListOk(after, parent, home, m)
    {
      assert Linked(nodes, parent, m) && ListOk(nodes, parent, home, m);
      WithoutNoDup(nodes[m].callbacks, Handler(h));
      assert forall cb :: cb in after[m].callbacks ==> cb in nodes[m].callbacks;
    }
  }

  lemma RemoveHandlers(nodes: seq<Node>, home: seq<nat>, fired: seq<nat>, removed: set<nat>, n: nat, h: nat)
    requires HandlersOk(nodes, home, fired, removed) && h < |home| && home[h] == n && n < |nodes|
    requires Handler(h) in nodes[n].callbacks
    ensures HandlersOk(Removed(nodes, n, h), home, fired, removed + {h})
  {
    assert Accounted(nodes, home, fired, removed, h);
    forall g | 0 <= g < |home|
      ensures Accounted(Removed(nodes, n, h), home, fired, removed + {h}, g)
    {
      assert Accounted(nodes, home, fired, removed, g);
    }
  }

  /** A new cancellation is chained to n. */
  lemma ChainTree(nodes: seq<Node>, parent: seq<Option<nat>>, home: seq<nat>, n: nat)
    requires TreeOk(nodes, parent, home) && n < |nodes|
    ensures TreeOk(Appended(nodes, n, Chain(|nodes|)) + [Node(false, 0, [])], parent + [Some(n)], home)
  {
    var after, up, k := Appended(nodes, n, Chain(|nodes|)) + [Node(false, 0, [])], parent + [Some(n)], |nodes[n].callbacks|;
    assert after[n].callbacks[k] == Chain(|nodes|);
    assert ListOk(nodes, parent, home, n);
    forall m | 0 <= m < |after|
      ensures Linked(after, up, m) && ListOk(after, up, home, m)
    {
      if m < |nodes| {
        assert Linked(nodes, parent, m) && ListOk(nodes, parent, home, m);
        assert forall cb :: cb in nodes[m].callbacks ==> Owned(|nodes|, parent, home, m, cb);
        assert !Owned(|nodes|, parent, home, m, Chain(|nodes|));
        NoDupPush(nodes[m].callbacks, Chain(|nodes|));
        assert forall cb :: cb in nodes[m].callbacks ==> cb in after[m].callbacks;
        assert forall cb :: cb in after[m].callbacks ==> cb in nodes[m].callbacks || (m == n && cb == Chain(|nodes|));
        if parent[m].Some? {
          var p := parent[m].value;
          assert forall cb :: cb in nodes[p].callbacks ==> cb in after[p].callbacks;
        }
      }
    }
  }

  lemma ChainAppended(nodes: seq<Node>, home: seq<nat>, fired: seq<nat>, removed: set<nat>, n: nat)
    requires HandlersOk(nodes, home, fired, removed) && n < |nodes|
    ensures HandlersOk(Appended(nodes, n, Chain(|nodes|)) + [Node(false, 0, [])], home, fired, removed)
  {
    var after := Appended(nodes, n, Chain(|nodes|)) + [Node(false, 0, [])];
    forall h | 0 <= h < |home|
      ensures Accounted(after, home, fired, removed, h)
    {
      assert Accounted(nodes, home, fired, removed, h);
      assert forall cb :: cb in after[n].callbacks <==> cb in nodes[n].callbacks || cb == Chain(|nodes|);
    }
  }

  /** A new cancellation that is chained to none. */
  lemma FreshTree(nodes: seq<Node>, parent: seq<Option<nat>>, home: seq<nat>, node: Node)
    requires TreeOk(nodes, parent, home) && node.callbacks == []
    ensures TreeOk(nodes + [node], parent + [None], home)
  {
    var after, up := nodes + [node], parent + [None];
    forall m | 0 <= m < |after|
      ensures Linked(after, up, m) && ListOk(after, up, home, m)
    {
      if m < |nodes| {
        assert Linked(nodes, parent, m) && ListOk(nodes, parent, home, m);
        assert forall cb :: cb in nodes[m].callbacks ==> Owned(|nodes|, parent, home, m, cb);
      }
    }
  }

  lemma FreshHandlers(nodes: seq<Node>, home: seq<nat>, fired: seq<nat>, removed: set<nat>, node: Node)
    requires HandlersOk(nodes, home, fired, removed)
    ensures HandlersOk(nodes + [node], home, fired, removed)
  {
    forall h | 0 <= h < |home|
      ensures Accounted(nodes + [node], home, fired, removed, h)
    {
      assert Accounted(nodes, home, fired, removed, h);
    }
  }

  // ---- The order of the calls ----

  /** The handlers that draining the callbacks q of cancellation n calls: in list order, a chained
      cancellation's where it stands. */
  ghost function Calls(nodes: seq<Node>, q: seq<Cb>, n: nat): seq<nat>
    requires n <= |nodes|
    decreases |nodes| - n, |q|
  {
    if q == [] then [] else CallsOf(nodes, q[0], n) + Calls(nodes, q[1..], n)
  }

  ghost function CallsOf(nodes: seq<Node>, cb: Cb, n: nat): seq<nat>
    requires n <= |nodes|
    decreases |nodes| - n, 0
  {
    match cb
    case Handler(h) => [h]
    case Chain(c) => if n < c < |nodes| then Calls(nodes, nodes[c].callbacks, c) else []
  }

  ghost predicate Below(parent: seq<Option<nat>>, q: seq<Cb>, m: nat)
    requires Rooted(parent) && m < |parent|
  {
    exists c: nat :: Chain(c) in q && c < |parent| && Descends(parent, m, c)
  }

  /** The calls depend only on the cancellations below. */
  lemma {:induction false} CallsFrame(a: seq<Node>, b: seq<Node>, parent: seq<Option<nat>>, home: seq<nat>, q: seq<Cb>, n: nat)
    requires TreeOk(a, parent, home) && Rooted(parent) && |b| == |a| && n <= |a|
    requires forall m: nat :: m < |a| && Below(parent, q, m) ==> b[m].callbacks == a[m].callbacks
    ensures Calls(a, q, n) == Calls(b, q, n)
    decreases |a| - n, |q|
  {
    if q == [] {
    } else {
      assert q[0] in q;
      assert forall m: nat :: m < |a| && Below(parent, q[1..], m) ==> Below(parent, q, m);
      CallsFrame(a, b, parent, home, q[1..], n);
      if q[0].Chain? && n < q[0].child < |a| {
        ChildFrame(a, b, parent, home, q, q[0].child);
        CallsFrame(a, b, parent, home, a[q[0].child].callbacks, q[0].child);
      }
    }
  }

  lemma ChildFrame(a: seq<Node>, b: seq<Node>, parent: seq<Option<nat>>, home: seq<nat>, q: seq<Cb>, c: nat)
    requires TreeOk(a, parent, home) && Rooted(parent) && |b| == |a| && c < |a| && Chain(c) in q
    requires forall m: nat :: m < |a| && Below(parent, q, m) ==> b[m].callbacks == a[m].callbacks
    ensures b[c].callbacks == a[c].callbacks
    ensures forall m: nat :: m < |a| && Below(parent, a[c].callbacks, m) ==> b[m].callbacks == a[m].callbacks
  {
    assert Descends(parent, c, c) && Below(parent, q, c);
    assert ListOk(a, parent, home, c);
    forall m: nat | m < |a| && Below(parent, a[c].callbacks, m)
      ensures Below(parent, q, m)
    {
      var d: nat :| Chain(d) in a[c].callbacks && d < |parent| && Descends(parent, m, d);
      assert Owned(|a|, parent, home, c, Chain(d));
      DescendsMore(parent, m, d, c);
    }
  }

  /** Nothing descends from two cancellations chained to the same one. */
  lemma {:induction false} SiblingsApart(parent: seq<Option<nat>>, m: nat, c: nat, d: nat)
    requires Rooted(parent) && m < |parent| && c < |parent| && d < |parent| && c != d
    requires parent[c].Some? && parent[c] == parent[d] && Descends(parent, m, c)
    ensures !Descends(parent, m, d)
    decreases m
  {
    if m == c {
      if parent[m].Some? && Descends(parent, parent[m].value, d) {
        DescendsUp(parent, parent[m].value, d);
        assert false;
      }
    } else {
      if m == d {
        DescendsUp(parent, parent[m].value, c);
        assert false;
      }
      SiblingsApart(parent, parent[m].value, c, d);
    }
  }

  /** Dealing with the head of n's list leaves the calls of the rest as they were. */
  lemma RestCalls(a: seq<Node>, b: seq<Node>, parent: seq<Option<nat>>, home: seq<nat>, n: nat)
    requires TreeOk(a, parent, home) && Rooted(parent) && |b| == |a| && n < |a| && a[n].callbacks != []
    requires forall m: nat :: m < |a| && m != n && (a[n].callbacks[0].Chain? && a[n].callbacks[0].child < |a| ==> !Descends(parent, m, a[n].callbacks[0].child))
               ==> b[m].callbacks == a[m].callbacks
    ensures Calls(b, a[n].callbacks[1..], n) == Calls(a, a[n].callbacks[1..], n)
  {
    var q := a[n].callbacks;
    forall m: nat | m < |a| && Below(parent, q[1..], m)
      ensures b[m].callbacks == a[m].callbacks
    {
      RestApart(a, parent, home, n, m);
    }
    CallsFrame(a, b, parent, home, q[1..], n);
  }

  lemma RestApart(a: seq<Node>, parent: seq<Option<nat>>, home: seq<nat>, n: nat, m: nat)
    requires TreeOk(a, parent, home) && Rooted(parent) && n < |a| && a[n].callbacks != [] && m < |a|
    requires Below(parent, a[n].callbacks[1..], m)
    ensures m != n && (a[n].callbacks[0].Chain? && a[n].callbacks[0].child < |a| ==> !Descends(parent, m, a[n].callbacks[0].child))
  {
    var q := a[n].callbacks;
    assert ListOk(a, parent, home, n);
    var d: nat :| Chain(d) in q[1..] && d < |parent| && Descends(parent, m, d);
    assert q == [q[0]] + q[1..];
    assert Owned(|a|, parent, home, n, Chain(d)) && Owned(|a|, parent, home, n, q[0]);
    DescendsUp(parent, m, d);
    if q[0].Chain? {
      SiblingsApart(parent, m, d, q[0].child);
    }
  }

  class Contexts {
    var nodes: seq<Node>
    var contexts: seq<Option<nat>>      // context->cancel
    var handlers: nat
    ghost var parent: seq<Option<nat>>  // the cancellation each one was chained to
    var home: seq<nat>                  // where each handler was registered
    ghost var fired: seq<nat>           // handlers called, in order
    ghost var removed: set<nat>         // handlers unregistered before that

    ghost predicate Valid(draining: set<nat>)
      reads this
    {
      && TreeOk(nodes, parent, home)
      && HandlersOk(nodes, home, fired, removed)
      && Drained(nodes, draining)
      && handlers == |home|
      && (forall c :: 0 <= c < |contexts| && contexts[c].Some? ==> contexts[c].value < |nodes|)
    }

    /** Triggered stays triggered, a triggered cancellation gets no callback, and the records only grow. */
    twostate predicate Grows()
      reads this
    {
      && |old(nodes)| <= |nodes| && old(parent) <= parent && old(home) <= home && old(fired) <= fired
      && old(removed) <= removed && old(contexts) <= contexts
      && forall m :: 0 <= m < |old(nodes)| && old(nodes)[m].triggered ==>
           nodes[m].triggered && |nodes[m].callbacks| <= |old(nodes)[m].callbacks|
    }

    /** The background context: it cannot be cancelled. */
    constructor ()
      ensures Valid({}) && nodes == [] && contexts == [None] && fired == []
    {
      nodes, contexts, handlers := [], [None], 0;
      parent, home, fired, removed := [], [], [], {};
    }

    predicate IsCancelled(context: nat)
      requires context < |contexts| && (contexts[context].Some? ==> contexts[context].value < |nodes|)
      reads this
    {
      contexts[context].Some? && nodes[contexts[context].value].triggered
    }

    /** No cancellation was triggered and no handler called. */
    twostate predicate NoneMarked()
      reads this
    {
      && fired == old(fired) && |old(nodes)| <= |nodes|
      && forall m :: 0 <= m < |old(nodes)| ==> nodes[m].triggered == old(nodes)[m].triggered && nodes[m].error == old(nodes)[m].error
    }

    // ---- Deriving contexts ----

    /** Context::with and withIsolatedOutput: the new context is cancelled with the old one. */
    method With(context: nat) returns (c: nat)
      requires context < |contexts|
      modifies this`contexts
      ensures contexts == old(contexts) + [old(contexts)[context]] && c == |old(contexts)|
    {
      c := |contexts|;
      contexts := contexts + [contexts[context]];
    }

    /** Context::shield: the new context has no cancellation at all. */
    method Shield(context: nat) returns (c: nat)
      requires context < |contexts|
      modifies this`contexts
      ensures contexts == old(contexts) + [None] && c == |old(contexts)|
    {
      c := |contexts|;
      contexts := contexts + [None];
    }

    // ---- Triggering ----

    /** The flag and the error of cancellation n are set. */
    method Mark(n: nat, error: int, ghost draining: set<nat>)
      requires Valid(draining) && n < |nodes|
      modifies this`nodes
      ensures Valid(draining + {n}) && Grows()
      ensures nodes == old(nodes)[n := Node(true, error, old(nodes)[n].callbacks)]
    {
      MarkTree(nodes, parent, home, n, error);
      MarkHandlers(nodes, home, fired, removed, n, error);
      nodes := nodes[n := Node(true, error, nodes[n].callbacks)];
    }

    /** The handler at the head of n's list is taken off and called. */
    method TakeHandler(n: nat, ghost draining: set<nat>)
      requires Valid(draining) && n < |nodes| && nodes[n].triggered && nodes[n].callbacks != [] && nodes[n].callbacks[0].Handler?
      modifies this`nodes, this`fired
      ensures Valid(draining) && Grows()
      ensures nodes == Extracted(old(nodes), n) && fired == old(fired) + [old(nodes)[n].callbacks[0].id]
      ensures old(nodes)[n].callbacks[0].id < |home| && home[old(nodes)[n].callbacks[0].id] == n
    {
      assert ListOk(nodes, parent, home, n);
      assert Owned(|nodes|, parent, home, n, nodes[n].callbacks[0]);
      ExtractTree(nodes, parent, home, n);
      FireHandlers(nodes, parent, home, fired, removed, n, nodes[n].callbacks[0].id);
      fired := fired + [nodes[n].callbacks[0].id];
      nodes := Extracted(nodes, n);
    }

    /** The chained cancellation at the head of n's list is taken off and marked (chain_cancellation up
        to its loop). It is marked again if it was triggered before. */
    method TakeChain(n: nat, error: int, ghost draining: set<nat>) returns (c: nat)
      requires Valid(draining) && n < |nodes| && nodes[n].triggered && nodes[n].callbacks != [] && nodes[n].callbacks[0].Chain?
      modifies this`nodes
      ensures Valid(draining + {c}) && Grows()
      ensures c == old(nodes)[n].callbacks[0].child && c < |nodes| && parent[c] == Some(n) && n < c
      ensures nodes == Extracted(old(nodes), n)[c := Node(true, error, old(nodes)[c].callbacks)]
    {
      c := nodes[n].callbacks[0].child;
      assert ListOk(nodes, parent, home, n);
      assert Owned(|nodes|, parent, home, n, nodes[n].callbacks[0]);
      assert Linked(nodes, parent, c);
      ExtractTree(nodes, parent, home, n);
      ChainHandlers(nodes, home, fired, removed, n);
      var taken := Extracted(nodes, n);
      MarkHandlers(taken, home, fired, removed, c, error);
      Relinked(taken, parent, home, c, error);
      nodes := taken[c := Node(true, error, taken[c].callbacks)];
    }

    static lemma Relinked(nodes: seq<Node>, parent: seq<Option<nat>>, home: seq<nat>, c: nat, error: int)
      requires |nodes| == |parent| && c < |nodes|
      requires parent[c].Some? ==> parent[c].value < c && nodes[parent[c].value].triggered
      requires forall m :: 0 <= m < |nodes| && m != c ==> Linked(nodes, parent, m)
      requires forall p :: 0 <= p < |nodes| ==> ListOk(nodes, parent, home, p)
      ensures TreeOk(nodes[c := Node(true, error, nodes[c].callbacks)], parent, home)
    {
      var after := nodes[c := Node(true, error, nodes[c].callbacks)];
      forall m | 0 <= m < |after|
        ensures Linked(after, parent, m) && ListOk(after, parent, home, m)
      {
        assert ListOk(nodes, parent, home, m);
        assert m != c ==> Linked(nodes, parent, m);
      }
    }

    /** Nothing but the drain of n happened. */
    twostate predicate Quiet(n: nat, error: int)
      reads this
    {
      && parent == old(parent) && home == old(home) && removed == old(removed) && contexts == old(contexts)
      && SweptAll(old(nodes), nodes, parent, n, error)
      && |old(nodes)| == |nodes| && n < |nodes|
      && fired == old(fired) + Calls(old(nodes), old(nodes)[n].callbacks, n)
    }

    /** Whatever happened, the script asked for it. */
    twostate predicate Caused(script: seq<Act>)
      reads this
    {
      CausedBy(old(nodes), nodes, parent, home, (old(fired), fired), (old(removed), removed), script)
    }

    /** The loop over cancel->callbacks, for the triggered cancellation and, through chain_cancellation,
        for the ones chained to it. */
    method Drain(n: nat, error: int, script: seq<Act>, ghost draining: set<nat>) returns (rest: seq<Act>)
      requires Valid(draining + {n}) && n < |nodes| && nodes[n].triggered && nodes[n].error == error
      modifies this
      decreases |script|, 1, |nodes| - n, 2
      ensures Valid(draining) && Grows() && nodes[n].callbacks == []
      ensures Caused([AskCancel(n, error)] + script) && Within(rest, script)
      ensures |rest| == |script| ==> |nodes| == |old(nodes)|
      ensures script == [] ==> Quiet(n, error)
    {
      rest := script;
      RootedTree(nodes, parent, home);
      ghost var roots := [AskCancel(n, error)] + script;
      while nodes[n].callbacks != []
        invariant Valid(draining + {n}) && Grows() && n < |nodes| && nodes[n].triggered
        invariant Caused(roots) && Within(rest, script)
        invariant |rest| == |script| ==> |nodes| == |old(nodes)|
        invariant script == [] ==> Sweeping(n, error)
        invariant script == [] ==> fired + Calls(nodes, nodes[n].callbacks, n) == old(fired) + Calls(old(nodes), old(nodes)[n].callbacks, n)
        decreases |rest|, |nodes[n].callbacks|
      {
        ghost var mid, up, at, called, gone, left := nodes, parent, home, fired, removed, rest;
        rest := DrainOne(n, error, rest, draining);
        CausedThen(old(nodes), mid, nodes, up, parent, at, home, old(fired), called, fired, old(removed), gone, removed,
                   roots, [AskCancel(n, error)] + left, roots);
        if script == [] {
          SweptTwice(old(nodes), mid, nodes, parent, n, error);
          Regroup(called, CallsOf(mid, mid[n].callbacks[0], n), Calls(nodes, nodes[n].callbacks, n));
        }
      }
      if script == [] {
        SweptOut(old(nodes), nodes, parent, n, error);
      }
    }

    /** Within the drain of n. */
    twostate predicate Sweeping(n: nat, error: int)
      reads this
    {
      && parent == old(parent) && home == old(home) && removed == old(removed) && contexts == old(contexts)
      && Swept(old(nodes), nodes, parent, n, error)
    }

    /** One turn of it: the callback is off the list before it is called. */
    method DrainOne(n: nat, error: int, script: seq<Act>, ghost draining: set<nat>) returns (rest: seq<Act>)
      requires Valid(draining + {n}) && n < |nodes| && nodes[n].triggered && nodes[n].callbacks != []
      modifies this
      decreases |script|, 1, |nodes| - n, 1
      ensures Valid(draining + {n}) && Grows() && |nodes[n].callbacks| < |old(nodes)[n].callbacks|
      ensures Caused([AskCancel(n, error)] + script) && Within(rest, script)
      ensures |rest| == |script| ==> |nodes| == |old(nodes)|
      ensures script == [] ==> Sweeping(n, error) && Called(n)
    {
      RootedTree(nodes, parent, home);
      if nodes[n].callbacks[0].Handler? {
        rest := DrainHandler(n, error, script, draining);
      } else {
        rest := DrainChain(n, error, script, draining);
      }
    }

    /** The head of n's list was called, and the rest of the list will be. */
    twostate predicate Called(n: nat)
      requires n < |old(nodes)| && old(nodes)[n].callbacks != []
      reads this
    {
      && |old(nodes)| == |nodes| && nodes[n].callbacks == old(nodes)[n].callbacks[1..]
      && fired == old(fired) + CallsOf(old(nodes), old(nodes)[n].callbacks[0], n)
      && Calls(nodes, nodes[n].callbacks, n) == Calls(old(nodes), old(nodes)[n].callbacks[1..], n)
    }

    /** The callback is a handler. */
    method DrainHandler(n: nat, error: int, script: seq<Act>, ghost draining: set<nat>) returns (rest: seq<Act>)
      requires Valid(draining + {n}) && n < |nodes| && nodes[n].triggered && nodes[n].callbacks != [] && nodes[n].callbacks[0].Handler?
      modifies this
      decreases |script|, 1, |nodes| - n, 0
      ensures Valid(draining + {n}) && Grows() && |nodes[n].callbacks| < |old(nodes)[n].callbacks|
      ensures Caused([AskCancel(n, error)] + script) && Within(rest, script)
      ensures |rest| == |script| ==> |nodes| == |old(nodes)|
      ensures script == [] ==> Sweeping(n, error) && Called(n)
    {
      RootedTree(nodes, parent, home);
      HandlerSwept(nodes, parent, home, n, error);
      RestCalls(nodes, Extracted(nodes, n), parent, home, n);
      TakeHandler(n, draining + {n});
      HandlerCaused(old(nodes), nodes, parent, home, old(fired), removed, n, error);
      ghost var mid, up, at, called, gone := nodes, parent, home, fired, removed;
      rest := Others(script, draining + {n});
      CausedThen(old(nodes), mid, nodes, up, parent, at, home, old(fired), called, fired, old(removed), gone, removed,
                 [AskCancel(n, error)], script, [AskCancel(n, error)] + script);
    }

    static lemma HandlerSwept(a: seq<Node>, parent: seq<Option<nat>>, home: seq<nat>, n: nat, error: int)
      requires TreeOk(a, parent, home) && Rooted(parent) && n < |a| && a[n].callbacks != [] && a[n].callbacks[0].Handler?
      ensures Swept(a, Extracted(a, n), parent, n, error)
    {
      assert ListOk(a, parent, home, n);
      forall m: nat | m < |a|
        ensures InTree(a, parent, m, n) <==> InTree(Extracted(a, n), parent, m, n)
      {
        HandlerTurn(a, parent, m, n);
      }
    }

    static lemma HandlerCaused(a: seq<Node>, b: seq<Node>, parent: seq<Option<nat>>, home: seq<nat>, fired: seq<nat>, removed: set<nat>, n: nat, error: int)
      requires Rooted(parent) && |a| == |parent| && n < |a| && a[n].callbacks != [] && a[n].callbacks[0].Handler?
      requires b == Extracted(a, n) && a[n].callbacks[0].id < |home| && home[a[n].callbacks[0].id] == n
      ensures CausedBy(a, b, parent, home, (fired, fired + [a[n].callbacks[0].id]), (removed, removed), [AskCancel(n, error)])
    {
      assert AskCancel(n, error) in [AskCancel(n, error)] && Descends(parent, n, n);
    }

    /** The callback is chain_cancellation. */
    method DrainChain(n: nat, error: int, script: seq<Act>, ghost draining: set<nat>) returns (rest: seq<Act>)
      requires Valid(draining + {n}) && n < |nodes| && nodes[n].triggered && nodes[n].callbacks != [] && nodes[n].callbacks[0].Chain?
      modifies this
      decreases |script|, 1, |nodes| - n, 0
      ensures Valid(draining + {n}) && Grows() && |nodes[n].callbacks| < |old(nodes)[n].callbacks|
      ensures Caused([AskCancel(n, error)] + script) && Within(rest, script)
      ensures |rest| == |script| ==> |nodes| == |old(nodes)|
      ensures script == [] ==> Sweeping(n, error) && Called(n)
    {
      RootedTree(nodes, parent, home);
      assert ListOk(nodes, parent, home, n);
      var c := TakeChain(n, error, draining + {n});
      ChainCaused(old(nodes), nodes, parent, home, fired, removed, n, c, error);
      SameCalls(old(nodes), nodes, parent, home, n, c);
      ghost var mid, up, at := nodes, parent, home;
      rest := Drain(c, error, script, draining + {n});
      CausedUp(mid, nodes, parent, home, (old(fired), fired), (old(removed), removed), n, c, error, script);
      CausedThen(old(nodes), mid, nodes, up, parent, at, home, old(fired), old(fired), fired, old(removed), old(removed), removed,
                 [AskCancel(n, error)], [AskCancel(n, error)] + script, [AskCancel(n, error)] + script);
      if script == [] {
        ChainDone(old(nodes), mid, nodes, parent, home, n, c, error);
      }
    }

    static lemma ChainCaused(a: seq<Node>, b: seq<Node>, parent: seq<Option<nat>>, home: seq<nat>, fired: seq<nat>, removed: set<nat>, n: nat, c: nat, error: int)
      requires Rooted(parent) && |a| == |parent| && n < |a| && a[n].callbacks != [] && c < |a| && parent[c] == Some(n)
      requires b == Extracted(a, n)[c := Node(true, error, a[c].callbacks)]
      ensures CausedBy(a, b, parent, home, (fired, fired), (removed, removed), [AskCancel(n, error)])
    {
      assert AskCancel(n, error) in [AskCancel(n, error)] && Descends(parent, c, n);
    }

    /** Taking c off and draining it is one turn of the drain of n. */
    static lemma ChainDone(a: seq<Node>, mid: seq<Node>, b: seq<Node>, parent: seq<Option<nat>>, home: seq<nat>, n: nat, c: nat, error: int)
      requires TreeOk(a, parent, home) && n < c < |a| && parent[c] == Some(n) && a[n].callbacks != [] && a[n].callbacks[0] == Chain(c)
      requires mid == Extracted(a, n)[c := Node(true, error, a[c].callbacks)] && SweptAll(mid, b, parent, c, error)
      ensures Swept(a, b, parent, n, error) && b[n].callbacks == a[n].callbacks[1..]
      ensures Calls(b, b[n].callbacks, n) == Calls(a, a[n].callbacks[1..], n)
    {
      assert ListOk(a, parent, home, n);
      forall m: nat | m < |a|
        ensures InTree(mid, parent, m, c) <==> InTree(a, parent, m, c)
        ensures InTree(a, parent, m, c) ==> Descends(parent, m, c) && c <= m
      {
        InTreeAbove(a, mid, parent, m, c, n);
        if InTree(a, parent, m, c) { InTreeDescends(a, parent, m, c); }
      }
      ChainSwept(a, b, parent, n, c, error);
      RestCalls(a, b, parent, home, n);
    }

    /** Taking c off n's list and marking it leaves the calls of c as they were. */
    static lemma SameCalls(a: seq<Node>, b: seq<Node>, parent: seq<Option<nat>>, home: seq<nat>, n: nat, c: nat)
      requires TreeOk(a, parent, home) && Rooted(parent) && |b| == |a| && n < c < |a|
      requires forall m: nat :: m < |a| && m != n ==> b[m].callbacks == a[m].callbacks
      ensures Calls(b, b[c].callbacks, c) == Calls(a, a[c].callbacks, c)
    {
      assert ListOk(a, parent, home, c);
      forall m: nat | m < |a| && Below(parent, a[c].callbacks, m)
        ensures b[m].callbacks == a[m].callbacks
      {
        var d: nat :| Chain(d) in a[c].callbacks && d < |parent| && Descends(parent, m, d);
        assert Owned(|a|, parent, home, c, Chain(d));
        DescendsUp(parent, m, d);
      }
      CallsFrame(a, b, parent, home, a[c].callbacks, c);
    }

    /** CancellationHandler::__invoke and timed_out (src/context.c:150-174, 633-669). */
    method Trigger(n: nat, error: int, script: seq<Act>, ghost draining: set<nat>) returns (rest: seq<Act>)
      requires Valid(draining) && n < |nodes|
      modifies this
      decreases |script|, 2, 0, 0
      ensures Valid(draining) && Grows() && nodes[n].triggered
      ensures Caused([AskCancel(n, error)] + script) && Within(rest, script)
      ensures old(nodes)[n].triggered ==> unchanged(this) && rest == script
      ensures script == [] && !old(nodes)[n].triggered ==> Quiet(n, error)
    {
      rest := script;
      RootedTree(nodes, parent, home);
      if nodes[n].triggered {
        return;
      }
      Mark(n, error, draining);
      MarkCaused(old(nodes), parent, home, fired, removed, n, error);
      ghost var mid, up, at := nodes, parent, home;
      CallsFrame(old(nodes), mid, parent, home, mid[n].callbacks, n);
      rest := Drain(n, error, script, draining);
      CausedThen(old(nodes), mid, nodes, up, parent, at, home, old(fired), old(fired), fired, old(removed), old(removed), removed,
                 [AskCancel(n, error)], [AskCancel(n, error)] + script, [AskCancel(n, error)] + script);
      if script == [] {
        MarkSwept(old(nodes), mid, nodes, parent, n, error);
      }
    }

    static lemma MarkCaused(a: seq<Node>, parent: seq<Option<nat>>, home: seq<nat>, fired: seq<nat>, removed: set<nat>, n: nat, error: int)
      requires Rooted(parent) && |a| == |parent| && n < |a|
      ensures CausedBy(a, a[n := Node(true, error, a[n].callbacks)], parent, home, (fired, fired), (removed, removed), [AskCancel(n, error)])
    {
      assert AskCancel(n, error) in [AskCancel(n, error)] && Descends(parent, n, n);
    }

    /** Marking n before its drain is part of what the drain does to n. */
    static lemma MarkSwept(a: seq<Node>, mid: seq<Node>, b: seq<Node>, parent: seq<Option<nat>>, n: nat, error: int)
      requires n < |a| && mid == a[n := Node(true, error, a[n].callbacks)] && SweptAll(mid, b, parent, n, error)
      ensures SweptAll(a, b, parent, n, error)
    {
      forall m: nat | m < |a|
        ensures InTree(a, parent, m, n) <==> InTree(mid, parent, m, n)
      {
        SameLists(a, mid, parent, m, n);
      }
    }

    static lemma {:induction false} SameLists(a: seq<Node>, b: seq<Node>, parent: seq<Option<nat>>, m: nat, n: nat)
      requires Rooted(parent) && m < |parent| == |a| == |b| && forall k: nat :: k < |a| ==> b[k].callbacks == a[k].callbacks
      ensures InTree(a, parent, m, n) <==> InTree(b, parent, m, n)
      decreases m
    {
      if m == n {
      } else if parent[m].Some? {
        SameLists(a, b, parent, parent[m].value, n);
      }
    }

    // ---- Other tasks ----

    /** Tasks that run behind a handler, before control returns to the drain. */
    method Others(script: seq<Act>, ghost draining: set<nat>) returns (rest: seq<Act>)
      requires Valid(draining)
      modifies this
      decreases |script|, 0, 0, 0
      ensures Valid(draining) && Grows() && Caused(script) && Within(rest, script)
      ensures if script == [] then rest == [] && unchanged(this) else |rest| < |script|
    {
      rest := script;
      RootedTree(nodes, parent, home);
      while rest != [] && !rest[0].Back?
        invariant Valid(draining) && Grows() && Caused(script) && Within(rest, script)
        invariant script == [] ==> unchanged(this)
        decreases |rest|
      {
        ghost var mid, up, at, called, gone, left := nodes, parent, home, fired, removed, rest;
        rest := Do(rest[0], rest[1..], draining);
        CausedThen(old(nodes), mid, nodes, up, parent, at, home, old(fired), called, fired, old(removed), gone, removed,
                   script, [left[0]] + left[1..], script);
      }
      if rest != [] {
        rest := rest[1..];
      }
    }

    method Do(act: Act, script: seq<Act>, ghost draining: set<nat>) returns (rest: seq<Act>)
      requires Valid(draining)
      modifies this
      decreases |script|, 3, 0, 0
      ensures Valid(draining) && Grows() && Caused([act] + script) && Within(rest, script)
    {
      rest := script;
      RootedTree(nodes, parent, home);
      match act
      case AskCancel(n, error) =>
        if n < |nodes| { rest := Trigger(n, error, script, draining); }
      case AskRegister(c) =>
        if c < |contexts| { var _ := Register(c, draining); }
      case AskUnregister(h) =>
        Unregister(h, draining);
      case AskWithCancel(c) =>
        if c < |contexts| { var _, _ := WithCancel(c, draining); }
      case AskWith(c) =>
        if c < |contexts| { var _ := With(c); }
      case AskShield(c) =>
        if c < |contexts| { var _ := Shield(c); }
      case Back =>
    }

    /** A handler is put into the list of the context's cancellation, unless there is none or it has been
        triggered (src/task.c:682-690, src/deferred.c:636-646). */
    method Register(context: nat, ghost draining: set<nat>) returns (handler: Option<nat>)
      requires Valid(draining) && context < |contexts|
      modifies this`nodes, this`handlers, this`home
      ensures Valid(draining) && Grows() && NoneMarked() && contexts == old(contexts)
      ensures handler.None? <==> old(contexts[context].None? || IsCancelled(context))
      ensures handler.None? ==> nodes == old(nodes) && home == old(home)
      ensures handler.Some? ==>
                && handler == Some(|old(home)|) && home == old(home) + [old(contexts)[context].value]
                && Handler(handler.value) in nodes[old(contexts)[context].value].callbacks
                && LastIn(old(nodes), nodes, old(contexts)[context].value, Handler(handler.value))
    {
      if contexts[context].None? || nodes[contexts[context].value].triggered {
        return None;
      }
      var n, h := contexts[context].value, handlers;
      AppendTree(nodes, parent, home, n);
      AppendHandlers(nodes, parent, home, fired, removed, n);
      nodes := Appended(nodes, n, Handler(h));
      home := home + [n];
      handlers := handlers + 1;
      assert nodes[n].callbacks[|old(nodes)[n].callbacks|] == Handler(h);
      return Some(h);
    }

    /** The operation a handler belongs to has ended (src/task.c:748-753): if the handler is still in a
        list it is taken out. */
    method Unregister(h: nat, ghost draining: set<nat>)
      requires Valid(draining)
      modifies this`nodes, this`removed
      ensures Valid(draining) && Grows() && NoneMarked()
      ensures removed == old(removed) + (if h < |home| && h !in fired then {h} else {})
      ensures |nodes| == |old(nodes)| && forall m :: 0 <= m < |nodes| ==>
                nodes[m] == Node(old(nodes)[m].triggered, old(nodes)[m].error,
                                 if h < |home| && m == home[h] then Without(old(nodes)[m].callbacks, Handler(h)) else old(nodes)[m].callbacks)
    {
      if h >= |home| {
        return;
      }
      var n := home[h];
      assert Accounted(nodes, home, fired, removed, h) && ListOk(nodes, parent, home, n);
      if Handler(h) in nodes[n].callbacks {
        RemoveTree(nodes, parent, home, n, h);
        RemoveHandlers(nodes, home, fired, removed, n, h);
        nodes := Removed(nodes, n, h);
        removed := removed + {h};
      }
      assert h !in fired ==> h in removed;
    }

    /** create_cancellable_context, for withCancel and withTimeout: a new cancellation, chained to the one
        of the parent, or triggered from the start if that one is. */
    method WithCancel(context: nat, ghost draining: set<nat>) returns (c: nat, n: nat)
      requires Valid(draining) && context < |contexts|
      modifies this`nodes, this`parent, this`contexts
      ensures Valid(draining) && Grows() && NoneMarked()
      ensures n == |old(nodes)| && |nodes| == n + 1 && c == |old(contexts)| && contexts == old(contexts) + [Some(n)]
      ensures IsCancelled(c) == old(IsCancelled(context))
      ensures var from := old(contexts)[context];
              && parent == old(parent) + [if from.Some? && !old(nodes)[from.value].triggered then from else None]
              && (from.Some? && old(nodes)[from.value].triggered ==> nodes[n].error == old(nodes)[from.value].error)
              && nodes[n].callbacks == []
              && if from.Some? && !old(nodes)[from.value].triggered then LastIn(old(nodes), nodes, from.value, Chain(n)) && !nodes[n].triggered
                 else nodes[..n] == old(nodes)
    {
      var from := contexts[context];
      n, c := |nodes|, |contexts|;
      contexts := contexts + [Some(n)];
      if from.Some? && !nodes[from.value].triggered {
        ChainTree(nodes, parent, home, from.value);
        ChainAppended(nodes, home, fired, removed, from.value);
        nodes := Appended(nodes, from.value, Chain(n)) + [Node(false, 0, [])];
        parent := parent + [from];
      } else {
        var node := if from.Some? then Node(true, nodes[from.value].error, []) else Node(false, 0, []);
        FreshTree(nodes, parent, home, node);
        FreshHandlers(nodes, home, fired, removed, node);
        nodes := nodes + [node];
        parent := parent + [None];
      }
    }

    // ---- The whole cancellation ----

    /** Whatever the handlers and the tasks behind them do: when the cancellation of n is over, n and all
        that descended from it are triggered, no callback is left in any of them, and each handler
        registered there has fired, once, unless a task unregistered it. Nothing else is triggered or
        called but what some task cancelled. With handlers that do nothing, the cancellations
        that end up with the new error are exactly those below n that no cancellation in between
        has cut off by being triggered before, and the handlers are called in the order of the
        lists. */
    method Cancel(n: nat, error: int, script: seq<Act>) returns (rest: seq<Act>)
      requires Valid({}) && n < |nodes| && !nodes[n].triggered
      modifies this
      ensures Valid({}) && Grows() && Rooted(parent) && Rooted(old(parent)) && |old(nodes)| == |old(parent)| && |nodes| == |parent|
      ensures forall m: nat :: m < |old(nodes)| && Descends(old(parent), m, n) ==> nodes[m].triggered && nodes[m].callbacks == []
      ensures forall m: nat :: m < |old(nodes)| && nodes[m].triggered && !old(nodes)[m].triggered ==>
                Descends(parent, m, n) || Asked(parent, m, script)
      ensures NoDup(fired)
      ensures forall h: nat :: h < |old(home)| && old(home)[h] < |old(nodes)| && Descends(old(parent), old(home)[h], n) ==>
                h in fired || h in old(removed) || AskUnregister(h) in script
      ensures forall h: nat :: h in fired && h !in old(fired) ==>
                h < |home| && home[h] < |parent| && (Descends(parent, home[h], n) || Asked(parent, home[h], script))
      ensures forall h: nat :: h in removed && h !in old(removed) ==> AskUnregister(h) in script
      ensures forall c: nat :: c < |old(contexts)| && old(contexts)[c].None? ==> contexts[c].None?
      ensures script == [] ==> Quiet(n, error)
      ensures script == [] ==> forall m: nat :: m < |nodes| ==>
                nodes[m] == if Open(old(nodes), parent, m, n) then Node(true, error, []) else old(nodes)[m]
      ensures script == [] ==> forall m: nat :: m < |nodes| ==>
                (nodes[m].triggered <==> old(nodes)[m].triggered || Descends(parent, m, n))
      ensures script == [] ==> forall h: nat :: h < |home| && home[h] < |parent| ==>
                (h in fired <==> h in old(fired) || (h !in removed && Descends(parent, home[h], n)))
    {
      RootedTree(nodes, parent, home);
      ghost var up, count := parent, |nodes|;
      forall m: nat | m < count
        ensures InTree(nodes, parent, m, n) <==> Open(nodes, parent, m, n)
        ensures InTree(nodes, parent, m, n) ==> Descends(parent, m, n)
      {
        InTreeIff(nodes, parent, home, m, n);
        if InTree(nodes, parent, m, n) { InTreeDescends(nodes, parent, m, n); }
      }
      rest := Trigger(n, error, script, {});
      AskedOrBelow(parent, n, error, script);
      Covered(up, count, n);
    }

    static lemma AskedOrBelow(parent: seq<Option<nat>>, n: nat, error: int, script: seq<Act>)
      requires Rooted(parent)
      ensures forall m: nat :: m < |parent| && Asked(parent, m, [AskCancel(n, error)] + script) ==> Descends(parent, m, n) || Asked(parent, m, script)
      ensures forall h: nat :: AskUnregister(h) in [AskCancel(n, error)] + script ==> AskUnregister(h) in script
    {
      forall m: nat | m < |parent| && Asked(parent, m, [AskCancel(n, error)] + script)
        ensures Descends(parent, m, n) || Asked(parent, m, script)
      {
        var k, e :| AskCancel(k, e) in [AskCancel(n, error)] + script && Descends(parent, m, k);
        assert AskCancel(k, e) == AskCancel(n, error) || AskCancel(k, e) in script;
      }
    }

    /** What descended from a triggered cancellation is triggered and drained. */
    lemma Covered(up: seq<Option<nat>>, count: nat, n: nat)
      requires Valid({}) && Rooted(up) && |up| == count && up <= parent && n < count && nodes[n].triggered
      ensures Rooted(parent) && count <= |nodes| && |nodes| == |parent|
      ensures forall m: nat :: m < count && Descends(up, m, n) ==> nodes[m].triggered && nodes[m].callbacks == []
      ensures forall m: nat :: m < |nodes| && Descends(parent, m, n) ==> nodes[m].triggered
      ensures forall h: nat :: h < |home| && home[h] < count && Descends(up, home[h], n) ==> h in fired || h in removed
      ensures forall h: nat :: h < |home| ==> !(h in fired && h in removed)
    {
      RootedTree(nodes, parent, home);
      forall m: nat | m < |nodes| && Descends(parent, m, n)
        ensures nodes[m].triggered
      {
        TriggeredDown(nodes, parent, home, m, n);
      }
      forall m: nat | m < count && Descends(up, m, n)
        ensures nodes[m].triggered && nodes[m].callbacks == []
      {
        DescendsPrefix(up, parent, m, n);
      }
      forall h: nat | h < |home| && home[h] < count && Descends(up, home[h], n)
        ensures h in fired || h in removed
      {
        assert Accounted(nodes, home, fired, removed, h);
      }
      forall h: nat | h < |home|
        ensures !(h in fired && h in removed)
      {
        assert Accounted(nodes, home, fired, removed, h);
      }
    }

    /** Three contexts, each derived from the one before. */
    static method Derived() returns (t: Contexts)
      ensures fresh(t) && t.Valid({}) && t.parent == [None, Some(0), Some(1)] && |t.nodes| == 3
      ensures forall k :: 0 <= k < 3 ==> !t.nodes[k].triggered
    {
      t := new Contexts();
      var a, _ := t.WithCancel(0, {});
      var b, _ := t.WithCancel(a, {});
      var _, _ := t.WithCancel(b, {});
    }

    /** A cancellation that was triggered on its own ends up with the error of the later one; what hangs
        on it keeps the first. */
    static method ErrorIsReplaced() returns (t: Contexts)
      ensures fresh(t) && |t.nodes| == 3
      ensures forall k :: 0 <= k < 3 ==> t.nodes[k].triggered
      ensures t.nodes[0].error == 2 && t.nodes[1].error == 2 && t.nodes[2].error == 1
    {
      t := Derived();
      assert Open(t.nodes, t.parent, 1, 1) && Open(t.nodes, t.parent, 2, 1) && !Open(t.nodes, t.parent, 0, 1);
      var _ := t.Cancel(1, 1, []);
      assert Open(t.nodes, t.parent, 0, 0) && Open(t.nodes, t.parent, 1, 0) && !Open(t.nodes, t.parent, 2, 0);
      var _ := t.Cancel(0, 2, []);
    }
  }
}
