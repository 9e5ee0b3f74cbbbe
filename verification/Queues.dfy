/** Vocabulary shared by the models: optional values, and queues whose entries carry tickets.
    A ticket stands for the address of the operation that was queued: it is never reused. */
module Queues {
  datatype Option<+T> = None | Some(value: T) {
    function GetOr(default: T): T {
      if Some? then value else default
    }
  }

  /** One entry of a waiting queue. */
  datatype Entry<+T> = Entry(ticket: nat, item: T)

  predicate NoDup<T(==)>(s: seq<T>) {
    forall i, j :: 0 <= i < j < |s| ==> s[i] != s[j]
  }

  /** s without x, in order. */
  function Without<T(==)>(s: seq<T>, x: T): (r: seq<T>)
    ensures |r| <= |s|
    ensures x !in s ==> r == s
    ensures x in s ==> |r| < |s|
    ensures x !in r
    ensures forall y :: y in r ==> y in s
    ensures forall y :: y in s && y != x ==> y in r
  {
    if s == [] then [] else if s[0] == x then Without(s[1..], x) else [s[0]] + Without(s[1..], x)
  }

  lemma {:induction false} WithoutNoDup<T>(s: seq<T>, x: T)
    requires NoDup(s)
    ensures NoDup(Without(s, x))
  {
    if s == [] {
    } else {
      WithoutNoDup(s[1..], x);
      var rest := Without(s[1..], x);
      forall k | 0 <= k < |rest|
        ensures rest[k] != s[0]
      {
        assert rest[k] in s[1..];
      }
    }
  }

  /** s without the elements of gone, in order. */
  function Keep<T(==)>(s: seq<T>, gone: set<T>): seq<T> {
    if s == [] then [] else if s[0] in gone then Keep(s[1..], gone) else [s[0]] + Keep(s[1..], gone)
  }

  lemma {:induction false} KeepMembers<T>(s: seq<T>, gone: set<T>, x: T)
    ensures x in Keep(s, gone) <==> x in s && x !in gone
  {
    if s == [] {
    } else {
      assert s == [s[0]] + s[1..];
      KeepMembers(s[1..], gone, x);
    }
  }

  lemma {:induction false} KeepNoDup<T>(s: seq<T>, gone: set<T>)
    requires NoDup(s)
    ensures NoDup(Keep(s, gone))
  {
    if s == [] {
    } else {
      KeepNoDup(s[1..], gone);
      var rest := Keep(s[1..], gone);
      forall k | 0 <= k < |rest|
        ensures rest[k] != s[0]
      {
        KeepMembers(s[1..], gone, rest[k]);
      }
    }
  }

  lemma {:induction false} KeepAppend<T>(a: seq<T>, b: seq<T>, gone: set<T>)
    ensures Keep(a + b, gone) == Keep(a, gone) + Keep(b, gone)
  {
    if a == [] {
      assert a + b == b;
    } else {
      assert (a + b)[1..] == a[1..] + b;
      KeepAppend(a[1..], b, gone);
    }
  }

  lemma {:induction false} KeepTwice<T>(s: seq<T>, g: set<T>, h: set<T>)
    ensures Keep(Keep(s, g), h) == Keep(s, g + h)
  {
    if s == [] {
    } else {
      KeepTwice(s[1..], g, h);
      if s[0] !in g {
        assert ([s[0]] + Keep(s[1..], g))[1..] == Keep(s[1..], g);
      }
    }
  }

  lemma {:induction false} KeepAll<T>(s: seq<T>, gone: set<T>)
    requires forall x :: x in s ==> x !in gone
    ensures Keep(s, gone) == s
  {
    if s == [] {
    } else {
      KeepAll(s[1..], gone);
    }
  }

  lemma {:induction false} KeepLess<T>(s: seq<T>, e: T)
    ensures |Keep(s, {e})| <= |s| && (e in s ==> |Keep(s, {e})| < |s|)
  {
    if s == [] {
    } else {
      KeepLess(s[1..], e);
    }
  }

  lemma Regroup<T>(a: seq<T>, b: seq<T>, c: seq<T>)
    ensures (a + b) + c == a + (b + c)
  {
  }

  /** What is left of a script. */
  predicate Within<T(==)>(rest: seq<T>, script: seq<T>) {
    |rest| <= |script| && forall a :: a in rest ==> a in script
  }

  /** The entries of s that are still live, in order: the ones whose ticket is not in gone. */
  function Live<T>(s: seq<Entry<T>>, gone: set<nat>): seq<Entry<T>> {
    if s == [] then []
    else if s[0].ticket in gone then Live(s[1..], gone)
    else [s[0]] + Live(s[1..], gone)
  }

  /** A log that hands out tickets in order. */
  predicate Ticketed<T>(log: seq<Entry<T>>) {
    forall i :: 0 <= i < |log| ==> log[i].ticket == i
  }

  predicate Ascending<T>(s: seq<Entry<T>>) {
    forall i, j :: 0 <= i < j < |s| ==> s[i].ticket < s[j].ticket
  }

  predicate Has<T>(s: seq<Entry<T>>, ticket: nat) {
    exists i :: 0 <= i < |s| && s[i].ticket == ticket
  }

  lemma {:induction false} LiveAppend<T>(a: seq<Entry<T>>, b: seq<Entry<T>>, gone: set<nat>)
    ensures Live(a + b, gone) == Live(a, gone) + Live(b, gone)
  {
    if a == [] {
      assert a + b == b;
    } else {
      assert (a + b)[1..] == a[1..] + b;
      LiveAppend(a[1..], b, gone);
    }
  }

  lemma {:induction false} LiveTwice<T>(s: seq<Entry<T>>, g: set<nat>, h: set<nat>)
    ensures Live(Live(s, g), h) == Live(s, g + h)
  {
    if s == [] {
    } else {
      LiveTwice(s[1..], g, h);
      if s[0].ticket !in g {
        assert ([s[0]] + Live(s[1..], g))[1..] == Live(s[1..], g);
      }
    }
  }

  lemma {:induction false} LiveShrinks<T>(s: seq<Entry<T>>, gone: set<nat>)
    ensures |Live(s, gone)| <= |s|
  {
    if s == [] {
    } else {
      LiveShrinks(s[1..], gone);
    }
  }

  lemma {:induction false} LiveNone<T>(s: seq<Entry<T>>, gone: set<nat>)
    requires forall i :: 0 <= i < |s| ==> s[i].ticket !in gone
    ensures Live(s, gone) == s
  {
    if s == [] {
    } else {
      LiveNone(s[1..], gone);
    }
  }

  /** Live keeps exactly the entries of s whose ticket is not gone. */
  lemma {:induction false} LiveMembers<T>(s: seq<Entry<T>>, gone: set<nat>, e: Entry<T>)
    ensures e in Live(s, gone) <==> e in s && e.ticket !in gone
  {
    if s == [] {
    } else {
      LiveMembers(s[1..], gone, e);
      assert e in s <==> e == s[0] || e in s[1..];
    }
  }

  lemma {:induction false} LiveAscending<T>(s: seq<Entry<T>>, gone: set<nat>)
    requires Ascending(s)
    ensures Ascending(Live(s, gone))
  {
    if s == [] {
    } else {
      LiveAscending(s[1..], gone);
      var rest := Live(s[1..], gone);
      forall k | 0 <= k < |rest|
        ensures s[0].ticket < rest[k].ticket
      {
        LiveMembers(s[1..], gone, rest[k]);
      }
    }
  }

  /** Dropping the head ticket of an ascending queue drops exactly the head. */
  lemma LiveHead<T>(s: seq<Entry<T>>)
    requires Ascending(s) && s != []
    ensures Live(s, {s[0].ticket}) == s[1..]
  {
    LiveNone(s[1..], {s[0].ticket});
  }

  lemma HasConcat<T>(a: seq<Entry<T>>, b: seq<Entry<T>>, ticket: nat)
    ensures Has(a + b, ticket) <==> Has(a, ticket) || Has(b, ticket)
  {
    if i :| 0 <= i < |a| && a[i].ticket == ticket {
      assert (a + b)[i].ticket == ticket;
    }
    if j :| 0 <= j < |b| && b[j].ticket == ticket {
      assert (a + b)[|a| + j].ticket == ticket;
    }
  }

  /** A ticket sits on one side of an ascending queue at most. */
  lemma AscendingOnce<T>(a: seq<Entry<T>>, b: seq<Entry<T>>, ticket: nat)
    requires Ascending(a + b)
    ensures !(Has(a, ticket) && Has(b, ticket))
  {
    forall i, j | 0 <= i < |a| && 0 <= j < |b|
      ensures a[i].ticket != b[j].ticket
    {
      assert (a + b)[i] == a[i] && (a + b)[|a| + j] == b[j];
    }
  }

  /** The first-in-first-out law: out is, in order, what the log accepted and nobody withdrew. */
  ghost predicate Ledger<T>(log: seq<Entry<T>>, gone: set<nat>, out: seq<Entry<T>>) {
    && Ticketed(log)
    && (forall t :: t in gone ==> t < |log|)
    && Live(log, gone) == out
  }

  lemma LedgerFacts<T>(log: seq<Entry<T>>, gone: set<nat>, out: seq<Entry<T>>)
    requires Ledger(log, gone, out)
    ensures Ascending(out)
    ensures forall k :: 0 <= k < |out| ==> out[k].ticket < |log| && out[k] == log[out[k].ticket] && out[k].ticket !in gone
    ensures forall t: nat :: t < |log| && t !in gone ==> log[t] in out
  {
    LiveAscending(log, gone);
    forall k | 0 <= k < |out|
      ensures out[k].ticket < |log| && out[k] == log[out[k].ticket] && out[k].ticket !in gone
    {
      LiveMembers(log, gone, out[k]);
    }
    forall t: nat | t < |log| && t !in gone
      ensures log[t] in out
    {
      LiveMembers(log, gone, log[t]);
    }
  }

  /** A log accepts a new item at the end. */
  lemma LedgerAccept<T>(log: seq<Entry<T>>, gone: set<nat>, out: seq<Entry<T>>, item: T)
    requires Ledger(log, gone, out)
    ensures Ledger(log + [Entry(|log|, item)], gone, out + [Entry(|log|, item)])
  {
    var e := [Entry(|log|, item)];
    LiveAppend(log, e, gone);
    LiveNone(e, gone);
  }

  /** Withdrawing a ticket that sits in the back part removes it there and nowhere else. */
  lemma LedgerRetract<T>(log: seq<Entry<T>>, gone: set<nat>, front: seq<Entry<T>>, back: seq<Entry<T>>, ticket: nat)
    requires Ledger(log, gone, front + back)
    requires Has(back, ticket)
    ensures Ledger(log, gone + {ticket}, front + Live(back, {ticket}))
  {
    LedgerFacts(log, gone, front + back);
    LiveTwice(log, gone, {ticket});
    LiveAppend(front, back, {ticket});
    var i :| 0 <= i < |back| && back[i].ticket == ticket;
    assert (front + back)[|front| + i] == back[i];
    forall k | 0 <= k < |front|
      ensures front[k].ticket !in {ticket}
    {
      assert (front + back)[k] == front[k];
    }
    LiveNone(front, {ticket});
  }

  /** The same for the head of the back part. */
  lemma LedgerDropHead<T>(log: seq<Entry<T>>, gone: set<nat>, front: seq<Entry<T>>, back: seq<Entry<T>>)
    requires Ledger(log, gone, front + back) && back != []
    ensures Ledger(log, gone + {back[0].ticket}, front + back[1..])
  {
    LedgerRetract(log, gone, front, back, back[0].ticket);
    LedgerFacts(log, gone, front + back);
    forall i, j | 0 <= i < j < |back|
      ensures back[i].ticket < back[j].ticket
    {
      assert (front + back)[|front| + i] == back[i] && (front + back)[|front| + j] == back[j];
    }
    LiveHead(back);
  }
}
