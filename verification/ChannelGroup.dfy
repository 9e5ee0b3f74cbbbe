/** Channel groups: sends and selects that wait on several channels at once
    (src/channel.c:764-1217), with the callbacks that end them.
    As in ChannelObject, resuming a task runs a script of whatever the other tasks do next, and
    every method is proved for every script. */
module ChannelGroupObject {
  import opened Queues
  import opened ChannelSpec
  import opened ChannelGroupSpec

  /** An entry of a group: a member channel and the group's iterator for it. */
  datatype Member = Member(channel: nat, it: nat)

  datatype Act =
    | DoSend(c: nat, value: Value)
    | DoFetch(c: nat, it: nat)
    | DoClose(c: nat, reason: Option<Error>)
    | DoGroupSend(members: seq<Member>, message: Value, patient: bool)
    | DoSelect(choices: seq<Member>, patient: bool)
    | EndSend(group: nat)             // timeout or cancellation of a group send
    | EndSelect(group: nat)           // timeout or cancellation of a group select
    | DropSender(channel: nat, ticket: nat)    // cancellation of a single blocked send
    | DropReceiver(where: nat, waiter: nat)    // cancellation of a single blocked fetch
    | Back

  /** A group operation meets a closed member (and forwards its error, if it has one), completes on one member at once, finds nothing to do,
      or waits as a numbered operation. */
  datatype Outcome = Closed(failure: Option<Error>) | Done(index: nat, value: Value) | Nothing | Waiting(group: nat)

  /** A closed channel that holds no buffered value and has no receiver: nothing is left to wait for. */
  predicate Dead(s: Chan) {
    s.closed && !ReadableNow(s)
  }

  /** The history of a channel goes on, a closed channel stays closed with its error, its buffer is not
      filled again once it is empty, and then no receiver joins any more. */
  predicate Extends(s: Chan, t: Chan) {
    && s.offers <= t.offers && s.delivered <= t.delivered
    && (s.closed ==> t.closed && t.error == s.error && t.shut == s.shut)
    && (s.closed && s.buffer == [] ==> t.buffer == [])
    && (Dead(s) ==> Dead(t))
  }

  lemma StepExtends(s: Chan, e: Event)
    requires !e.EndDrain? && (e.Listen? ==> !Dead(s))
    ensures Extends(s, Step(s, e))
  {
    StepHistory(s, e);
    if e.Unqueue? && Has(s.receivers, e.waiter) {
      assert s.receivers != [];
    }
  }

  ghost predicate AllExtend(before: seq<Chan>, after: seq<Chan>) {
    |after| == |before| && forall c :: 0 <= c < |before| ==> Extends(before[c], after[c])
  }

  lemma AllExtendTrans(a: seq<Chan>, b: seq<Chan>, c: seq<Chan>)
    requires AllExtend(a, b) && AllExtend(b, c)
    ensures AllExtend(a, c)
  {
  }

  /** Registering changes neither which channels are dead nor which hold something to take, nor how far
      their closes are. */
  ghost predicate SameChoice(before: seq<Chan>, after: seq<Chan>) {
    && |after| == |before|
    && forall c :: 0 <= c < |before| ==>
         Dead(after[c]) == Dead(before[c]) && Available(after[c]) == Available(before[c]) && after[c].shut == before[c].shut
  }

  lemma SameChoiceTrans(a: seq<Chan>, b: seq<Chan>, c: seq<Chan>)
    requires SameChoice(a, b) && SameChoice(b, c)
    ensures SameChoice(a, c)
  {
  }

  lemma ListenSameChoice(chans: seq<Chan>, c: nat, it: nat)
    requires c < |chans| && !Dead(chans[c])
    ensures SameChoice(chans, After(chans, c, Listen(it)))
  {
    assert Step(chans[c], Listen(it)).receivers != [];
  }

  /** Each registration is late exactly if its member was closed, its receivers resumed, by then. */
  ghost predicate LateWhenShut(chans: seq<Chan>, regs: seq<Registration>) {
    forall k :: 0 <= k < |regs| ==> regs[k].member < |chans| && (Late(chans, regs[k]) <==> chans[regs[k].member].shut.Some?)
  }

  lemma LateWhenShutMore(before: seq<Chan>, after: seq<Chan>, regs: seq<Registration>, r: Registration)
    requires LateWhenShut(before, regs) && SameChoice(before, after) && r.member < |after|
    requires Late(after, r) <==> after[r.member].shut.Some?
    ensures LateWhenShut(after, regs + [r])
  {
  }

  /** A select that begins to wait has one registration per member and counts them; those with members that
      were closed, their receivers resumed, are late. */
  ghost predicate Registered(before: seq<Chan>, after: seq<Chan>, s: GroupSelect, members: seq<Member>) {
    && s == GroupSelect(s.regs, |members|, false, None, None, false) && |s.regs| == |members| && |before| == |after|
    && forall k :: 0 <= k < |members| ==>
         && s.regs[k].member == members[k].channel < |after|
         && (Late(after, s.regs[k]) <==> before[members[k].channel].shut.Some?)
  }

  lemma BecomesRegistered(before: seq<Chan>, after: seq<Chan>, regs: seq<Registration>, members: seq<Member>)
    requires SameChoice(before, after) && LateWhenShut(after, regs) && |regs| == |members|
    requires forall k :: 0 <= k < |members| ==> regs[k].member == members[k].channel
    ensures Registered(before, after, GroupSelect(regs, |members|, false, None, None, false), members)
  {
  }

  /** Each registration was made with the group's iterator for that member. */
  ghost predicate Listening(chans: seq<Chan>, regs: seq<Registration>, members: seq<Member>) {
    && |regs| <= |members|
    && forall k :: 0 <= k < |regs| ==>
         && regs[k].member == members[k].channel < |chans|
         && regs[k].ticket < |chans[regs[k].member].waits|
         && chans[regs[k].member].waits[regs[k].ticket] == Entry(regs[k].ticket, members[k].it)
  }

  lemma ListeningMore(chans: seq<Chan>, regs: seq<Registration>, members: seq<Member>)
    requires Listening(chans, regs, members) && |regs| < |members| && members[|regs|].channel < |chans|
    ensures var (c, it) := (members[|regs|].channel, members[|regs|].it);
            Listening(After(chans, c, Listen(it)), regs + [Registration(c, |chans[c].waits|)], members)
  {
  }

  /** Only channels that hold something to take have given up their laws. */
  ghost predicate GivenUp(before: set<nat>, after: set<nat>, chans: seq<Chan>) {
    forall c :: c in after && c !in before ==> c < |chans| && Available(chans[c])
  }

  lemma GivenUpMore(a: set<nat>, b: set<nat>, c: set<nat>, before: seq<Chan>, between: seq<Chan>)
    requires GivenUp(a, b, before) && GivenUp(b, c, between) && SameChoice(before, between)
    ensures GivenUp(a, c, before)
  {
  }

  /** Groups are only added, a group that ended stays as it is, and every channel goes on. */
  ghost predicate Grown(
    chans: seq<Chan>, sends: seq<GroupSend>, selects: seq<GroupSelect>,
    chans': seq<Chan>, sends': seq<GroupSend>, selects': seq<GroupSelect>)
  {
    && AllExtend(chans, chans') && |sends| <= |sends'| && |selects| <= |selects'|
    && (forall g :: 0 <= g < |sends| && sends[g].Settled() ==> sends'[g] == sends[g])
    && (forall g :: 0 <= g < |selects| && selects[g].settled ==> selects'[g] == selects[g])
  }

  lemma GrownTrans(
    c0: seq<Chan>, s0: seq<GroupSend>, r0: seq<GroupSelect>,
    c1: seq<Chan>, s1: seq<GroupSend>, r1: seq<GroupSelect>,
    c2: seq<Chan>, s2: seq<GroupSend>, r2: seq<GroupSelect>)
    requires Grown(c0, s0, r0, c1, s1, r1) && Grown(c1, s1, r1, c2, s2, r2)
    ensures Grown(c0, s0, r0, c2, s2, r2)
  {
    AllExtendTrans(c0, c1, c2);
  }

  /** A close that began in between may finish with the receivers. */
  lemma GrownOver(
    c0: seq<Chan>, s0: seq<GroupSend>, r0: seq<GroupSelect>,
    c1: seq<Chan>, s1: seq<GroupSend>, r1: seq<GroupSelect>, c: nat)
    requires Grown(c0, s0, r0, c1, s1, r1) && c < |c0| && !c0[c].closed
    ensures Grown(c0, s0, r0, After(c1, c, EndDrain), s1, r1)
  {
  }

  lemma GrownBySend(c: seq<Chan>, sends: seq<GroupSend>, selects: seq<GroupSelect>, after: seq<Chan>, g: nat, s: GroupSend)
    requires AllExtend(c, after) && g < |sends| && !sends[g].Settled()
    ensures Grown(c, sends, selects, after, sends[g := s], selects)
  {
  }

  lemma GrownBySelect(c: seq<Chan>, sends: seq<GroupSend>, selects: seq<GroupSelect>, after: seq<Chan>, g: nat, s: GroupSelect)
    requires AllExtend(c, after) && g < |selects| && !selects[g].settled
    ensures Grown(c, sends, selects, after, sends, selects[g := s])
  {
  }

  /** What a group send can complete on (src/channel.c:1094-1098). */
  predicate Writable(s: Chan) {
    s.receivers != [] || |s.buffer| < s.capacity
  }

  /** A send to an open channel gets its value through at once if and only if a receiver waits or the buffer
      has room; otherwise the value stays with the blocked sender. */
  lemma SentReaches(s: Chan, v: Value)
    requires Tidy(s) && !s.closed
    ensures Reached(Step(s, Event.Send(v)), |s.offers|) <==> Writable(s)
    ensures !Writable(s) ==> Has(Step(s, Event.Send(v)).senders, |s.offers|)
    ensures Step(s, Event.Send(v)).offers == s.offers + [Entry(|s.offers|, v)]
    ensures Writable(s) <==> s.receivers != [] || |s.buffer| < s.capacity
  {
    var n := Step(s, Event.Send(v));
    StepReaches(s, Event.Send(v), |s.offers|);
    if s.receivers == [] && |s.buffer| >= s.capacity {
      assert n.senders[|s.senders|] == Entry(|s.offers|, v);
    }
  }

  /** Value v, accepted by channel s, has reached the first receiver that waited, or else the end of the
      buffer, when the channel is t. */
  ghost predicate PassedOn(s: Chan, t: Chan, v: Value) {
    && s.offers + [Entry(|s.offers|, v)] <= t.offers && Reached(t, |s.offers|)
    && if s.receivers != [] then
         s.delivered + [Delivery(Entry(|s.offers|, v), s.receivers[0].item, Some(s.receivers[0].ticket))] <= t.delivered
       else
         |s.buffer| < s.capacity && t.buffer == s.buffer + [Entry(|s.offers|, v)] && t.senders == s.senders
  }

  predicate Joined(chans: seq<Chan>, members: seq<Member>) {
    forall k :: 0 <= k < |members| ==> members[k].channel < |chans|
  }

  /** The first member a group send can complete on. */
  function FirstWritable(chans: seq<Chan>, members: seq<Member>): (r: Option<nat>)
    requires Joined(chans, members)
    ensures r.Some? ==> r.value < |members| && Writable(chans[members[r.value].channel])
    ensures r.Some? ==> forall k :: 0 <= k < r.value ==> !Writable(chans[members[k].channel])
    ensures r.None? ==> forall k :: 0 <= k < |members| ==> !Writable(chans[members[k].channel])
  {
    if members == [] then None
    else if Writable(chans[members[0].channel]) then Some(0)
    else
      var r := FirstWritable(chans, members[1..]);
      if r.Some? then Some(r.value + 1) else None
  }

  lemma {:induction false} FirstWritableMore(chans: seq<Chan>, members: seq<Member>, i: nat)
    requires Joined(chans, members) && i < |members|
    ensures FirstWritable(chans, members[..i + 1]) ==
            if FirstWritable(chans, members[..i]).None? && Writable(chans[members[i].channel]) then Some(i)
            else FirstWritable(chans, members[..i])
  {
    if i == 0 {
    } else {
      FirstWritableMore(chans, members[1..], i - 1);
      assert members[..i + 1][1..] == members[1..][..i] && members[..i][1..] == members[1..][..i - 1];
    }
  }

  /** Member k is the first whose channel is closed. */
  predicate ClosedFirst(chans: seq<Chan>, members: seq<Member>, k: nat)
    requires Joined(chans, members) && k < |members|
  {
    chans[members[k].channel].closed && forall j :: 0 <= j < k ==> !chans[members[j].channel].closed
  }

  /** That one is dropped, and its error is forwarded. */
  predicate DropsClosed(chans: seq<Chan>, members: seq<Member>, left: seq<Member>, failure: Option<Error>)
    requires Joined(chans, members)
  {
    exists k :: 0 <= k < |members| && ClosedFirst(chans, members, k) &&
      failure == chans[members[k].channel].error && left == members[..k] + members[k + 1..]
  }

  /** ASYNC_CHANNEL_READABLE_NONBLOCK (src/channel.c:183): it is receivers that the code tests. */
  predicate ReadableNow(s: Chan) {
    s.receivers != [] || s.buffer != []
  }

  predicate Available(s: Chan) {
    s.buffer != [] || s.senders != []
  }

  /** What a select keeps of its first n members: closed channels that hold nothing are dropped. */
  function KeptUpTo(chans: seq<Chan>, members: seq<Member>, n: nat): (r: seq<Member>)
    requires Joined(chans, members) && n <= |members|
    ensures |r| <= n && Joined(chans, r)
  {
    if n == 0 then []
    else
      var r := KeptUpTo(chans, members, n - 1);
      if Dead(chans[members[n - 1].channel]) then r else r + [members[n - 1]]
  }

  function Kept(chans: seq<Chan>, members: seq<Member>): (r: seq<Member>)
    requires Joined(chans, members)
    ensures |r| <= |members| && Joined(chans, r)
  {
    KeptUpTo(chans, members, |members|)
  }

  lemma {:induction false} KeptAlive(chans: seq<Chan>, members: seq<Member>, n: nat)
    requires Joined(chans, members) && n <= |members|
    ensures forall k :: 0 <= k < |KeptUpTo(chans, members, n)| ==> !Dead(chans[KeptUpTo(chans, members, n)[k].channel])
  {
    if n == 0 {
    } else {
      KeptAlive(chans, members, n - 1);
    }
  }

  /** What becomes of one member. */
  function KeptOne(chans: seq<Chan>, m: Member): seq<Member>
    requires m.channel < |chans|
  {
    if Dead(chans[m.channel]) then [] else [m]
  }

  lemma KeptStep(chans: seq<Chan>, members: seq<Member>, n: nat)
    requires Joined(chans, members) && 0 < n <= |members|
    ensures KeptUpTo(chans, members, n) == KeptUpTo(chans, members, n - 1) + KeptOne(chans, members[n - 1])
  {
  }

  lemma JoinedBoth(chans: seq<Chan>, a: seq<Member>, b: seq<Member>)
    requires Joined(chans, a) && Joined(chans, b)
    ensures Joined(chans, a + b)
  {
  }

  lemma {:induction false} KeptPrefix(chans: seq<Chan>, a: seq<Member>, b: seq<Member>, ab: seq<Member>, n: nat)
    requires Joined(chans, a) && Joined(chans, b) && Joined(chans, ab) && ab == a + b && n <= |b|
    ensures KeptUpTo(chans, ab, |a| + n) == Kept(chans, a) + KeptUpTo(chans, b, n)
    decreases n
  {
    if n == 0 {
      KeptOfPrefix(chans, a, ab, |a|);
    } else {
      KeptPrefix(chans, a, b, ab, n - 1);
      KeptStep(chans, b, n);
      KeptStep(chans, ab, |a| + n);
      assert ab[|a| + n - 1] == b[n - 1];
      Regroup(Kept(chans, a), KeptUpTo(chans, b, n - 1), KeptOne(chans, b[n - 1]));
    }
  }

  lemma {:induction false} KeptOfPrefix(chans: seq<Chan>, a: seq<Member>, ab: seq<Member>, n: nat)
    requires Joined(chans, a) && Joined(chans, ab) && a <= ab && n <= |a|
    ensures KeptUpTo(chans, ab, n) == KeptUpTo(chans, a, n)
    decreases n
  {
    if n == 0 {
    } else {
      KeptOfPrefix(chans, a, ab, n - 1);
      KeptStep(chans, a, n);
      KeptStep(chans, ab, n);
      assert ab[n - 1] == a[n - 1];
    }
  }

  lemma KeptConcat(chans: seq<Chan>, a: seq<Member>, b: seq<Member>)
    requires Joined(chans, a) && Joined(chans, b)
    ensures Joined(chans, a + b) && Kept(chans, a + b) == Kept(chans, a) + Kept(chans, b)
  {
    JoinedBoth(chans, a, b);
    KeptPrefix(chans, a, b, a + b, |b|);
  }

  /** A member goes if and only if its channel is closed, has no buffered value and no receiver. */
  lemma KeptSingle(chans: seq<Chan>, m: Member)
    requires m.channel < |chans|
    ensures var c := chans[m.channel];
            Kept(chans, [m]) == if c.closed && c.receivers == [] && c.buffer == [] then [] else [m]
  {
    KeptStep(chans, [m], 1);
    assert KeptUpTo(chans, [m], 0) == [];
  }

  /** A select keeps its members in their order, one by one. */
  lemma KeptIs(chans: seq<Chan>, a: seq<Member>, m: Member, b: seq<Member>)
    requires Joined(chans, a) && m.channel < |chans| && Joined(chans, b)
    ensures Joined(chans, a + [m] + b)
    ensures var c := chans[m.channel];
            Kept(chans, a + [m] + b) ==
            Kept(chans, a) + (if c.closed && c.receivers == [] && c.buffer == [] then [] else [m]) + Kept(chans, b)
  {
    KeptConcat(chans, a, [m]);
    KeptConcat(chans, a + [m], b);
    KeptSingle(chans, m);
  }

  /** Which members a select keeps. */
  lemma {:induction false} KeptMembers(chans: seq<Chan>, members: seq<Member>, n: nat, m: Member)
    requires Joined(chans, members) && n <= |members|
    ensures m in KeptUpTo(chans, members, n) <==>
            && m in members[..n]
            && (!chans[m.channel].closed || chans[m.channel].receivers != [] || chans[m.channel].buffer != [])
    decreases n
  {
    if n == 0 {
    } else {
      KeptMembers(chans, members, n - 1, m);
      assert members[..n] == members[..n - 1] + [members[n - 1]];
    }
  }

  /** A member whose error ends a select. */
  predicate Broken(s: Chan) {
    Dead(s) && s.error.Some?
  }

  /** Member k is the first whose channel is closed with an error and has neither buffered values nor receivers. */
  predicate BrokenFirst(chans: seq<Chan>, members: seq<Member>, k: nat)
    requires Joined(chans, members) && k < |members|
  {
    Broken(chans[members[k].channel]) && forall j :: 0 <= j < k ==> !Broken(chans[members[j].channel])
  }

  /** The members before it are kept as by any select, the later ones as they are, and its error is forwarded. */
  predicate DropsBroken(chans: seq<Chan>, members: seq<Member>, kept: seq<Member>, failure: Option<Error>)
    requires Joined(chans, members)
  {
    exists k :: 0 <= k < |members| && BrokenFirst(chans, members, k) &&
      failure == chans[members[k].channel].error && kept == Kept(chans, members[..k]) + members[k + 1..]
  }

  /** The first member a select tries to take a message from. */
  function FirstReadable(chans: seq<Chan>, members: seq<Member>): (r: Option<nat>)
    requires Joined(chans, members)
    ensures r.Some? ==> r.value < |members| && ReadableNow(chans[members[r.value].channel])
    ensures forall k :: 0 <= k < r.GetOr(|members|) ==> !ReadableNow(chans[members[k].channel])
  {
    if members == [] then None
    else
      var n := |members| - 1;
      var r := FirstReadable(chans, members[..n]);
      if r.Some? then r
      else if ReadableNow(chans[members[n].channel]) then Some(n) else None
  }

  /** The scan in front of a select has found first in kept. */
  predicate IsFirst(chans: seq<Chan>, kept: seq<Member>, first: Option<nat>)
    requires Joined(chans, kept)
  {
    && (first.Some? ==> first.value < |kept| && ReadableNow(chans[kept[first.value].channel]))
    && forall k :: 0 <= k < |kept| && (first.Some? ==> k < first.value) ==> !ReadableNow(chans[kept[k].channel])
  }

  lemma FirstIs(chans: seq<Chan>, kept: seq<Member>, first: Option<nat>)
    requires Joined(chans, kept) && IsFirst(chans, kept, first)
    ensures first == FirstReadable(chans, kept)
  {
  }

  /** Whether a select gets a message without waiting. */
  predicate PollSucceeds(chans: seq<Chan>, members: seq<Member>)
    requires Joined(chans, members)
  {
    var first := FirstReadable(chans, members);
    first.Some? && Available(chans[members[first.value].channel])
  }

  /** Member k is the first that looks readable, and it has a message. */
  predicate FirstHasMessage(chans: seq<Chan>, members: seq<Member>, k: nat)
    requires Joined(chans, members) && k < |members|
  {
    && ReadableNow(chans[members[k].channel]) && Available(chans[members[k].channel])
    && forall j :: 0 <= j < k ==> !ReadableNow(chans[members[j].channel])
  }

  /** A select gets a message at once exactly when the first member with a buffered value or a waiting
      receiver has a buffered value or a blocked sender. */
  lemma PollSucceedsIff(chans: seq<Chan>, members: seq<Member>)
    requires Joined(chans, members)
    ensures PollSucceeds(chans, members) <==> exists k :: 0 <= k < |members| && FirstHasMessage(chans, members, k)
  {
    var first := FirstReadable(chans, members);
    if PollSucceeds(chans, members) {
      assert FirstHasMessage(chans, members, first.value);
    }
  }

  /** Member k is the first that looks readable, by a receiver, and there is nothing to take. */
  predicate FirstEmptyHanded(chans: seq<Chan>, members: seq<Member>, k: nat)
    requires Joined(chans, members) && k < |members|
  {
    && chans[members[k].channel].receivers != [] && !Available(chans[members[k].channel])
    && forall j :: 0 <= j < k ==> !ReadableNow(chans[members[j].channel])
  }

  /** Whether a select registers with the members it keeps. */
  predicate MustWait(chans: seq<Chan>, members: seq<Member>, patient: bool)
    requires Joined(chans, members)
  {
    var kept := Kept(chans, members);
    && (forall k :: 0 <= k < |members| ==> !Broken(chans[members[k].channel]))
    && kept != [] && patient && !PollSucceeds(chans, kept)
  }

  lemma FirstMore(chans: seq<Chan>, members: seq<Member>, m: Member)
    requires Joined(chans, members) && m.channel < |chans|
    ensures Joined(chans, members + [m])
    ensures FirstReadable(chans, members + [m]) ==
            if FirstReadable(chans, members).None? && ReadableNow(chans[m.channel]) then Some(|members|)
            else FirstReadable(chans, members)
  {
    assert (members + [m])[..|members|] == members;
  }

  /** The dropped members change nothing about which one looks readable first. */
  lemma {:induction false} FirstOfKept(chans: seq<Chan>, members: seq<Member>, n: nat)
    requires Joined(chans, members) && n <= |members|
    ensures Joined(chans, members[..n])
    ensures var (f, g) := (FirstReadable(chans, members[..n]), FirstReadable(chans, KeptUpTo(chans, members, n)));
            && f.Some? == g.Some?
            && (f.Some? ==> members[f.value] == KeptUpTo(chans, members, n)[g.value])
    decreases n
  {
    if n == 0 {
    } else {
      FirstOfKept(chans, members, n - 1);
      FirstMore(chans, members[..n - 1], members[n - 1]);
      assert members[..n] == members[..n - 1] + [members[n - 1]];
      if !Dead(chans[members[n - 1].channel]) {
        FirstMore(chans, KeptUpTo(chans, members, n - 1), members[n - 1]);
      }
    }
  }

  /** A select waits if and only if it may, no member is closed with an error, without buffered values and
      without receivers, some member is open or has a buffered value or a receiver, and the first member
      with a buffered value or a receiver, if there is one, has neither a buffered value nor a blocked
      sender. */
  lemma MustWaitIff(chans: seq<Chan>, members: seq<Member>, patient: bool)
    requires Joined(chans, members)
    ensures MustWait(chans, members, patient) <==>
            && patient
            && (forall k :: 0 <= k < |members| ==>
                  var s := chans[members[k].channel]; s.closed && s.receivers == [] && s.buffer == [] ==> s.error.None?)
            && (exists k :: 0 <= k < |members| &&
                  var s := chans[members[k].channel]; !s.closed || s.receivers != [] || s.buffer != [])
            && !(exists k :: 0 <= k < |members| && FirstHasMessage(chans, members, k))
  {
    var kept, n := Kept(chans, members), |members|;
    FirstOfKept(chans, members, n);
    assert members[..n] == members;
    PollSucceedsIff(chans, members);
    KeptMembers(chans, members, n, if kept != [] then kept[0] else Member(0, 0));
    if kept != [] {
      assert kept[0] in members;
      var k :| 0 <= k < |members| && members[k] == kept[0];
    } else {
      forall k | 0 <= k < |members|
        ensures var s := chans[members[k].channel]; s.closed && s.receivers == [] && s.buffer == []
      {
        KeptMembers(chans, members, n, members[k]);
        assert members[k] in members;
      }
    }
  }

  /** FirstHasMessage, in the channel's own fields. */
  lemma FirstHasMessageIs(chans: seq<Chan>, members: seq<Member>, k: nat)
    requires Joined(chans, members) && k < |members|
    ensures FirstHasMessage(chans, members, k) <==>
            && (chans[members[k].channel].buffer != [] ||
                (chans[members[k].channel].receivers != [] && chans[members[k].channel].senders != []))
            && forall j :: 0 <= j < k ==> chans[members[j].channel].receivers == [] && chans[members[j].channel].buffer == []
  {
  }

  predicate KeepsClosed(chans: seq<Chan>, members: seq<Member>)
    requires Joined(chans, members)
  {
    exists k :: 0 <= k < |Kept(chans, members)| && chans[Kept(chans, members)[k].channel].closed
  }

  /** The first member that looks readable has a receiver and nothing to take. */
  predicate EmptyHanded(chans: seq<Chan>, members: seq<Member>)
    requires Joined(chans, members)
  {
    exists k :: 0 <= k < |members| && FirstEmptyHanded(chans, members, k)
  }

  /** A select registers with a closed member if and only if it may wait, finds no broken member, keeps a
      closed one, and finds, as the first member that looks readable, one with a receiver and nothing to
      take. */
  lemma RegistersWithClosedIff(chans: seq<Chan>, members: seq<Member>, patient: bool)
    requires Joined(chans, members)
    ensures MustWait(chans, members, patient) && KeepsClosed(chans, members) <==>
            && patient && (forall k :: 0 <= k < |members| ==> !Broken(chans[members[k].channel]))
            && KeepsClosed(chans, members) && EmptyHanded(chans, Kept(chans, members))
  {
    var kept := Kept(chans, members);
    KeptAlive(chans, members, |members|);
    if KeepsClosed(chans, members) {
      PollPassesClosedIff(chans, kept);
    }
  }

  lemma PollPassesClosedIff(chans: seq<Chan>, kept: seq<Member>)
    requires Joined(chans, kept)
    requires exists c :: 0 <= c < |kept| && ReadableNow(chans[kept[c].channel])
    ensures !PollSucceeds(chans, kept) <==> EmptyHanded(chans, kept)
  {
    var c :| 0 <= c < |kept| && ReadableNow(chans[kept[c].channel]);
    var first := FirstReadable(chans, kept);
    assert first.Some?;
    assert !PollSucceeds(chans, kept) ==> FirstEmptyHanded(chans, kept, first.value);
  }

  predicate Contested(s: Chan) {
    s.receivers != [] && s.senders != []
  }

  /** On unbuffered channels that is the case exactly when the first member that some receiver waits on
      has a blocked sender as well, which it owes to an earlier select. */
  lemma UnbufferedPollIff(chans: seq<Chan>, members: seq<Member>)
    requires Joined(chans, members)
    requires forall k :: 0 <= k < |members| ==> chans[members[k].channel].capacity == 0 && Tidy(chans[members[k].channel])
    ensures PollSucceeds(chans, members) <==>
            exists k :: 0 <= k < |members| && Contested(chans[members[k].channel]) &&
              forall j :: 0 <= j < k ==> chans[members[j].channel].receivers == []
  {
    PollSucceedsIff(chans, members);
    forall k: nat | k < |members|
      ensures FirstHasMessage(chans, members, k) <==>
              Contested(chans[members[k].channel]) && forall j :: 0 <= j < k ==> chans[members[j].channel].receivers == []
    {
    }
  }

  /** On members that keep their promise nobody waits beside a blocked sender, so a message held by the
      blocked sender of an unbuffered channel is passed over. */
  lemma LawfulUnbufferedPollFails(chans: seq<Chan>, members: seq<Member>)
    requires Joined(chans, members)
    requires forall k :: 0 <= k < |members| ==> chans[members[k].channel].capacity == 0
    requires forall k :: 0 <= k < |members| ==> NoNeedlessWait(chans[members[k].channel])
    ensures !PollSucceeds(chans, members)
  {
    PollSucceedsIff(chans, members);
  }

  /** The same message is passed over by the first select and taken at once by the next one, because the
      first one waits. */
  lemma SecondSelectTakesIt()
    ensures var s := Step(Open(0), Event.Send(1));
            && !PollSucceeds([s], [Member(0, 7)])
            && PollSucceeds([Step(s, Listen(7))], [Member(0, 8)])
  {
    var s := Step(Open(0), Event.Send(1));
    var t := Step(s, Listen(7));
    assert s.receivers == [] && s.buffer == [] && t.receivers != [] && t.senders != [];
    PollSucceedsIff([s], [Member(0, 7)]);
    PollSucceedsIff([t], [Member(0, 8)]);
    assert FirstHasMessage([t], [Member(0, 8)], 0);
  }

  /** A task waits on the first channel, which is open; the second holds a value and is closed. A select over
      both waits on both; then the first closes without error, and the select goes on waiting. */
  lemma SelectIsStranded()
    ensures var a := Step(Open(0), Event.Fetch(9));
            var b := Step(Step(Step(Open(1), Event.Send(5)), Event.Close(None)), EndDrain);
            var members := [Member(0, 1), Member(1, 2)];
            && MustWait([a, b], members, true) && Kept([a, b], members) == members
            && var (a', b') := (ClosedTwice(Step(a, Listen(1))), Step(b, Listen(2)));
            && var s := GroupSelect([Registration(0, 1), Registration(1, 0)], 1, false, None, None, false);
            && SelectOk([a', b'], s) && AllShut([a', b'], s.regs)
            && ShutDown([a', b'], s.regs[0]) && ShutDown([a', b'], s.regs[1])
  {
    var a := Step(Open(0), Event.Fetch(9));
    assert a == Idle([Entry(0, 9)]);
    var b := Step(Step(Step(Open(1), Event.Send(5)), Event.Close(None)), EndDrain);
    assert b.buffer == [Entry(0, 5)] && b.receivers == [] && b.shut == Some(0) && b.closed && b.error.None? && b.waits == [];
    StrandedPoll(a, b);
    var b' := Step(b, Listen(2));
    assert b'.receivers == [Entry(0, 2)];
    TwoDrained();
    StrandedState(ClosedTwice(Step(a, Listen(1))), b');
  }

  /** A close that leaves a receiver behind: it resumes a blocked sender, whose task selects over the closed
      channel, which holds a value, and an open one on which somebody waits. */
  lemma CloseLeavesReceiver()
    ensures var a := Step(Open(0), Event.Fetch(9));
            var c := Step(Step(Step(Step(Step(Open(1), Event.Send(5)), Event.Send(6)), Event.Close(None)), EndDrain), DrainSender);
            && MustWait([a, c], [Member(0, 1), Member(1, 2)], true)
            && var d := Step(c, Listen(2));
            && d.closed && d.senders == [] && d.receivers == [Entry(0, 2)] && LateTicket(d, 0)
  {
    var a := Step(Open(0), Event.Fetch(9));
    assert a == Idle([Entry(0, 9)]);
    FullAndBlocked();
    var c := Step(Step(Step(Step(Step(Open(1), Event.Send(5)), Event.Send(6)), Event.Close(None)), EndDrain), DrainSender);
    StrandedPoll(a, c);
  }

  lemma FullAndBlocked()
    ensures var b := Step(Step(Open(1), Event.Send(5)), Event.Send(6));
            && b.buffer == [Entry(0, 5)] && b.senders == [Entry(1, 6)] && b.receivers == [] && b.waits == []
            && !b.closed && b.error.None? && b.shut.None?
  {
  }

  /** An unbuffered channel with nothing but the receivers q. */
  function Idle(q: seq<Entry<nat>>): Chan {
    Open(0).(receivers := q, waits := q)
  }

  /** The channel is closed without error and two receivers are resumed. */
  function ClosedTwice(s: Chan): Chan {
    Step(Step(Step(Step(s, Event.Close(None)), DrainReceiver), DrainReceiver), EndDrain)
  }

  lemma TwoDrained()
    ensures var q := [Entry(0, 9), Entry(1, 1)];
            && Step(Idle([Entry(0, 9)]), Listen(1)) == Idle(q)
            && ClosedTwice(Idle(q)) == Idle(q).(receivers := [], closed := true, left := {0, 1}, shut := Some(2))
  {
    var q: seq<Entry<nat>> := [Entry(0, 9), Entry(1, 1)];
    assert [Entry(0, 9)] + [Entry(1, 1)] == q && q[1..] == [Entry(1, 1)] && q[1..][1..] == [];
    assert {} + {0} + {1} == {0, 1};
  }

  lemma StrandedPoll(a: Chan, b: Chan)
    requires a.receivers != [] && a.buffer == [] && a.senders == [] && !a.closed && b.buffer != []
    ensures var members := [Member(0, 1), Member(1, 2)];
            MustWait([a, b], members, true) && Kept([a, b], members) == members
  {
    var chans, members := [a, b], [Member(0, 1), Member(1, 2)];
    assert KeptUpTo(chans, members, 1) == [Member(0, 1)];
    assert Kept(chans, members) == members;
    FirstIs(chans, members, Some(0));
  }

  lemma StrandedState(a: Chan, b: Chan)
    requires a.closed && a.error.None? && a.receivers == [] && a.left == {0, 1} && a.shut == Some(2) && |a.waits| == 2
    requires b.closed && b.error.None? && b.receivers == [Entry(0, 2)] && b.shut == Some(0) && |b.waits| == 1
    ensures var s := GroupSelect([Registration(0, 1), Registration(1, 0)], 1, false, None, None, false);
            SelectOk([a, b], s) && AllShut([a, b], s.regs) && ShutDown([a, b], s.regs[0]) && ShutDown([a, b], s.regs[1])
  {
    var chans, regs := [a, b], [Registration(0, 1), Registration(1, 0)];
    assert b.receivers[0].ticket == 0 && Has(b.receivers, 0) && !Has(a.receivers, 1);
    assert LinkedSelect(chans, regs[1]) && !LinkedSelect(chans, regs[0]);
    assert regs[1..] == [regs[1]] && regs[1..][1..] == [];
    assert LinkedCount(chans, regs[1..]) == 1;
    assert LinkedCount(chans, regs) == 1;
    assert regs[0] != regs[1];
  }

  lemma FreshChannels(chans: seq<Chan>, capacities: seq<nat>)
    requires |chans| == |capacities| && forall c :: 0 <= c < |chans| ==> chans[c] == Open(capacities[c])
    ensures AllTidy(chans) && Lawful(chans, {})
  {
    forall c | 0 <= c < |chans|
      ensures Tidy(chans[c]) && Fifo(chans[c]) && NoNeedlessWait(chans[c])
    {
      EveryRun(capacities[c], [], chans[c]);
    }
  }

  /** The group send that registration o belonged to, has ended: failed with the channel's error, refused by
      its close, or taken by a fetch. */
  ghost predicate SenderTold(o: Registration, closed: bool, failed: bool, through: bool, owner: Owners, before: seq<GroupSend>, after: seq<GroupSend>) {
    o in owner ==>
      var (g, k) := owner[o];
      && g < |before| && g < |after|
      && after[g] == before[g].(report := if failed then Failed(k) else if closed then Refused(k, through) else TakenBy(k))
  }

  /** The group select that registration o belonged to, has ended with the message, or with the error its
      channel was closed with; after a close without error it ends without an entry or goes on. */
  ghost predicate ReceiverTold(o: Registration, error: Option<Error>, message: Option<Value>, owner: Owners, before: seq<GroupSelect>, after: seq<GroupSelect>) {
    o in owner ==>
      var (g, k) := owner[o];
      g < |before| && g < |after| && SelectTold(before[g], after[g], k, error, message)
  }

  predicate SelectTold(before: GroupSelect, after: GroupSelect, k: nat, error: Option<Error>, message: Option<Value>) {
    && before.pending > 0
    && var t := before.(pending := before.pending - 1);
    && if message.Some? || error.Some? then after == t.(settled := true, entry := Some(k), value := message)
       else after == t.(settled := true, entry := None, value := None) || (after == t && t.pending > 0)
  }

  lemma StepKeepsEnd(s: Chan, e: Event)
    requires !e.Close?
    ensures Step(s, e).closed == s.closed && Step(s, e).error == s.error
  {
  }

  class Groups {
    var chans: seq<Chan>
    var sends: seq<GroupSend>
    var selects: seq<GroupSelect>
    var sendOwner: Owners
    var selectOwner: Owners
    ghost var listened: set<nat>

    /** The fields as one value. */
    ghost function Now(): World
      reads this
    {
      World(chans, sends, selects, sendOwner, selectOwner, listened)
    }

    /** In order except for group send s and group select r (-1: no exception). */
    ghost predicate ValidBut(s: int, r: int)
      reads this
    {
      InOrder(Now(), s, r)
    }

    /** Every waiting group send is linked into all its members, every waiting select counts its linked
        registrations, and nothing is linked for a group that has ended. Holds whenever other
        tasks run. */
    ghost predicate Valid()
      reads this
    {
      ValidBut(-1, -1)
    }

    twostate predicate Grows()
      reads this
    {
      Grown(old(chans), old(sends), old(selects), chans, sends, selects)
    }

    constructor (capacities: seq<nat>)
      ensures Valid() && |chans| == |capacities| && sends == [] && selects == []
    {
      var empty := seq(|capacities|, i requires 0 <= i < |capacities| => Open(capacities[i]));
      FreshChannels(empty, capacities);
      chans := empty;
      sends, selects, sendOwner, selectOwner, listened := [], [], map[], map[], {};
    }

    /** One event of one channel. It disturbs no group but the ones whose registration it takes. */
    method Change(c: nat, e: Event, ghost s: int, ghost r: int)
      requires ValidBut(s, r) && c < |chans| && (c in listened || Courteous(chans[c], e)) && (e.Listen? ==> !Dead(chans[c])) && !e.EndDrain?
      requires s == -1 || SendHitBy(chans, c, e, sendOwner) in {-1, s}
      requires r == -1 || SelectHitBy(chans, c, e, selectOwner) in {-1, r}
      modifies this`chans
      ensures chans == After(old(chans), c, e) && AllExtend(old(chans), chans)
      ensures ValidBut(if s == -1 then SendHitBy(old(chans), c, e, sendOwner) else s,
                       if r == -1 then SelectHitBy(old(chans), c, e, selectOwner) else r)
      ensures s == -1 && SendHitBy(old(chans), c, e, sendOwner) >= 0 ==>
                var o := Registration(c, SenderOut(old(chans)[c], e).value);
                SendHit(chans, sends[sendOwner[o].0], sendOwner[o].1, Fetches(e))
      ensures r == -1 && SelectHitBy(old(chans), c, e, selectOwner) >= 0 ==>
                var o := Registration(c, ReceiverOut(old(chans)[c], e).value);
                SelectHit(chans, selects[selectOwner[o].0], selectOwner[o].1, HandedBy(e))
    {
      SendsAfter(chans, c, e, sends, sendOwner, s);
      SelectsAfter(chans, c, e, selects, selectOwner, r);
      EventInOrder(Now(), c, e, s, r);
      StepExtends(chans[c], e);
      chans := After(chans, c, e);
    }

    /** An event that disturbs no group. */
    method ChangeAlone(c: nat, e: Event)
      requires Valid() && c < |chans| && (c in listened || Courteous(chans[c], e)) && (e.Listen? ==> !Dead(chans[c])) && !e.EndDrain?
      requires HitsNobody(chans, c, e, sendOwner, selectOwner)
      modifies this`chans
      ensures chans == After(old(chans), c, e) && Valid() && Grows()
    {
      assert SendHitBy(chans, c, e, sendOwner) == -1 == SelectHitBy(chans, c, e, selectOwner);
      Change(c, e, -1, -1);
    }

    /** Takes registration i of a group send out of its channel's queue if it is still linked. */
    method UnlinkSend(g: nat, i: nat, ghost hit: int, ghost through: bool)
      requires ValidBut(g, -1) && g < |sends| && SendSpread(chans, sends[g].regs, sends[g].value, hit, through) && i < |sends[g].regs|
      modifies this`chans
      ensures ValidBut(g, -1) && SendSpread(chans, sends[g].regs, sends[g].value, hit, through)
      ensures NoLonger(old(chans), chans) && AllExtend(old(chans), chans)
      ensures forall k :: 0 <= k < |sends[g].regs| ==> (LinkedSend(chans, sends[g].regs[k]) <==> LinkedSend(old(chans), sends[g].regs[k]) && k != i)
    {
      var regs := sends[g].regs;
      LoseSend(chans, regs, sends[g].value, i, hit, through);
      OwnSendHit(chans, sends, sendOwner, selectOwner, g, i);
      Change(regs[i].member, Retract(regs[i].ticket), g, -1);
    }

    /** The clean-up loop of a resumed group send (src/channel.c:1191-1199). */
    method UnlinkSends(g: nat, ghost hit: int, ghost through: bool)
      requires ValidBut(g, -1) && g < |sends| && SendSpread(chans, sends[g].regs, sends[g].value, hit, through)
      modifies this`chans
      ensures ValidBut(g, -1) && SendSpread(chans, sends[g].regs, sends[g].value, hit, through)
      ensures NoLonger(old(chans), chans) && AllExtend(old(chans), chans)
      ensures forall k :: 0 <= k < |sends[g].regs| ==> !LinkedSend(chans, sends[g].regs[k])
    {
      for i := 0 to |sends[g].regs|
        invariant ValidBut(g, -1) && SendSpread(chans, sends[g].regs, sends[g].value, hit, through)
        invariant NoLonger(old(chans), chans) && AllExtend(old(chans), chans)
        invariant forall k :: 0 <= k < i ==> !LinkedSend(chans, sends[g].regs[k])
      {
        ghost var before := chans;
        UnlinkSend(g, i, hit, through);
        AllExtendTrans(old(chans), before, chans);
        NoLongerTrans(old(chans), before, chans);
      }
    }

    /** Takes registration i of a group select out of its channel's queue if it is still linked. */
    method UnlinkSelect(g: nat, i: nat, ghost hit: int, ghost v: Option<Value>)
      requires ValidBut(-1, g) && g < |selects| && SelectSpread(chans, selects[g].regs, hit, v) && i < |selects[g].regs|
      modifies this`chans
      ensures ValidBut(-1, g) && SelectSpread(chans, selects[g].regs, hit, v)
      ensures NoLonger(old(chans), chans) && AllExtend(old(chans), chans)
      ensures forall k :: 0 <= k < |selects[g].regs| ==> (LinkedSelect(chans, selects[g].regs[k]) <==> LinkedSelect(old(chans), selects[g].regs[k]) && k != i)
    {
      var regs := selects[g].regs;
      LoseSelect(chans, regs, i, hit, v);
      OwnSelectHit(chans, selects, selectOwner, sendOwner, g, i);
      Change(regs[i].member, Unqueue(regs[i].ticket), -1, g);
    }

    /** The clean-up loop of a resumed group select (src/channel.c:945-956). */
    method UnlinkSelects(g: nat, ghost hit: int, ghost v: Option<Value>)
      requires ValidBut(-1, g) && g < |selects| && SelectSpread(chans, selects[g].regs, hit, v)
      modifies this`chans
      ensures ValidBut(-1, g) && SelectSpread(chans, selects[g].regs, hit, v)
      ensures NoLonger(old(chans), chans) && AllExtend(old(chans), chans)
      ensures forall k :: 0 <= k < |selects[g].regs| ==> !LinkedSelect(chans, selects[g].regs[k])
    {
      for i := 0 to |selects[g].regs|
        invariant ValidBut(-1, g) && SelectSpread(chans, selects[g].regs, hit, v)
        invariant NoLonger(old(chans), chans) && AllExtend(old(chans), chans)
        invariant forall k :: 0 <= k < i ==> !LinkedSelect(chans, selects[g].regs[k])
      {
        ghost var before := chans;
        UnlinkSelect(g, i, hit, v);
        AllExtendTrans(old(chans), before, chans);
        NoLongerTrans(old(chans), before, chans);
      }
    }

    /** The task of a group send that ends as t says unlinks every registration. */
    method EndSendAs(g: nat, t: GroupSend)
      requires ValidBut(g, -1) && g < |sends| && !sends[g].Settled()
      requires t.regs == sends[g].regs && t.value == sends[g].value && SendMayEnd(chans, t)
      modifies this`chans, this`sends
      ensures Valid() && Grows() && NoLonger(old(chans), chans)
      ensures sends == old(sends)[g := t]
    {
      UnlinkSends(g, Hit(t.report), GotThrough(t.report));
      SendEndInOrder(Now(), g, t);
      GrownBySend(old(chans), sends, selects, chans, g, t);
      sends := sends[g := t];
    }

    /** The group send ends as t says: its task is resumed on the spot and unlinks every registration
        before it, or anybody else, can reach the member channels. */
    method SettleSend(g: nat, t: GroupSend, script: seq<Act>) returns (rest: seq<Act>)
      requires ValidBut(g, -1) && g < |sends| && !sends[g].Settled()
      requires t.regs == sends[g].regs && t.value == sends[g].value && SendMayEnd(chans, t)
      modifies this
      decreases |script|, 2
      ensures Valid() && Grows()
      ensures g < |sends| && sends[g] == t
      ensures if script == [] then rest == [] && NoLonger(old(chans), chans) else |rest| < |script|
    {
      EndSendAs(g, t);
      ghost var c, s, r := chans, sends, selects;
      rest := Others(script);
      GrownTrans(old(chans), old(sends), old(selects), c, s, r, chans, sends, selects);
    }

    /** The task of a group select that ends as t says unlinks what is left. */
    method EndSelectAs(g: nat, t: GroupSelect)
      requires ValidBut(-1, g) && g < |selects| && !selects[g].settled
      requires t.regs == selects[g].regs && MayEnd(chans, t)
      modifies this`chans, this`selects
      ensures Valid() && Grows() && NoLonger(old(chans), chans)
      ensures selects == old(selects)[g := t]
    {
      UnlinkSelects(g, Winner(t), t.value);
      SelectEndInOrder(Now(), g, t);
      GrownBySelect(old(chans), sends, selects, chans, g, t);
      selects := selects[g := t];
    }

    /** The group select ends as t says; its task unlinks what is left at once. */
    method SettleSelect(g: nat, t: GroupSelect, script: seq<Act>) returns (rest: seq<Act>)
      requires ValidBut(-1, g) && g < |selects| && !selects[g].settled
      requires t.regs == selects[g].regs && MayEnd(chans, t)
      modifies this
      decreases |script|, 2, 0
      ensures Valid() && Grows()
      ensures g < |selects| && selects[g] == t
      ensures if script == [] then rest == [] && NoLonger(old(chans), chans) else |rest| < |script|
    {
      EndSelectAs(g, t);
      ghost var c, s, r := chans, sends, selects;
      rest := Others(script);
      GrownTrans(old(chans), old(sends), old(selects), c, s, r, chans, sends, selects);
    }

    /** continue_send_cb (src/channel.c:993-1038) for registration k of group send g, which was just
        taken out of its channel's queue: failed with the channel's error, fetched (through), or
        finished by a close without error. */
    method ContinueSend(g: nat, k: nat, failed: bool, through: bool, script: seq<Act>) returns (rest: seq<Act>)
      requires ValidBut(g, -1) && g < |sends| && SendHit(chans, sends[g], k, through)
      requires (failed ==> !through) && (through || chans[sends[g].regs[k].member].closed)
      modifies this
      decreases |script|, 3
      ensures Valid() && Grows()
      ensures var s := old(chans)[old(sends)[g].regs[k].member];
              sends[g] == old(sends)[g].(report := if failed then Failed(k) else if s.closed then Refused(k, through) else TakenBy(k))
      ensures if script == [] then rest == [] && NoLonger(old(chans), chans) else |rest| < |script|
    {
      var s := chans[sends[g].regs[k].member];
      var report := if failed then Failed(k) else if s.closed then Refused(k, through) else TakenBy(k);
      rest := SettleSend(g, sends[g].(report := report), script);
    }

    /** continue_select_cb (src/channel.c:764-799) for registration k of group select g, which was just
        taken out of its channel's queue. A message ends the select with this entry; so does an
        error. Otherwise it ends exactly when no member is left that is linked or open. */
    method ContinueSelect(g: nat, k: nat, message: Option<Value>, script: seq<Act>) returns (rest: seq<Act>)
      requires ValidBut(-1, g) && g < |selects| && SelectHit(chans, selects[g], k, message)
      requires message.Some? <==> !chans[selects[g].regs[k].member].closed
      requires message.None? ==> !Late(chans, selects[g].regs[k])
      modifies this
      decreases |script|, 3
      ensures Valid() && Grows()
      ensures var s, t := old(chans)[old(selects)[g].regs[k].member], old(selects)[g].(pending := old(selects)[g].pending - 1);
              if message.Some? || s.error.Some? then selects[g] == t.(settled := true, entry := Some(k), value := message)
              else if NobodyLeft(old(chans), t.regs) then selects[g] == t.(settled := true, entry := None, value := None)
              else selects[g] == t && !t.settled && rest == script && chans == old(chans)
      ensures SelectTold(old(selects)[g], selects[g], k, old(chans)[old(selects)[g].regs[k].member].error, message)
      ensures |rest| < |script| || (rest == script && NoLonger(old(chans), chans))
    {
      var s := chans[selects[g].regs[k].member];
      var t := selects[g].(pending := selects[g].pending - 1);
      if s.error.Some? || !s.closed {
        HitMayEnd(chans, selects[g], k, message);
        rest := SettleSelect(g, t.(settled := true, entry := Some(k), value := message), script);
      } else {
        rest := LoseMember(g, k, script);
      }
    }

    /** The member of registration k closed without error. */
    method LoseMember(g: nat, k: nat, script: seq<Act>) returns (rest: seq<Act>)
      requires ValidBut(-1, g) && g < |selects| && SelectHit(chans, selects[g], k, None)
      requires ShutDown(chans, selects[g].regs[k]) && !Late(chans, selects[g].regs[k])
      modifies this
      decreases |script|, 2, 1
      ensures Valid() && Grows()
      ensures var t := old(selects)[g].(pending := old(selects)[g].pending - 1);
              if NobodyLeft(old(chans), t.regs) then selects[g] == t.(settled := true, entry := None, value := None)
              else selects[g] == t && rest == script && chans == old(chans)
      ensures |rest| < |script| || (rest == script && NoLonger(old(chans), chans))
    {
      var t := selects[g].(pending := selects[g].pending - 1);
      LastOne(chans, selects[g], k);
      if t.pending == 0 {
        NobodyMayEnd(chans, selects[g], k);
        rest := SettleSelect(g, t.(settled := true, entry := None, value := None), script);
      } else {
        GoOn(g, k);
        rest := script;
      }
    }

    method GoOn(g: nat, ghost k: nat)
      requires ValidBut(-1, g) && g < |selects| && SelectHit(chans, selects[g], k, None)
      requires ShutDown(chans, selects[g].regs[k]) && !Late(chans, selects[g].regs[k]) && selects[g].pending > 1
      modifies this`selects
      ensures Valid() && Grows() && selects == old(selects)[g := old(selects)[g].(pending := old(selects)[g].pending - 1)]
    {
      SelectOnInOrder(Now(), g, k);
      GrownBySelect(chans, sends, selects, chans, g, selects[g].(pending := selects[g].pending - 1));
      selects := selects[g := selects[g].(pending := selects[g].pending - 1)];
    }

    /** One channel event, then the callback of the operation it takes out of a queue. */
    method Advance(c: nat, e: Event, script: seq<Act>) returns (rest: seq<Act>)
      requires Valid() && c < |chans|
      requires e.Send? || e.Fetch? || e.Poll? || e.DrainSender? || e.DrainReceiver?
      modifies this
      decreases |script|, 5, 0
      ensures Valid() && Grows() && AllExtend(After(old(chans), c, e), chans)
      ensures |rest| < |script| || (rest == script && NoLonger(After(old(chans), c, e), chans))
      ensures SenderOut(old(chans)[c], e).None? && ReceiverOut(old(chans)[c], e).None? ==> chans == After(old(chans), c, e) && rest == script
      ensures SenderOut(old(chans)[c], e).Some? ==>
                SenderTold(Registration(c, SenderOut(old(chans)[c], e).value), old(chans)[c].closed, e.DrainSender? && old(chans)[c].error.Some?,
                           e.Fetch? || e.Poll?, old(sendOwner), old(sends), sends)
      ensures SenderOut(old(chans)[c], e).None? && ReceiverOut(old(chans)[c], e).Some? ==>
                ReceiverTold(Registration(c, ReceiverOut(old(chans)[c], e).value), old(chans)[c].error,
                             if e.Send? then Some(e.value) else None, old(selectOwner), old(selects), selects)
    {
      StepExtends(chans[c], e);
      ghost var between := After(chans, c, e);
      assert AllExtend(chans, between);
      rest := TakeStep(c, e, script);
      GrownTrans(old(chans), old(sends), old(selects), between, old(sends), old(selects), chans, sends, selects);
    }

    method TakeStep(c: nat, e: Event, script: seq<Act>) returns (rest: seq<Act>)
      requires Valid() && c < |chans|
      requires e.Send? || e.Fetch? || e.Poll? || e.DrainSender? || e.DrainReceiver?
      modifies this
      decreases |script|, 4, 2
      ensures Valid() && Grown(After(old(chans), c, e), old(sends), old(selects), chans, sends, selects)
      ensures |rest| < |script| || (rest == script && NoLonger(After(old(chans), c, e), chans))
      ensures SenderOut(old(chans)[c], e).None? && ReceiverOut(old(chans)[c], e).None? ==> chans == After(old(chans), c, e) && rest == script
      ensures SenderOut(old(chans)[c], e).Some? ==>
                SenderTold(Registration(c, SenderOut(old(chans)[c], e).value), old(chans)[c].closed, e.DrainSender? && old(chans)[c].error.Some?,
                           e.Fetch? || e.Poll?, old(sendOwner), old(sends), sends)
      ensures SenderOut(old(chans)[c], e).None? && ReceiverOut(old(chans)[c], e).Some? ==>
                ReceiverTold(Registration(c, ReceiverOut(old(chans)[c], e).value), old(chans)[c].error,
                             if e.Send? then Some(e.value) else None, old(selectOwner), old(selects), selects)
    {
      StepReceivers(chans[c], e);
      if SenderOut(chans[c], e).Some? {
        rest := TakeSender(c, e, script);
      } else if ReceiverOut(chans[c], e).Some? {
        rest := TakeReceiver(c, e, script);
      } else {
        rest := script;
        Change(c, e, -1, -1);
      }
    }

    method TakeSender(c: nat, e: Event, script: seq<Act>) returns (rest: seq<Act>)
      requires Valid() && c < |chans| && SenderOut(chans[c], e).Some? && ReceiverOut(chans[c], e).None?
      requires e.Fetch? || e.Poll? || e.DrainSender?
      modifies this
      decreases |script|, 4, 1
      ensures Valid() && Grown(After(old(chans), c, e), old(sends), old(selects), chans, sends, selects)
      ensures |rest| < |script| || (rest == script && NoLonger(After(old(chans), c, e), chans))
      ensures SenderTold(Registration(c, SenderOut(old(chans)[c], e).value), old(chans)[c].closed, e.DrainSender? && old(chans)[c].error.Some?,
                           e.Fetch? || e.Poll?, old(sendOwner), old(sends), sends)
    {
      StepKeepsEnd(chans[c], e);
      var sender := SenderOut(chans[c], e).value;
      Change(c, e, -1, -1);
      rest := FinishSender(Registration(c, sender), e.DrainSender? && chans[c].error.Some?, Fetches(e), script);
    }

    method TakeReceiver(c: nat, e: Event, script: seq<Act>) returns (rest: seq<Act>)
      requires Valid() && c < |chans| && SenderOut(chans[c], e).None? && ReceiverOut(chans[c], e).Some?
      requires e.Send? || e.DrainReceiver?
      modifies this
      decreases |script|, 4, 1
      ensures Valid() && Grown(After(old(chans), c, e), old(sends), old(selects), chans, sends, selects)
      ensures |rest| < |script| || (rest == script && NoLonger(After(old(chans), c, e), chans))
      ensures ReceiverTold(Registration(c, ReceiverOut(old(chans)[c], e).value), old(chans)[c].error,
                             if e.Send? then Some(e.value) else None, old(selectOwner), old(selects), selects)
    {
      StepKeepsEnd(chans[c], e);
      var receiver := ReceiverOut(chans[c], e).value;
      Change(c, e, -1, -1);
      rest := FinishReceiver(Registration(c, receiver), HandedBy(e), script);
    }

    /** ASYNC_FINISH_OP on a sender that was just taken out of its queue. */
    method FinishSender(o: Registration, failed: bool, through: bool, script: seq<Act>) returns (rest: seq<Act>)
      requires ValidBut(if o in sendOwner then sendOwner[o].0 else -1, -1)
      requires o in sendOwner ==> SendHit(chans, sends[sendOwner[o].0], sendOwner[o].1, through)
      requires o.member < |chans| && (failed ==> !through) && (through || chans[o.member].closed)
      modifies this
      decreases |script|, 4, 0
      ensures Valid() && Grows()
      ensures if script == [] then rest == [] && NoLonger(old(chans), chans) else |rest| < |script|
      ensures SenderTold(o, old(chans)[o.member].closed, failed, through, old(sendOwner), old(sends), sends)
    {
      if o in sendOwner {
        rest := ContinueSend(sendOwner[o].0, sendOwner[o].1, failed, through, script);
      } else {
        rest := Others(script);
      }
    }

    /** ASYNC_RESOLVE_OP, ASYNC_FINISH_OP or ASYNC_FAIL_OP on a receiver that was just taken out. */
    method FinishReceiver(o: Registration, message: Option<Value>, script: seq<Act>) returns (rest: seq<Act>)
      requires ValidBut(-1, if o in selectOwner then selectOwner[o].0 else -1)
      requires o in selectOwner ==> SelectHit(chans, selects[selectOwner[o].0], selectOwner[o].1, message)
      requires o.member < |chans| && (message.Some? <==> !chans[o.member].closed) && (message.None? ==> !Late(chans, o))
      modifies this
      decreases |script|, 4, 0
      ensures Valid() && Grows()
      ensures |rest| < |script| || (rest == script && NoLonger(old(chans), chans))
      ensures ReceiverTold(o, old(chans)[o.member].error, message, old(selectOwner), old(selects), selects)
    {
      if o in selectOwner {
        rest := ContinueSelect(selectOwner[o].0, selectOwner[o].1, message, script);
      } else {
        rest := Others(script);
      }
    }

    /** Channel::close on a channel that groups may be waiting on (src/channel.c:420-440, 245-281). Nobody is
        left sending, and exactly those receive that registered when the receivers had been resumed
        and were not withdrawn since: selects, which pass over the buffered values it still holds. */
    method Close(c: nat, reason: Option<Error>, script: seq<Act>) returns (rest: seq<Act>)
      requires Valid() && c < |chans|
      modifies this
      decreases |script|, 7
      ensures Valid() && Grows() && |rest| <= |script|
      ensures chans[c].closed && chans[c].error == if old(chans)[c].closed then old(chans)[c].error else reason
      ensures old(chans)[c].closed ==> chans == old(chans) && rest == script
      ensures !old(chans)[c].closed ==> chans[c].senders == [] && chans[c].shut.Some?
      ensures !old(chans)[c].closed ==>
                forall t: nat :: Has(chans[c].receivers, t) <==> chans[c].shut.value <= t < |chans[c].waits| && t !in chans[c].left
      ensures !old(chans)[c].closed && (script == [] || old(chans)[c].buffer == []) ==> chans[c].receivers == []
    {
      rest := script;
      if chans[c].closed {
        return;
      }
      rest := CloseReceivers(c, reason, rest);
      ghost var d, s, r := chans, sends, selects;
      rest := DrainSenders(c, rest);
      GrownTrans(old(chans), old(sends), old(selects), d, s, r, chans, sends, selects);
      assert Tidy(chans[c]);
    }

    /** The flag goes up and the first loop of dispose_state resumes the receivers. */
    method CloseReceivers(c: nat, reason: Option<Error>, script: seq<Act>) returns (rest: seq<Act>)
      requires Valid() && c < |chans| && !chans[c].closed
      modifies this
      decreases |script|, 6, 2
      ensures Valid() && Grows() && |rest| <= |script|
      ensures chans[c].closed && chans[c].shut.Some? && chans[c].receivers == [] && chans[c].error == reason
      ensures old(chans)[c].buffer == [] ==> chans[c].buffer == []
    {
      rest := FirstLoop(c, reason, script);
      GrownOver(old(chans), old(sends), old(selects), chans, sends, selects, c);
      FirstLoopOver(c);
    }

    method FirstLoop(c: nat, reason: Option<Error>, script: seq<Act>) returns (rest: seq<Act>)
      requires Valid() && c < |chans| && !chans[c].closed
      modifies this
      decreases |script|, 6, 1
      ensures Valid() && Grows() && |rest| <= |script|
      ensures chans[c].closed && chans[c].shut.None? && chans[c].receivers == [] && chans[c].error == reason
      ensures old(chans)[c].buffer == [] ==> chans[c].buffer == []
    {
      CloseFlag(c, reason);
      ghost var d, s, r := chans, sends, selects;
      rest := DrainReceivers(c, script);
      GrownTrans(old(chans), old(sends), old(selects), d, s, r, chans, sends, selects);
    }

    method DrainReceivers(c: nat, script: seq<Act>) returns (rest: seq<Act>)
      requires Valid() && c < |chans| && chans[c].closed && chans[c].shut.None?
      modifies this
      decreases |script|, 6, 0
      ensures Valid() && Grows() && |rest| <= |script| && chans[c].receivers == []
      ensures chans[c].closed && chans[c].shut.None? && (old(chans)[c].buffer == [] ==> chans[c].buffer == [])
    {
      rest := script;
      while chans[c].receivers != []
        invariant Valid() && Grows() && |rest| <= |script|
        decreases |rest|, |chans[c].receivers|
      {
        ghost var d, s, r := chans, sends, selects;
        rest := DrainOne(c, DrainReceiver, rest);
        GrownTrans(old(chans), old(sends), old(selects), d, s, r, chans, sends, selects);
      }
    }

    method DrainSenders(c: nat, script: seq<Act>) returns (rest: seq<Act>)
      requires Valid() && c < |chans| && chans[c].closed
      modifies this
      decreases |script|, 6, 0
      ensures Valid() && Grows() && |rest| <= |script| && chans[c].senders == []
      ensures script == [] ==> |chans[c].receivers| <= |old(chans)[c].receivers|
    {
      rest := script;
      while chans[c].senders != []
        invariant Valid() && Grows() && |rest| <= |script|
        invariant script == [] ==> |chans[c].receivers| <= |old(chans)[c].receivers|
        decreases |rest|, |chans[c].senders|
      {
        ghost var d, s, r := chans, sends, selects;
        rest := DrainOne(c, DrainSender, rest);
        GrownTrans(old(chans), old(sends), old(selects), d, s, r, chans, sends, selects);
      }
    }

    /** One turn of either loop, seen from the start of the loop. */
    method DrainOne(c: nat, e: Event, script: seq<Act>) returns (rest: seq<Act>)
      requires Valid() && c < |chans| && chans[c].closed
      requires if e.DrainReceiver? then chans[c].receivers != [] && chans[c].shut.None? else e.DrainSender? && chans[c].senders != []
      modifies this
      decreases |script|, 5, 1
      ensures Valid() && Grows()
      ensures |rest| < |script| ||
              (rest == script
               && |chans[c].receivers| <= |old(chans)[c].receivers| - (if e.DrainReceiver? then 1 else 0)
               && |chans[c].senders| <= |old(chans)[c].senders| - (if e.DrainSender? then 1 else 0))
    {
      rest := Advance(c, e, script);
    }

    method CloseFlag(c: nat, reason: Option<Error>)
      requires Valid() && c < |chans| && !chans[c].closed
      modifies this`chans
      ensures Valid() && Grows() && chans[c].closed && chans[c].shut.None? && chans[c].buffer == old(chans)[c].buffer && chans[c].error == reason
    {
      assert Tidy(chans[c]);
      ChangeAlone(c, Event.Close(reason));
    }

    method FirstLoopOver(c: nat)
      requires Valid() && c < |chans| && chans[c].closed && chans[c].shut.None? && chans[c].receivers == []
      modifies this`chans
      ensures Valid() && chans == After(old(chans), c, EndDrain)
      ensures chans[c].closed && chans[c].shut.Some? && chans[c].receivers == [] && chans[c].buffer == old(chans)[c].buffer
    {
      EventInOrder(Now(), c, EndDrain, -1, -1);
      chans := After(chans, c, EndDrain);
    }

    /** A fresh ticket belongs to no group. */
    lemma FreshTickets(c: nat)
      requires Valid() && c < |chans|
      ensures Registration(c, |chans[c].offers|) !in sendOwner
      ensures Registration(c, |chans[c].waits|) !in selectOwner
    {
      forall r | r in sendOwner
        ensures r.member < |chans| && r.ticket < |chans[r.member].offers|
      {
        assert SendOk(chans, sends[sendOwner[r].0]);
      }
      forall w | w in selectOwner
        ensures w.member < |chans| && w.ticket < |chans[w.member].waits|
      {
        assert SelectOk(chans, selects[selectOwner[w].0]);
      }
    }

    /** What registering with one more member makes of a new group send, and of a new select. */
    lemma JoinsSend(c: nat, v: Value, regs: seq<Registration>)
      requires Valid() && c < |chans| && !chans[c].closed
      requires SendOk(chans, GroupSend(v, regs, Pending)) && Unowned(regs, sendOwner)
      ensures var more := regs + [Registration(c, |chans[c].offers|)];
              SendOk(After(chans, c, Offer(v)), GroupSend(v, more, Pending)) && Unowned(more, sendOwner)
    {
      FreshTickets(c);
      JoinSend(chans, regs, c, v);
    }

    lemma JoinsSelect(c: nat, it: nat, regs: seq<Registration>)
      requires Valid() && c < |chans| && !Dead(chans[c])
      requires AllLinked(chans, regs) && Unowned(regs, selectOwner) && LateWhenShut(chans, regs)
      ensures var more := regs + [Registration(c, |chans[c].waits|)];
              && AllLinked(After(chans, c, Listen(it)), more) && Unowned(more, selectOwner)
              && LateWhenShut(After(chans, c, Listen(it)), more)
      ensures SameChoice(chans, After(chans, c, Listen(it)))
    {
      FreshTickets(c);
      JoinSelect(chans, regs, c, it);
      ListenSameChoice(chans, c, it);
      assert Tidy(chans[c]);
      LateWhenShutMore(chans, After(chans, c, Listen(it)), regs, Registration(c, |chans[c].waits|));
    }

    /** Links one operation of a new group send. */
    method LinkSend(c: nat, v: Value, regs: seq<Registration>) returns (more: seq<Registration>)
      requires Valid() && c < |chans| && !chans[c].closed && !Writable(chans[c])
      requires SendOk(chans, GroupSend(v, regs, Pending)) && Unowned(regs, sendOwner)
      modifies this`chans
      ensures Valid() && chans == After(old(chans), c, Offer(v)) && AllExtend(old(chans), chans)
      ensures more == regs + [Registration(c, |old(chans)[c].offers|)]
      ensures SendOk(chans, GroupSend(v, more, Pending)) && Unowned(more, sendOwner)
    {
      JoinsSend(c, v, regs);
      more := regs + [Registration(c, |chans[c].offers|)];
      ChangeAlone(c, Offer(v));
    }

    method EnterSend(v: Value, regs: seq<Registration>) returns (g: nat)
      requires Valid() && SendOk(chans, GroupSend(v, regs, Pending)) && Unowned(regs, sendOwner)
      modifies this`sends, this`sendOwner
      ensures Valid() && g == |old(sends)| && sends == old(sends) + [GroupSend(v, regs, Pending)]
    {
      g := |sends|;
      NewSendInOrder(Now(), GroupSend(v, regs, Pending));
      sendOwner := Adopt(regs, sendOwner, g);
      sends := sends + [GroupSend(v, regs, Pending)];
    }

    /** A channel that holds something to take loses its laws when a select registers with it. */
    ghost method GiveUp(c: nat)
      requires Valid() && c < |chans|
      modifies this`listened
      ensures Valid() && GivenUp(old(listened), listened, chans) && (c in listened || !Available(chans[c]))
    {
      if Available(chans[c]) {
        listened := listened + {c};
      }
    }

    /** Links one operation of a new group select, whatever the channel holds. If it holds something to
        take, its laws are given up. */
    method LinkSelect(c: nat, it: nat, regs: seq<Registration>) returns (more: seq<Registration>)
      requires Valid() && c < |chans| && !Dead(chans[c])
      requires AllLinked(chans, regs) && Unowned(regs, selectOwner) && LateWhenShut(chans, regs)
      modifies this`chans, this`listened
      ensures Valid() && chans == After(old(chans), c, Listen(it)) && AllExtend(old(chans), chans)
      ensures more == regs + [Registration(c, |old(chans)[c].waits|)]
      ensures AllLinked(chans, more) && Unowned(more, selectOwner) && LateWhenShut(chans, more)
      ensures SameChoice(old(chans), chans)
      ensures GivenUp(old(listened), listened, old(chans))
    {
      JoinsSelect(c, it, regs);
      more := regs + [Registration(c, |chans[c].waits|)];
      GiveUp(c);
      ChangeAlone(c, Listen(it));
    }

    method EnterSelect(regs: seq<Registration>) returns (g: nat)
      requires Valid() && SelectOk(chans, GroupSelect(regs, |regs|, false, None, None, false)) && Unowned(regs, selectOwner)
      modifies this`selects, this`selectOwner
      ensures Valid() && g == |old(selects)| && selects == old(selects) + [GroupSelect(regs, |regs|, false, None, None, false)]
    {
      g := |selects|;
      NewSelectInOrder(Now(), GroupSelect(regs, |regs|, false, None, None, false));
      selectOwner := Adopt(regs, selectOwner, g);
      selects := selects + [GroupSelect(regs, |regs|, false, None, None, false)];
    }

    /** Links one operation per member (src/channel.c:1149-1162). */
    method LinkSends(members: seq<Member>, v: Value) returns (regs: seq<Registration>)
      requires Valid() && Joined(chans, members)
      requires forall k :: 0 <= k < |members| ==> !chans[members[k].channel].closed && !Writable(chans[members[k].channel])
      modifies this`chans
      ensures Valid() && AllExtend(old(chans), chans)
      ensures SendOk(chans, GroupSend(v, regs, Pending)) && Unowned(regs, sendOwner) && |regs| == |members|
      ensures forall k :: 0 <= k < |members| ==> regs[k].member == members[k].channel
    {
      regs := [];
      for i := 0 to |members|
        invariant Valid() && |regs| == i && Joined(chans, members) && |chans| == |old(chans)|
        invariant SendOk(chans, GroupSend(v, regs, Pending)) && Unowned(regs, sendOwner)
        invariant forall k :: 0 <= k < i ==> regs[k].member == members[k].channel
        invariant AllExtend(old(chans), chans)
        invariant forall d :: 0 <= d < |chans| ==> chans[d].closed == old(chans)[d].closed && Writable(chans[d]) == Writable(old(chans)[d])
      {
        ghost var before := chans;
        regs := LinkSend(members[i].channel, v, regs);
        AllExtendTrans(old(chans), before, chans);
      }
    }

    /** The group send waits on every member. */
    method RegisterSend(members: seq<Member>, v: Value) returns (g: nat)
      requires Valid() && Joined(chans, members)
      requires forall k :: 0 <= k < |members| ==> !chans[members[k].channel].closed && !Writable(chans[members[k].channel])
      modifies this
      ensures Valid() && Grows() && selects == old(selects)
      ensures g == |old(sends)| && |sends| == g + 1 && sends[g] == GroupSend(v, sends[g].regs, Pending) && |sends[g].regs| == |members|
      ensures forall k :: 0 <= k < |members| ==> sends[g].regs[k].member == members[k].channel
    {
      var regs := LinkSends(members, v);
      g := EnterSend(v, regs);
    }

    /** Links one operation per member (src/channel.c:901-914). */
    method LinkSelects(members: seq<Member>) returns (regs: seq<Registration>)
      requires Valid() && Joined(chans, members)
      requires forall k :: 0 <= k < |members| ==> !Dead(chans[members[k].channel])
      modifies this`chans, this`listened
      ensures Valid() && AllExtend(old(chans), chans)
      ensures AllLinked(chans, regs) && Unowned(regs, selectOwner) && |regs| == |members|
      ensures Listening(chans, regs, members)
      ensures LateWhenShut(chans, regs) && SameChoice(old(chans), chans)
      ensures GivenUp(old(listened), listened, old(chans))
    {
      regs := [];
      for i := 0 to |members|
        invariant Valid() && |regs| == i && Joined(chans, members)
        invariant AllLinked(chans, regs) && Unowned(regs, selectOwner) && LateWhenShut(chans, regs)
        invariant Listening(chans, regs, members)
        invariant AllExtend(old(chans), chans) && SameChoice(old(chans), chans)
        invariant GivenUp(old(listened), listened, old(chans))
      {
        ghost var before, laws := chans, listened;
        ListeningMore(chans, regs, members);
        regs := LinkSelect(members[i].channel, members[i].it, regs);
        GivenUpMore(old(listened), laws, listened, old(chans), before);
        AllExtendTrans(old(chans), before, chans);
        SameChoiceTrans(old(chans), before, chans);
      }
    }

    /** The group select waits on every member and counts them. */
    method RegisterSelect(members: seq<Member>) returns (g: nat)
      requires Valid() && Joined(chans, members) && members != []
      requires forall k :: 0 <= k < |members| ==> !Dead(chans[members[k].channel])
      modifies this
      ensures Valid() && Grows() && sends == old(sends)
      ensures g == |old(selects)| && |selects| == g + 1 && Registered(old(chans), chans, selects[g], members)
      ensures Listening(chans, selects[g].regs, members)
      ensures GivenUp(old(listened), listened, old(chans))
    {
      var regs := LinkSelects(members);
      LinkedAll(chans, regs);
      BecomesRegistered(old(chans), chans, regs, members);
      g := EnterSelect(regs);
    }

    /** The scan in front of a group send (src/channel.c:1087-1119): the first member to complete on, or
        the first closed one. */
    method ScanSend(members: seq<Member>) returns (first: Option<nat>, closed: Option<nat>)
      requires Joined(chans, members)
      ensures closed.Some? ==> closed.value < |members| && chans[members[closed.value].channel].closed
      ensures closed.Some? ==> forall k :: 0 <= k < closed.value ==> !chans[members[k].channel].closed
      ensures closed.None? ==> forall k :: 0 <= k < |members| ==> !chans[members[k].channel].closed
      ensures closed.None? ==> first == FirstWritable(chans, members)
    {
      first, closed := None, None;
      for i := 0 to |members|
        invariant first == FirstWritable(chans, members[..i])
        invariant forall k :: 0 <= k < i ==> !chans[members[k].channel].closed
      {
        FirstWritableMore(chans, members, i);
        if first.None? && Writable(chans[members[i].channel]) {
          first := Some(i);
        }
        if chans[members[i].channel].closed {
          return first, Some(i);
        }
      }
      assert members[..|members|] == members;
    }

    /** The value goes to the first waiting receiver or into the buffer (src/channel.c:1122-1136). */
    method PassOn(c: nat, v: Value, script: seq<Act>) returns (rest: seq<Act>)
      requires Valid() && c < |chans| && !chans[c].closed && Writable(chans[c])
      modifies this
      decreases |script|, 6, 0
      ensures Valid() && Grows() && |rest| <= |script| && PassedOn(old(chans)[c], chans[c], v)
    {
      assert Tidy(chans[c]);
      SentReaches(chans[c], v);
      rest := Advance(c, Event.Send(v), script);
      ghost var s, e := old(chans)[c], Entry(|old(chans)[c].offers|, v);
      if s.receivers == [] {
        assert chans[c].buffer[|s.buffer|] == e;
      } else {
        assert chans[c].delivered[|s.delivered|].entry == e;
      }
    }

    /** ChannelGroup::send (src/channel.c:1046-1217) up to the point where a blocked caller is suspended. */
    method Send(members: seq<Member>, v: Value, patient: bool, script: seq<Act>) returns (r: Outcome, left: seq<Member>, rest: seq<Act>)
      requires Valid() && Joined(chans, members)
      modifies this
      decreases |script|, 7
      ensures Valid() && Grows() && |rest| <= |script|
      ensures r.Closed? <==> exists k :: 0 <= k < |members| && old(chans)[members[k].channel].closed
      ensures r.Closed? ==> DropsClosed(old(chans), members, left, r.failure) && rest == script && unchanged(this)
      ensures !r.Closed? ==> left == members
      ensures r.Done? ==> FirstWritable(old(chans), members) == Some(r.index) && r.value == v
      ensures r.Done? ==> var c := members[r.index].channel; PassedOn(old(chans)[c], chans[c], v)
      ensures r.Nothing? || r.Waiting? ==> FirstWritable(old(chans), members) == None && (r.Waiting? <==> members != [] && patient)
      ensures r.Waiting? ==>
                && r.group == |old(sends)| < |sends| && sends[r.group] == GroupSend(v, sends[r.group].regs, Pending) && |sends[r.group].regs| == |members|
                && forall k :: 0 <= k < |members| ==> sends[r.group].regs[k].member == members[k].channel
    {
      rest, left := script, members;
      var first, closed := ScanSend(members);
      if closed.Some? {
        assert ClosedFirst(chans, members, closed.value);
        return Closed(chans[members[closed.value].channel].error), members[..closed.value] + members[closed.value + 1..], rest;
      }
      if first.Some? {
        rest := PassOn(members[first.value].channel, v, script);
        return Done(first.value, v), left, rest;
      }
      if members == [] || !patient {
        return Nothing, left, rest;
      }
      var g := RegisterSend(members, v);
      return Waiting(g), left, rest;
    }

    /** One member of the scan in front of a group select that is not broken. */
    static method ScanOne(s: Chan, m: Member, before: seq<Member>, found: Option<nat>) returns (kept: seq<Member>, first: Option<nat>)
      ensures kept == if Dead(s) then before else before + [m]
      ensures first == if found.None? && ReadableNow(s) then Some(|before|) else found
    {
      kept, first := before, found;
      if ReadableNow(s) || !s.closed {
        if first.None? && ReadableNow(s) {
          first := Some(|kept|);
        }
        kept := kept + [m];
      }
    }

    /** The scan up to the first broken member. */
    static method ScanUntilBroken(states: seq<Chan>, members: seq<Member>) returns (kept: seq<Member>, first: Option<nat>, stop: nat)
      requires Joined(states, members)
      ensures stop <= |members| && kept == KeptUpTo(states, members, stop) && IsFirst(states, kept, first)
      ensures forall k :: 0 <= k < stop ==> !Broken(states[members[k].channel])
      ensures stop < |members| ==> Broken(states[members[stop].channel])
    {
      kept, first, stop := [], None, 0;
      while stop < |members| && !Broken(states[members[stop].channel])
        invariant stop <= |members| && kept == KeptUpTo(states, members, stop) && IsFirst(states, kept, first)
        invariant forall k :: 0 <= k < stop ==> !Broken(states[members[k].channel])
      {
        kept, first := ScanOne(states[members[stop].channel], members[stop], kept, first);
        stop := stop + 1;
      }
    }

    /** The scan in front of a group select (src/channel.c:851-879). A closed member that holds nothing is
        dropped from the entries, the later ones moving up; if it was closed with an error the scan
        stops there. */
    method ScanSelect(members: seq<Member>) returns (kept: seq<Member>, first: Option<nat>, error: Option<Error>)
      requires Joined(chans, members)
      ensures Joined(chans, kept)
      ensures error.None? ==> kept == Kept(chans, members) && first == FirstReadable(chans, kept)
      ensures error.None? ==> forall k :: 0 <= k < |members| ==> !Broken(chans[members[k].channel])
      ensures error.Some? ==> DropsBroken(chans, members, kept, error)
    {
      var stop;
      kept, first, stop := ScanUntilBroken(chans, members);
      if stop < |members| {
        KeptOfPrefix(chans, members[..stop], members, stop);
        assert BrokenFirst(chans, members, stop);
        kept, error := kept + members[stop + 1..], chans[members[stop].channel].error;
      } else {
        FirstIs(chans, kept, first);
        error := None;
      }
    }

    /** fetch_noblock on the member that looks readable, which has something to take. */
    method TakeFirst(c: nat, it: nat, script: seq<Act>) returns (v: Value, rest: seq<Act>)
      requires Valid() && c < |chans| && Available(chans[c])
      modifies this
      decreases |script|, 6, 0
      ensures Valid() && Grows() && |rest| <= |script|
      ensures var s := old(chans)[c];
              && v == (s.buffer + s.senders)[0].item
              && Extends(Step(s, Poll(it)), chans[c])
              && s.delivered + [Delivery((s.buffer + s.senders)[0], it, None)] <= chans[c].delivered
    {
      v := (chans[c].buffer + chans[c].senders)[0].item;
      rest := Advance(c, Poll(it), script);
    }

    /** ChannelGroup::select (src/channel.c:814-965) up to the point where a blocked caller is suspended. */
    method Select(members: seq<Member>, patient: bool, script: seq<Act>) returns (r: Outcome, kept: seq<Member>, rest: seq<Act>)
      requires Valid() && Joined(chans, members)
      modifies this
      decreases |script|, 7
      ensures Valid() && Grows() && |rest| <= |script|
      ensures r.Closed? <==> exists k :: 0 <= k < |members| && Broken(old(chans)[members[k].channel])
      ensures r.Closed? ==> DropsBroken(old(chans), members, kept, r.failure) && rest == script && unchanged(this)
      ensures !r.Closed? ==> kept == Kept(old(chans), members) && (r.Done? <==> PollSucceeds(old(chans), kept))
      ensures r.Done? ==> FirstReadable(old(chans), kept) == Some(r.index)
      ensures r.Done? ==>
                var s := old(chans)[kept[r.index].channel];
                && r.value == (s.buffer + s.senders)[0].item
                && Extends(Step(s, Poll(kept[r.index].it)), chans[kept[r.index].channel])
                && s.delivered + [Delivery((s.buffer + s.senders)[0], kept[r.index].it, None)] <= chans[kept[r.index].channel].delivered
      ensures r.Waiting? <==> MustWait(old(chans), members, patient)
      ensures r.Waiting? ==> r.group == |old(selects)| < |selects| && Registered(old(chans), chans, selects[r.group], kept) && Listening(chans, selects[r.group].regs, kept)
    {
      rest := script;
      var first, error;
      kept, first, error := ScanSelect(members);
      if error.Some? {
        return Closed(error), kept, rest;
      }
      if first.Some? && Available(chans[kept[first.value].channel]) {
        var v;
        v, rest := TakeFirst(kept[first.value].channel, kept[first.value].it, script);
        return Done(first.value, v), kept, rest;
      }
      if kept == [] || !patient {
        return Nothing, kept, rest;
      }
      KeptAlive(chans, members, |members|);
      var g := RegisterSelect(kept);
      return Waiting(g), kept, rest;
    }

    /** A waiting group send times out or is cancelled: it ends without an entry, all its registrations
        withdrawn (timeout_send_cb, src/channel.c:980-991, and src/channel.c:1177-1199). */
    method StopSend(g: nat, script: seq<Act>) returns (rest: seq<Act>)
      requires Valid() && g < |sends| && !sends[g].Settled()
      modifies this
      decreases |script|, 3
      ensures Valid() && Grows() && |rest| <= |script|
      ensures sends[g] == old(sends)[g].(report := GaveUp)
      ensures forall k :: 0 <= k < |sends[g].regs| ==> sends[g].regs[k].member < |chans| && GoneSend(chans, sends[g].regs[k])
    {
      rest := SettleSend(g, sends[g].(report := GaveUp), script);
      assert SendOk(chans, sends[g]);
    }

    /** The same for a group select (timeout_select, src/channel.c:801-808). */
    method StopSelect(g: nat, script: seq<Act>) returns (rest: seq<Act>)
      requires Valid() && g < |selects| && !selects[g].settled
      modifies this
      decreases |script|, 3
      ensures Valid() && Grows() && |rest| <= |script|
      ensures selects[g] == old(selects)[g].(settled := true, entry := None, value := None, stopped := true)
      ensures forall k :: 0 <= k < |selects[g].regs| ==> selects[g].regs[k].member < |chans| && LeftSelect(chans, selects[g].regs[k])
    {
      rest := SettleSelect(g, selects[g].(settled := true, entry := None, value := None, stopped := true), script);
      assert SelectOk(chans, selects[g]);
    }

    /** A single send or fetch that is blocked on a member channel is cancelled or times out, its
        operation belonging to no group; then other tasks run. */
    method Drop(c: nat, e: Event, script: seq<Act>) returns (rest: seq<Act>)
      requires Valid() && c < |chans| && (e.Retract? || e.Unqueue?) && HitsNobody(chans, c, e, sendOwner, selectOwner)
      modifies this
      decreases |script|, 3
      ensures Valid() && Grows() && |rest| <= |script| && AllExtend(After(old(chans), c, e), chans)
    {
      ChangeAlone(c, e);
      ghost var between := chans;
      rest := Others(script);
      GrownTrans(old(chans), old(sends), old(selects), between, old(sends), old(selects), chans, sends, selects);
    }

    method DropSend(c: nat, ticket: nat, script: seq<Act>) returns (rest: seq<Act>)
      requires Valid() && c < |chans| && Registration(c, ticket) !in sendOwner
      modifies this
      decreases |script|, 4
      ensures Valid() && Grows() && |rest| <= |script|
    {
      assert HitsNobody(chans, c, Retract(ticket), sendOwner, selectOwner);
      rest := Drop(c, Retract(ticket), script);
    }

    method DropFetch(c: nat, waiter: nat, script: seq<Act>) returns (rest: seq<Act>)
      requires Valid() && c < |chans| && Registration(c, waiter) !in selectOwner
      modifies this
      decreases |script|, 4
      ensures Valid() && Grows() && |rest| <= |script|
    {
      assert HitsNobody(chans, c, Unqueue(waiter), sendOwner, selectOwner);
      rest := Drop(c, Unqueue(waiter), script);
    }

    /** What another task may do with one channel; anything that names no channel is ignored. */
    method DoAlone(act: Act, script: seq<Act>) returns (rest: seq<Act>)
      requires Valid()
      modifies this
      decreases |script|, 8
      ensures Valid() && Grows() && |rest| <= |script|
    {
      rest := script;
      match act
      case DoSend(c, v) =>
        if c < |chans| && !chans[c].closed { rest := Advance(c, Event.Send(v), script); }
      case DoFetch(c, it) =>
        if c < |chans| { rest := Advance(c, Event.Fetch(it), script); }
      case DoClose(c, reason) =>
        if c < |chans| { rest := Close(c, reason, script); }
      case DropSender(c, t) =>
        if c < |chans| && Registration(c, t) !in sendOwner { rest := DropSend(c, t, script); }
      case DropReceiver(c, w) =>
        if c < |chans| && Registration(c, w) !in selectOwner { rest := DropFetch(c, w, script); }
      case _ =>
    }

    /** What another task may do; anything that names no channel or group is ignored. */
    method Do(act: Act, script: seq<Act>) returns (rest: seq<Act>)
      requires Valid()
      modifies this
      decreases |script|, 9
      ensures Valid() && Grows() && |rest| <= |script|
    {
      rest := script;
      match act
      case DoGroupSend(ms, v, patient) =>
        if Joined(chans, ms) { var _, _, more := Send(ms, v, patient, script); rest := more; }
      case DoSelect(ms, patient) =>
        if Joined(chans, ms) { var _, _, more := Select(ms, patient, script); rest := more; }
      case EndSend(g) =>
        if g < |sends| && !sends[g].Settled() { rest := StopSend(g, script); }
      case EndSelect(g) =>
        if g < |selects| && !selects[g].settled { rest := StopSelect(g, script); }
      case Back =>
      case _ => rest := DoAlone(act, script);
    }

    /** Tasks that run before control returns to the interrupted operation. */
    method Others(script: seq<Act>) returns (rest: seq<Act>)
      requires Valid()
      modifies this
      decreases |script|, 1
      ensures Valid() && Grows()
      ensures if script == [] then rest == [] && unchanged(this) else |rest| < |script|
    {
      rest := script;
      while rest != [] && !rest[0].Back?
        invariant Valid() && Grows() && |rest| <= |script|
        invariant script == [] ==> unchanged(this)
        decreases |rest|
      {
        ghost var d, s, r := chans, sends, selects;
        rest := Do(rest[0], rest[1..]);
        GrownTrans(old(chans), old(sends), old(selects), d, s, r, chans, sends, selects);
      }
      if rest != [] {
        rest := rest[1..];
      }
    }
  }
}
