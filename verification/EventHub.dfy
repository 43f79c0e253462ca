/** The activity feed: a bounded history, and subscribers that first replay a copy
    of it while new events are already being offered to them. */
module EventHub {
  const HISTORY := 300
  const CAPACITY := 32

  datatype Event = Event(time: nat, level: string, message: string)

  /** What is put into a channel. The publication index and the sender are
      provenance only: no operation looks at them. */
  datatype Sent = Sent(event: Event, index: int, live: bool)

  /** One channel with its replay goroutine and its reader. */
  datatype Sub = Sub(
    hist: seq<Event>,     // the copy taken by subscribe
    next: nat,            // how much of it has been sent
    replaying: bool,      // the goroutine is in its loop
    closed: bool,         // `done` is closed
    sent: seq<Sent>,      // everything ever put into the channel
    taken: nat,           // how much of that the reader has taken
    base: nat,            // events published before subscribe
    offered: nat,         // events published before the last offer
    dropped: set<int>)    // offers that found the channel full

  datatype State = State(published: seq<Event>, history: seq<Event>, clients: set<nat>, subs: map<nat, Sub>)

  function Recent(all: seq<Event>): seq<Event> {
    if |all| <= HISTORY then all else all[|all| - HISTORY..]
  }

  function First(c: Sub): int {
    c.base - |c.hist|
  }

  predicate Full(c: Sub) {
    |c.sent| >= c.taken + CAPACITY
  }

  // -------------------------------------------------------------------- steps

  /** A non-blocking send of the event with index n. */
  function Offered(c: Sub, e: Event, n: nat): Sub {
    if Full(c) then c.(offered := n + 1, dropped := c.dropped + {n})
    else c.(offered := n + 1, sent := c.sent + [Sent(e, n, true)])
  }

  predicate Publishes(s: State, t: State, e: Event) {
    && t.published == s.published + [e]
    && t.history == Recent(s.history + [e])
    && t.clients == s.clients && t.subs.Keys == s.subs.Keys
    && forall id | id in s.subs :: t.subs[id] == if id in s.clients then Offered(s.subs[id], e, |s.published|) else s.subs[id]
  }

  function Subscribed(s: State): Sub {
    Sub(s.history, 0, true, false, [], 0, |s.published|, |s.published|, {})
  }

  predicate Subscribes(s: State, t: State, id: nat) {
    id !in s.subs && t == s.(clients := s.clients + {id}, subs := s.subs[id := Subscribed(s)])
  }

  predicate Updates(s: State, t: State, id: nat, c: Sub) {
    id in s.subs && t == s.(subs := s.subs[id := c])
  }

  predicate CanReplay(c: Sub) {
    c.replaying && c.next < |c.hist| && !Full(c)
  }

  function Replayed(c: Sub): Sub
    requires CanReplay(c)
  {
    c.(sent := c.sent + [Sent(c.hist[c.next], First(c) + c.next, false)], next := c.next + 1)
  }

  /** The select may take this branch even when `done` is closed. */
  predicate Replays(s: State, t: State, id: nat) {
    id in s.subs && CanReplay(s.subs[id]) && Updates(s, t, id, Replayed(s.subs[id]))
  }

  predicate ReplayEnds(s: State, t: State, id: nat) {
    && id in s.subs && s.subs[id].replaying && (s.subs[id].closed || s.subs[id].next >= |s.subs[id].hist|)
    && Updates(s, t, id, s.subs[id].(replaying := false))
  }

  predicate Receives(s: State, t: State, id: nat) {
    && id in s.subs && s.subs[id].taken < |s.subs[id].sent|
    && Updates(s, t, id, s.subs[id].(taken := s.subs[id].taken + 1))
  }

  /** Cancelling closes `done` first and leaves the client map later. */
  predicate Closes(s: State, t: State, id: nat) {
    id in s.subs && Updates(s, t, id, s.subs[id].(closed := true))
  }

  predicate Leaves(s: State, t: State, id: nat) {
    id in s.subs && s.subs[id].closed && t == s.(clients := s.clients - {id})
  }

  predicate SubscriberStep(s: State, t: State, id: nat) {
    || Subscribes(s, t, id) || Replays(s, t, id) || ReplayEnds(s, t, id)
    || Receives(s, t, id) || Closes(s, t, id) || Leaves(s, t, id)
  }

  ghost predicate Next(s: State, t: State) {
    (exists e :: Publishes(s, t, e)) || (exists id :: SubscriberStep(s, t, id))
  }

  ghost predicate StepAt(run: seq<State>, i: nat)
    requires i + 1 < |run|
  {
    Next(run[i], run[i + 1])
  }

  /** Any interleaving of publishers, subscribers, replays, readers and cancels. */
  ghost predicate IsRun(run: seq<State>) {
    && run != [] && run[0] == State([], [], {}, map[])
    && forall i: nat {:trigger StepAt(run, i)} :: i + 1 < |run| ==> StepAt(run, i)
  }

  // ---------------------------------------------------------------- invariant

  /** The indices from lo up to hi. */
  ghost predicate Spans(s: set<int>, lo: int, hi: int) {
    forall k :: k in s <==> lo <= k < hi
  }

  function Indices(sent: seq<Sent>, live: bool): set<int> {
    set i | 0 <= i < |sent| && sent[i].live == live :: sent[i].index
  }

  predicate InOrder(sent: seq<Sent>, live: bool) {
    forall i, j :: 0 <= i < j < |sent| && sent[i].live == live && sent[j].live == live ==> sent[i].index < sent[j].index
  }

  predicate Genuine(sent: seq<Sent>, published: seq<Event>) {
    forall i :: 0 <= i < |sent| ==> 0 <= sent[i].index < |published| && published[sent[i].index] == sent[i].event
  }

  predicate Cursors(c: Sub, published: seq<Event>, listed: bool) {
    && c.base <= c.offered <= |published| && (listed ==> c.offered == |published|)
    && c.hist == Recent(published[..c.base]) && c.next <= |c.hist|
    && c.taken <= |c.sent| <= c.taken + CAPACITY
  }

  ghost predicate Accounted(c: Sub) {
    && Spans(Indices(c.sent, false), First(c), First(c) + c.next)
    && Spans(Indices(c.sent, true) + c.dropped, c.base, c.offered)
    && Indices(c.sent, true) !! c.dropped
    && InOrder(c.sent, false) && InOrder(c.sent, true)
  }

  ghost predicate SubInv(c: Sub, published: seq<Event>, listed: bool) {
    Cursors(c, published, listed) && Genuine(c.sent, published) && Accounted(c)
  }

  ghost predicate Inv(s: State) {
    && s.history == Recent(s.published)
    && s.clients <= s.subs.Keys
    && forall id | id in s.subs :: SubInv(s.subs[id], s.published, id in s.clients)
  }

  lemma OneMoreSent(sent: seq<Sent>, x: Sent, live: bool)
    ensures Indices(sent + [x], live) == Indices(sent, live) + (if x.live == live then {x.index} else {})
  {
    var more := sent + [x];
    assert more[|sent|] == x && forall i :: 0 <= i < |sent| ==> more[i] == sent[i];
    forall k | k in Indices(sent, live) ensures k in Indices(more, live) {
      var i :| 0 <= i < |sent| && sent[i].live == live && sent[i].index == k;
      assert more[i].index == k;
    }
  }

  lemma InOrderGrows(sent: seq<Sent>, x: Sent, live: bool)
    requires InOrder(sent, live) && (x.live == live ==> forall k | k in Indices(sent, live) :: k < x.index)
    ensures InOrder(sent + [x], live)
  {
    var more := sent + [x];
    forall i, j | 0 <= i < j < |more| && more[i].live == live && more[j].live == live ensures more[i].index < more[j].index {
      if j == |sent| {
        assert sent[i].index in Indices(sent, live);
      }
    }
  }

  lemma RecentOfRecent(all: seq<Event>, e: Event)
    ensures Recent(Recent(all) + [e]) == Recent(all + [e])
  {
  }

  lemma OfferedKeeps(c: Sub, published: seq<Event>, e: Event)
    requires SubInv(c, published, true)
    ensures SubInv(Offered(c, e, |published|), published + [e], true)
  {
    var n, d := |published|, Offered(c, e, |published|);
    assert (published + [e])[..c.base] == published[..c.base];
    if !Full(c) {
      OfferSent(c, Sent(e, n, true));
    }
  }

  lemma OfferSent(c: Sub, x: Sent)
    requires Accounted(c) && c.base <= c.offered == x.index && x.live
    ensures Accounted(c.(sent := c.sent + [x], offered := x.index + 1))
  {
    OneMoreSent(c.sent, x, true);
    OneMoreSent(c.sent, x, false);
    InOrderGrows(c.sent, x, true);
    InOrderGrows(c.sent, x, false);
  }

  lemma UnofferedKeeps(c: Sub, published: seq<Event>, e: Event)
    requires SubInv(c, published, false)
    ensures SubInv(c, published + [e], false)
  {
    assert (published + [e])[..c.base] == published[..c.base];
  }

  lemma ReplayedKeeps(c: Sub, published: seq<Event>, listed: bool)
    requires SubInv(c, published, listed) && CanReplay(c)
    ensures SubInv(Replayed(c), published, listed)
  {
    var k := First(c) + c.next;
    var x := Sent(c.hist[c.next], k, false);
    assert published[..c.base][k] == c.hist[c.next];
    ReplaySent(c, x);
  }

  lemma ReplaySent(c: Sub, x: Sent)
    requires Accounted(c) && CanReplay(c) && c.next < |c.hist| && x.index == First(c) + c.next && !x.live
    ensures Accounted(c.(sent := c.sent + [x], next := c.next + 1))
  {
    OneMoreSent(c.sent, x, true);
    OneMoreSent(c.sent, x, false);
    InOrderGrows(c.sent, x, true);
    InOrderGrows(c.sent, x, false);
  }

  lemma PublishKeeps(s: State, t: State, e: Event)
    requires Inv(s) && Publishes(s, t, e)
    ensures Inv(t)
  {
    RecentOfRecent(s.published, e);
    forall id | id in t.subs ensures SubInv(t.subs[id], t.published, id in t.clients) {
      if id in s.clients {
        OfferedKeeps(s.subs[id], s.published, e);
      } else {
        UnofferedKeeps(s.subs[id], s.published, e);
      }
    }
  }

  lemma NewSubscriber(s: State)
    requires s.history == Recent(s.published)
    ensures SubInv(Subscribed(s), s.published, true)
  {
    assert s.published[..|s.published|] == s.published;
  }

  /** Bookkeeping of one subscriber that its events do not depend on. */
  lemma CursorKeeps(c: Sub, d: Sub, published: seq<Event>, listed: bool)
    requires SubInv(c, published, listed)
    requires d == c.(replaying := d.replaying, closed := d.closed, taken := d.taken) && c.taken <= d.taken <= |c.sent|
    ensures SubInv(d, published, listed)
  {
  }

  lemma UpdateKeeps(s: State, t: State, id: nat, c: Sub)
    requires Inv(s) && Updates(s, t, id, c) && SubInv(c, s.published, id in s.clients)
    ensures Inv(t)
  {
  }

  lemma SubscriberKeeps(s: State, t: State, id: nat)
    requires Inv(s) && SubscriberStep(s, t, id)
    ensures Inv(t)
  {
    if Subscribes(s, t, id) {
      NewSubscriber(s);
    } else {
      var c, listed := s.subs[id], id in s.clients;
      assert SubInv(c, s.published, listed);
      if Leaves(s, t, id) {
        LeavingKeeps(s, t, id);
      } else if Replays(s, t, id) {
        ReplayedKeeps(c, s.published, listed);
        UpdateKeeps(s, t, id, Replayed(c));
      } else {
        CursorKeeps(c, t.subs[id], s.published, listed);
        UpdateKeeps(s, t, id, t.subs[id]);
      }
    }
  }

  lemma LeavingKeeps(s: State, t: State, id: nat)
    requires Inv(s) && Leaves(s, t, id)
    ensures Inv(t)
  {
  }

  lemma NextKeeps(s: State, t: State)
    requires Inv(s) && Next(s, t)
    ensures Inv(t)
  {
    if e :| Publishes(s, t, e) {
      PublishKeeps(s, t, e);
    } else {
      var id :| SubscriberStep(s, t, id);
      SubscriberKeeps(s, t, id);
    }
  }

  lemma {:induction false} Reachable(run: seq<State>, i: nat)
    requires IsRun(run) && i < |run|
    ensures Inv(run[i])
  {
    if i > 0 {
      Reachable(run, i - 1);
      assert StepAt(run, i - 1);
      NextKeeps(run[i - 1], run[i]);
    }
  }

  // ----------------------------------------------------------------- theorems

  lemma HistoryIsTheLast300(run: seq<State>, i: nat)
    requires IsRun(run) && i < |run|
    ensures var h, p := run[i].history, run[i].published;
            && |h| == (if |p| < HISTORY then |p| else HISTORY)
            && forall k :: 0 <= k < |h| ==> h[k] == p[|p| - |h| + k]
  {
    Reachable(run, i);
  }

  /** Replayed, still to replay, delivered live and dropped: together exactly the
      events from the start of the copy to the last offer, and no event twice. */
  lemma CopyAndOffersPartitionASuffix(run: seq<State>, i: nat, id: nat)
    requires IsRun(run) && i < |run| && id in run[i].subs
    ensures var c := run[i].subs[id];
            var replayed, live := Indices(c.sent, false), Indices(c.sent, true);
            && (forall k :: First(c) <= k < c.offered <==> k in replayed || First(c) + c.next <= k < c.base || k in live || k in c.dropped)
            && replayed !! live && replayed !! c.dropped && live !! c.dropped
            && First(c) == (if c.base < HISTORY then 0 else c.base - HISTORY)
            && (id in run[i].clients ==> c.offered == |run[i].published|)
  {
    Reachable(run, i);
    assert SubInv(run[i].subs[id], run[i].published, id in run[i].clients);
  }

  lemma NoEventTwice(run: seq<State>, i: nat, id: nat, a: nat, b: nat)
    requires IsRun(run) && i < |run| && id in run[i].subs && a < b < |run[i].subs[id].sent|
    ensures var sent := run[i].subs[id].sent;
            && sent[a].index != sent[b].index
            && 0 <= sent[a].index < |run[i].published| && run[i].published[sent[a].index] == sent[a].event
            && (sent[a].live == sent[b].live ==> sent[a].index < sent[b].index)
  {
    Reachable(run, i);
    SidesOfTheBase(run[i].subs[id], run[i].published, id in run[i].clients, a);
    SidesOfTheBase(run[i].subs[id], run[i].published, id in run[i].clients, b);
  }

  lemma SidesOfTheBase(c: Sub, published: seq<Event>, listed: bool, a: nat)
    requires SubInv(c, published, listed) && a < |c.sent|
    ensures c.sent[a].live <==> c.sent[a].index >= c.base
  {
    assert c.sent[a].index in Indices(c.sent, c.sent[a].live);
  }

  /** The channel is in publication order exactly when no live event got in before
      the replay was through. */
  lemma OrderedExactlyWhenReplayCameFirst(run: seq<State>, i: nat, id: nat)
    requires IsRun(run) && i < |run| && id in run[i].subs
    ensures var sent := run[i].subs[id].sent;
            (forall a, b :: 0 <= a < b < |sent| ==> sent[a].index < sent[b].index) <==>
            (forall a, b :: 0 <= a < b < |sent| && sent[a].live ==> sent[b].live)
  {
    Reachable(run, i);
    var c := run[i].subs[id];
    forall a | 0 <= a < |c.sent| ensures c.sent[a].live <==> c.sent[a].index >= c.base {
      SidesOfTheBase(c, run[i].published, id in run[i].clients, a);
    }
  }

  lemma DropsOnlyWhenFull(s: State, t: State, id: nat)
    requires Next(s, t) && id in s.subs
    ensures id in t.subs && (t.subs[id].dropped != s.subs[id].dropped ==> Full(s.subs[id]))
  {
    if e :| Publishes(s, t, e) {
      assert id in t.subs;
    } else {
      var other :| SubscriberStep(s, t, other);
      assert SubscriberStep(s, t, other);
    }
  }

  /** A reader that keeps up loses nothing. */
  lemma {:induction false} NothingDroppedWhileThereIsRoom(run: seq<State>, i: nat, id: nat)
    requires IsRun(run) && i < |run| && id in run[i].subs
    requires forall m :: 0 <= m < i && id in run[m].subs ==> !Full(run[m].subs[id])
    ensures run[i].subs[id].dropped == {}
  {
    if i > 0 {
      assert StepAt(run, i - 1);
      if id in run[i - 1].subs {
        NothingDroppedWhileThereIsRoom(run, i - 1, id);
        DropsOnlyWhenFull(run[i - 1], run[i], id);
      } else {
        NewcomersDroppedNothing(run[i - 1], run[i], id);
      }
    }
  }

  lemma NewcomersDroppedNothing(s: State, t: State, id: nat)
    requires Next(s, t) && id !in s.subs && id in t.subs
    ensures t.subs[id].dropped == {}
  {
    if e :| Publishes(s, t, e) {
      assert false;
    } else {
      var other :| SubscriberStep(s, t, other);
      assert SubscriberStep(s, t, other);
    }
  }

  /** Cancelled and with its replay over, a channel stays as it is. */
  lemma {:induction false} QuietAfterCancel(run: seq<State>, i: nat, n: nat, id: nat)
    requires IsRun(run) && i <= n < |run| && id in run[i].subs
    requires id !in run[i].clients && !run[i].subs[id].replaying
    ensures id in run[n].subs && id !in run[n].clients && !run[n].subs[id].replaying
    ensures run[n].subs[id].sent == run[i].subs[id].sent
    decreases n
  {
    if i < n {
      QuietAfterCancel(run, i, n - 1, id);
      assert StepAt(run, n - 1);
      QuietStep(run[n - 1], run[n], id);
    }
  }

  lemma QuietStep(s: State, t: State, id: nat)
    requires Next(s, t) && id in s.subs && id !in s.clients && !s.subs[id].replaying
    ensures id in t.subs && id !in t.clients && !t.subs[id].replaying && t.subs[id].sent == s.subs[id].sent
  {
    if e :| Publishes(s, t, e) {
      assert id in t.subs.Keys;
    } else {
      var other :| SubscriberStep(s, t, other);
      assert SubscriberStep(s, t, other);
    }
  }

  /** After leaving the client map, more can arrive exactly while the replay can
      still send: closing `done` alone does not silence a channel. */
  lemma CancelledMaySendExactlyWhileReplaying(s: State, id: nat)
    requires id in s.subs && id !in s.clients
    ensures (exists t :: Next(s, t) && id in t.subs && t.subs[id].sent != s.subs[id].sent) <==> CanReplay(s.subs[id])
  {
    if CanReplay(s.subs[id]) {
      var t := s.(subs := s.subs[id := Replayed(s.subs[id])]);
      assert Replays(s, t, id) && SubscriberStep(s, t, id);
      assert |t.subs[id].sent| == |s.subs[id].sent| + 1;
    }
    forall t | Next(s, t) && id in t.subs && t.subs[id].sent != s.subs[id].sent ensures CanReplay(s.subs[id]) {
      if e :| Publishes(s, t, e) {
        assert t.subs[id] == s.subs[id];
      } else {
        var other :| SubscriberStep(s, t, other);
        assert SubscriberStep(s, t, other);
      }
    }
  }

  // ------------------------------------------------------------------ the hub

  class Hub {
    var history: seq<Event>
    var clients: set<nat>
    var subs: map<nat, Sub>
    var published: seq<Event>  // provenance: names events by position

    function View(): State
      reads this
    {
      State(published, history, clients, subs)
    }

    ghost predicate Valid()
      reads this
    {
      Inv(View())
    }

    constructor ()
      ensures Valid() && View() == State([], [], {}, map[])
    {
      history, clients, subs, published := [], {}, map[], [];
    }

    method Publish(time: nat, level: string, message: string)
      requires Valid()
      modifies this
      ensures Valid() && Publishes(old(View()), View(), Event(time, level, message))
    {
      ghost var s := View();
      var e := Event(time, level, message);
      Append(e);
      OfferAll(e, |published|);
      published := published + [e];
      PublishKeeps(s, View(), e);
    }

    method Append(e: Event)
      modifies this`history
      ensures history == Recent(old(history) + [e])
    {
      history := history + [e];
      if |history| > HISTORY {
        history := history[|history| - HISTORY..];
      }
    }

    method OfferAll(e: Event, n: nat)
      requires clients <= subs.Keys
      modifies this`subs
      ensures subs.Keys == old(subs).Keys
      ensures forall id | id in subs :: subs[id] == if id in clients then Offered(old(subs)[id], e, n) else old(subs)[id]
    {
      var todo := clients;
      while todo != {}
        invariant todo <= clients && subs.Keys == old(subs).Keys
        invariant forall id | id in subs :: subs[id] == if id in clients && id !in todo then Offered(old(subs)[id], e, n) else old(subs)[id]
        decreases |todo|
      {
        var id :| id in todo;
        var c := TrySend(subs[id], e, n);
        subs := subs[id := c];
        todo := todo - {id};
      }
    }

    /** A select with a default branch. */
    static method TrySend(c: Sub, e: Event, n: nat) returns (d: Sub)
      ensures d == Offered(c, e, n)
    {
      if |c.sent| < c.taken + CAPACITY {
        d := c.(offered := n + 1, sent := c.sent + [Sent(e, n, true)]);
      } else {
        d := c.(offered := n + 1, dropped := c.dropped + {n});
      }
    }

    /** `id` stands for the channel just made. */
    method Subscribe(id: nat)
      requires Valid() && id !in subs
      modifies this
      ensures Valid() && Subscribes(old(View()), View(), id)
    {
      ghost var s := View();
      clients := clients + {id};
      subs := subs[id := Sub(history, 0, true, false, [], 0, |published|, |published|, {})];
      assert SubscriberStep(s, View(), id);
      SubscriberKeeps(s, View(), id);
    }

    /** One turn of the replay loop. With `done` closed and room in the channel the
        select may take either branch; with neither it waits. */
    method ReplayTurn(id: nat) returns (waits: bool)
      requires Valid() && id in subs && subs[id].replaying
      modifies this
      ensures Valid()
      ensures waits <==> old(subs[id].next < |subs[id].hist| && Full(subs[id]) && !subs[id].closed)
      ensures if waits then View() == old(View()) else Replays(old(View()), View(), id) || ReplayEnds(old(View()), View(), id)
      ensures old(CanReplay(subs[id]) && !subs[id].closed) ==> Replays(old(View()), View(), id)
    {
      ghost var s := View();
      var c := subs[id];
      var room := |c.sent| < c.taken + CAPACITY;
      waits := false;
      if c.next >= |c.hist| {
        c := c.(replaying := false);
      } else {
        var finish := *;
        if c.closed && (finish || !room) {
          c := c.(replaying := false);
        } else if room {
          c := c.(sent := c.sent + [Sent(c.hist[c.next], c.base - |c.hist| + c.next, false)], next := c.next + 1);
        } else {
          return true;
        }
      }
      subs := subs[id := c];
      assert SubscriberStep(s, View(), id);
      SubscriberKeeps(s, View(), id);
    }

    method Receive(id: nat) returns (e: Event)
      requires Valid() && id in subs && subs[id].taken < |subs[id].sent|
      modifies this
      ensures Valid() && Receives(old(View()), View(), id)
      ensures e == old(subs[id].sent[subs[id].taken].event)
    {
      ghost var s := View();
      var c := subs[id];
      e := c.sent[c.taken].event;
      subs := subs[id := c.(taken := c.taken + 1)];
      assert SubscriberStep(s, View(), id);
      SubscriberKeeps(s, View(), id);
    }

    /** The two halves of cancel; others may run in between. */
    method Close(id: nat)
      requires Valid() && id in subs
      modifies this
      ensures Valid() && Closes(old(View()), View(), id)
    {
      ghost var s := View();
      subs := subs[id := subs[id].(closed := true)];
      assert SubscriberStep(s, View(), id);
      SubscriberKeeps(s, View(), id);
    }

    method Leave(id: nat)
      requires Valid() && id in subs && subs[id].closed
      modifies this
      ensures Valid() && Leaves(old(View()), View(), id)
    {
      ghost var s := View();
      clients := clients - {id};
      assert SubscriberStep(s, View(), id);
      SubscriberKeeps(s, View(), id);
    }
  }
}
