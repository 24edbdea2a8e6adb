/** The quest list (`QuestUIManager`): one panel per shown quest, three
    clock dictionaries (start, remaining and finished time), the count-down
    that fails a quest whose time ran out, and the four-band ordering of
    the panels.

    `QuestManager` is queried, not owned: the quests it still tracks and
    the quests it lists as completed are parameters. The call the timer
    makes into it is returned as a `Call`. */
module QuestUI {
  import opened GameData
  import opened QuestItems
  import Tutorial

  // ------------------------------------------------------------ ordering

  datatype UIState = CompletedUnclaimed | Active | Finished

  /** `GetState`: a failed or claimed panel is finished; otherwise a quest
      the quest manager lists as completed waits for its claim. */
  function GetState(f: ItemFlags, isCompleted: bool): (s: UIState)
    ensures s == Finished <==> f.failed || f.claimed
    ensures s == CompletedUnclaimed <==> !f.failed && !f.claimed && isCompleted
    ensures s == Active <==> !f.failed && !f.claimed && !isCompleted
  {
    if f.failed || f.claimed then Finished
    else if isCompleted then CompletedUnclaimed
    else Active
  }

  /** The list `ReorderAll` puts a panel in, top to bottom: 0 completed and
      unclaimed, 1 active with a timer, 2 other active, 3 finished. */
  function Band(q: QuestData, f: ItemFlags, isCompleted: bool): (b: nat)
    ensures b <= 3
  {
    match GetState(f, isCompleted)
    case CompletedUnclaimed => 0
    case Active => if q.hasTimer && !f.failed then 1 else 2
    case Finished => 3
  }

  /** The three clock dictionaries. */
  datatype Times = Times(
    remaining: map<QuestData, real>,
    start: map<QuestData, real>,
    finished: map<QuestData, real>)

  /** A dictionary read with a default for a missing key. */
  function Lookup(m: map<QuestData, real>, q: QuestData, absent: real): (v: real)
    ensures q in m ==> v == m[q]
    ensures q !in m ==> v == absent
  {
    if q in m then m[q] else absent
  }

  /** The sort key of band `b`, smallest first: the remaining time (-1 when
      missing, as `GetRemainingTime` reports); the start time, newest
      first; the finished time, latest first (0 when missing). */
  function SortKey(b: nat, q: QuestData, t: Times): real
  {
    if b == 1 then Lookup(t.remaining, q, -1.0)
    else if b == 2 then -Lookup(t.start, q, 0.0)
    else -Lookup(t.finished, q, 0.0)
  }

  predicate SortedBy(s: seq<QuestData>, b: nat, t: Times)
  {
    forall i, j :: 0 <= i < j < |s| ==> SortKey(b, s[i], t) <= SortKey(b, s[j], t)
  }

  function Insert(x: QuestData, s: seq<QuestData>, b: nat, t: Times): (r: seq<QuestData>)
    requires SortedBy(s, b, t)
    ensures SortedBy(r, b, t)
    ensures multiset(r) == multiset(s) + multiset{x}
    decreases |s|
  {
    if s == [] then [x]
    else if SortKey(b, x, t) <= SortKey(b, s[0], t) then [x] + s
    else
      var rest := Insert(x, s[1..], b, t);
      InsertAfterHead(x, s, b, t, rest);
      [s[0]] + rest
  }

  /** Inserting behind the head of a sorted band keeps it sorted. */
  lemma InsertAfterHead(x: QuestData, s: seq<QuestData>, b: nat, t: Times, rest: seq<QuestData>)
    requires s != [] && SortedBy(s, b, t) && SortKey(b, s[0], t) < SortKey(b, x, t)
    requires SortedBy(rest, b, t) && multiset(rest) == multiset(s[1..]) + multiset{x}
    ensures SortedBy([s[0]] + rest, b, t)
    ensures multiset([s[0]] + rest) == multiset(s) + multiset{x}
  {
    assert s == [s[0]] + s[1..];
    var r := [s[0]] + rest;
    forall i, j | 0 <= i < j < |r|
      ensures SortKey(b, r[i], t) <= SortKey(b, r[j], t)
    {
      if i == 0 {
        var y := r[j];
        assert y == rest[j - 1];
        assert y in multiset(rest);
        if y != x {
          assert y in multiset(s[1..]);
          var k :| 0 <= k < |s[1..]| && s[1..][k] == y;
          assert s[k + 1] == y;
        }
      } else {
        assert r[i] == rest[i - 1] && r[j] == rest[j - 1];
      }
    }
  }

  /** The unstable `List.Sort` of one band: some ordering of the band by its
      key. Ties may come out in any order; this definition picks one. */
  function Sort(s: seq<QuestData>, b: nat, t: Times): (r: seq<QuestData>)
    ensures SortedBy(r, b, t)
    ensures multiset(r) == multiset(s)
    decreases |s|
  {
    if s == [] then []
    else
      assert s == s[..|s| - 1] + [s[|s| - 1]];
      Insert(s[|s| - 1], Sort(s[..|s| - 1], b, t), b, t)
  }

  /** The band of a panel given the flags of every shown panel (a panel
      without flags is never asked for: every key of the order has a
      panel). */
  function BandIn(q: QuestData, fl: map<QuestData, ItemFlags>, done: set<QuestData>): (b: nat)
    ensures b <= 3
  {
    if q in fl then Band(q, fl[q], q in done) else 2
  }

  /** The panels of `order` in band `b`, in key order: one of the four
      lists the grouping loop of `ReorderAll` fills. */
  function Group(order: seq<QuestData>, fl: map<QuestData, ItemFlags>, done: set<QuestData>, b: nat): (r: seq<QuestData>)
    ensures |r| <= |order|
    decreases |order|
  {
    if order == [] then []
    else
      var last := order[|order| - 1];
      Group(order[..|order| - 1], fl, done, b) + (if BandIn(last, fl, done) == b then [last] else [])
  }

  /** Every panel of a group is a panel of `order` in that band. */
  lemma {:induction false} GroupMembers(order: seq<QuestData>, fl: map<QuestData, ItemFlags>, done: set<QuestData>, b: nat)
    ensures forall q :: q in Group(order, fl, done, b) ==> q in order && BandIn(q, fl, done) == b
    decreases |order|
  {
    if order != [] {
      var init := order[..|order| - 1];
      GroupMembers(init, fl, done, b);
      assert order == init + [order[|order| - 1]];
    }
  }

  /** The bands of a panel order run top to bottom. */
  predicate BandOrdered(d: seq<QuestData>, fl: map<QuestData, ItemFlags>, done: set<QuestData>)
  {
    forall i, j :: 0 <= i < j < |d| ==> BandIn(d[i], fl, done) <= BandIn(d[j], fl, done)
  }

  /** What `ReorderAll` leaves as the panel order: every shown panel exactly
      once; the bands top to bottom; each sorted band in key order; and the
      completed-unclaimed band, which is not sorted, in key order of the
      dictionary. */
  predicate Arranged(d: seq<QuestData>, order: seq<QuestData>, fl: map<QuestData, ItemFlags>, done: set<QuestData>, t: Times)
  {
    && multiset(d) == multiset(order)
    && BandOrdered(d, fl, done)
    && (forall i, j :: 0 <= i < j < |d| && 0 < BandIn(d[i], fl, done) == BandIn(d[j], fl, done) ==>
          SortKey(BandIn(d[i], fl, done), d[i], t) <= SortKey(BandIn(d[j], fl, done), d[j], t))
    && Group(order, fl, done, 0) <= d
  }

  /** Adding one element to one of four parts adds it to their sum. */
  lemma AddToOne<T>(m: multiset<T>, m0: multiset<T>, m1: multiset<T>, m2: multiset<T>, m3: multiset<T>, x: T, b: nat)
    requires m == m0 + m1 + m2 + m3
    ensures b == 0 ==> m + multiset{x} == (m0 + multiset{x}) + m1 + m2 + m3
    ensures b == 1 ==> m + multiset{x} == m0 + (m1 + multiset{x}) + m2 + m3
    ensures b == 2 ==> m + multiset{x} == m0 + m1 + (m2 + multiset{x}) + m3
    ensures b == 3 ==> m + multiset{x} == m0 + m1 + m2 + (m3 + multiset{x})
  {
  }

  /** The four lists, each holding only its band and the middle three
      sorted, stacked in band order, form an arranged panel order. */
  lemma Stacked(d: seq<QuestData>, g0: seq<QuestData>, g1: seq<QuestData>, g2: seq<QuestData>, g3: seq<QuestData>,
                order: seq<QuestData>, fl: map<QuestData, ItemFlags>, done: set<QuestData>, t: Times)
    requires d == g0 + g1 + g2 + g3
    requires multiset(order) == multiset(g0) + multiset(g1) + multiset(g2) + multiset(g3)
    requires g0 == Group(order, fl, done, 0)
    requires forall x :: x in g0 ==> BandIn(x, fl, done) == 0
    requires forall x :: x in g1 ==> BandIn(x, fl, done) == 1
    requires forall x :: x in g2 ==> BandIn(x, fl, done) == 2
    requires forall x :: x in g3 ==> BandIn(x, fl, done) == 3
    requires SortedBy(g1, 1, t) && SortedBy(g2, 2, t) && SortedBy(g3, 3, t)
    ensures Arranged(d, order, fl, done, t)
  {
    assert d[..|g0|] == g0;
    forall i, j | 0 <= i < j < |d|
      ensures BandIn(d[i], fl, done) <= BandIn(d[j], fl, done)
      ensures 0 < BandIn(d[i], fl, done) == BandIn(d[j], fl, done) ==>
                SortKey(BandIn(d[i], fl, done), d[i], t) <= SortKey(BandIn(d[j], fl, done), d[j], t)
    {
      StackedAt(d, g0, g1, g2, g3, fl, done, i);
      StackedAt(d, g0, g1, g2, g3, fl, done, j);
    }
  }

  /** Where a position of four stacked lists comes from. */
  lemma StackedAt(d: seq<QuestData>, g0: seq<QuestData>, g1: seq<QuestData>, g2: seq<QuestData>, g3: seq<QuestData>,
                  fl: map<QuestData, ItemFlags>, done: set<QuestData>, i: int)
    requires d == g0 + g1 + g2 + g3 && 0 <= i < |d|
    requires forall x :: x in g0 ==> BandIn(x, fl, done) == 0
    requires forall x :: x in g1 ==> BandIn(x, fl, done) == 1
    requires forall x :: x in g2 ==> BandIn(x, fl, done) == 2
    requires forall x :: x in g3 ==> BandIn(x, fl, done) == 3
    ensures var c1 := |g0|; var c2 := c1 + |g1|; var c3 := c2 + |g2|;
            && BandIn(d[i], fl, done) == (if i < c1 then 0 else if i < c2 then 1 else if i < c3 then 2 else 3)
            && (c1 <= i < c2 ==> d[i] == g1[i - c1])
            && (c2 <= i < c3 ==> d[i] == g2[i - c2])
            && (c3 <= i ==> d[i] == g3[i - c3])
  {
    var c1 := |g0|;
    var c2 := c1 + |g1|;
    var c3 := c2 + |g2|;
    if i < c1 {
      assert d[i] == g0[i];
    } else if i < c2 {
      assert d[i] == g1[i - c1];
    } else if i < c3 {
      assert d[i] == g2[i - c2];
    } else {
      assert d[i] == g3[i - c3];
    }
  }

  /** Sequences with the same elements, counted, have the same members. */
  lemma MembersOf<T>(a: seq<T>, b: seq<T>)
    requires multiset(a) == multiset(b)
    ensures forall x :: x in a ==> x in b
  {
    forall x | x in a
      ensures x in b
    {
      assert x in multiset(a);
    }
  }

  /** What the grouping loop of `ReorderAll` has built after `i` keys. */
  ghost predicate Grouped(order: seq<QuestData>, fl: map<QuestData, ItemFlags>, done: set<QuestData>, i: int,
                          g0: seq<QuestData>, g1: seq<QuestData>, g2: seq<QuestData>, g3: seq<QuestData>)
  {
    && 0 <= i <= |order|
    && g0 == Group(order[..i], fl, done, 0)
    && (forall x :: x in g1 ==> BandIn(x, fl, done) == 1)
    && (forall x :: x in g2 ==> BandIn(x, fl, done) == 2)
    && (forall x :: x in g3 ==> BandIn(x, fl, done) == 3)
    && multiset(order[..i]) == multiset(g0) + multiset(g1) + multiset(g2) + multiset(g3)
  }

  /** One more key of `order`: the completed-unclaimed group and the
      counted elements grow by that key. */
  lemma PrefixExtends(order: seq<QuestData>, fl: map<QuestData, ItemFlags>, done: set<QuestData>, i: int)
    requires 0 <= i < |order|
    ensures Group(order[..i + 1], fl, done, 0)
            == Group(order[..i], fl, done, 0) + (if BandIn(order[i], fl, done) == 0 then [order[i]] else [])
    ensures multiset(order[..i + 1]) == multiset(order[..i]) + multiset{order[i]}
  {
    assert order[..i + 1] == order[..i] + [order[i]];
    assert order[..i + 1][..i] == order[..i];
  }

  /** One step of the grouping loop: the key goes to the list of its band. */
  lemma GroupedStep(order: seq<QuestData>, fl: map<QuestData, ItemFlags>, done: set<QuestData>, i: int,
                    g0: seq<QuestData>, g1: seq<QuestData>, g2: seq<QuestData>, g3: seq<QuestData>,
                    h0: seq<QuestData>, h1: seq<QuestData>, h2: seq<QuestData>, h3: seq<QuestData>)
    requires Grouped(order, fl, done, i, g0, g1, g2, g3) && i < |order|
    requires var q := order[i]; var b := BandIn(q, fl, done);
             && h0 == (if b == 0 then g0 + [q] else g0) && h1 == (if b == 1 then g1 + [q] else g1)
             && h2 == (if b == 2 then g2 + [q] else g2) && h3 == (if b == 3 then g3 + [q] else g3)
    ensures Grouped(order, fl, done, i + 1, h0, h1, h2, h3)
  {
    var q := order[i];
    var b := BandIn(q, fl, done);
    PrefixExtends(order, fl, done, i);
    AddToOne(multiset(order[..i]), multiset(g0), multiset(g1), multiset(g2), multiset(g3), q, b);
    if b == 0 {
      assert multiset(h0) == multiset(g0) + multiset{q};
    } else if b == 1 {
      assert multiset(h1) == multiset(g1) + multiset{q};
    } else if b == 2 {
      assert multiset(h2) == multiset(g2) + multiset{q};
    } else {
      assert multiset(h3) == multiset(g3) + multiset{q};
    }
  }

  /** The grouping loop of `ReorderAll`, then the three sorts and the
      sibling indices handed out list by list. */
  method Arrange(order: seq<QuestData>, fl: map<QuestData, ItemFlags>, done: set<QuestData>, t: Times)
    returns (d: seq<QuestData>)
    requires forall q :: q in order ==> q in fl
    ensures Arranged(d, order, fl, done, t)
  {
    var completedUnclaimed, activeTimed, activeNormal, finished := [], [], [], [];
    var i := 0;
    while i < |order|
      invariant Grouped(order, fl, done, i, completedUnclaimed, activeTimed, activeNormal, finished)
    {
      var q := order[i];
      ghost var before := (completedUnclaimed, activeTimed, activeNormal, finished);
      match GetState(fl[q], q in done) {
        case CompletedUnclaimed =>
          completedUnclaimed := completedUnclaimed + [q];
        case Active =>
          if q.hasTimer && !fl[q].failed {
            activeTimed := activeTimed + [q];
          } else {
            activeNormal := activeNormal + [q];
          }
        case Finished =>
          finished := finished + [q];
      }
      GroupedStep(order, fl, done, i, before.0, before.1, before.2, before.3,
                  completedUnclaimed, activeTimed, activeNormal, finished);
      i := i + 1;
    }
    assert order[..i] == order;
    GroupMembers(order, fl, done, 0);
    var timed := Sort(activeTimed, 1, t);
    var normal := Sort(activeNormal, 2, t);
    var ended := Sort(finished, 3, t);
    MembersOf(timed, activeTimed);
    MembersOf(normal, activeNormal);
    MembersOf(ended, finished);
    d := completedUnclaimed + timed + normal + ended;
    Stacked(d, completedUnclaimed, timed, normal, ended, order, fl, done, t);
  }

  // --------------------------------------------------------------- timers

  /** What the panel list holds for one quest: its panel and its three
      clock entries (`None` when the dictionary has no key). */
  datatype Entry = Entry(panel: Panel, start: Option<real>, remaining: Option<real>, finished: Option<real>)

  /** The panels with the three clock dictionaries. */
  datatype Board = Board(panels: map<QuestData, Panel>, clocks: Times)

  function Get(m: map<QuestData, real>, q: QuestData): (v: Option<real>)
    ensures v.Some? <==> q in m
    ensures q in m ==> v.value == m[q]
  {
    if q in m then Some(m[q]) else None
  }

  function Put(m: map<QuestData, real>, q: QuestData, v: Option<real>): (r: map<QuestData, real>)
    ensures Get(r, q) == v
    ensures forall k :: k in r ==> k == q || (k in m && r[k] == m[k])
    ensures forall k :: k in m && k != q ==> k in r
  {
    if v.Some? then m[q := v.value] else m - {q}
  }

  function EntryOf(b: Board, q: QuestData): Entry
    requires q in b.panels
  {
    Entry(b.panels[q], Get(b.clocks.start, q), Get(b.clocks.remaining, q), Get(b.clocks.finished, q))
  }

  function SetEntry(b: Board, q: QuestData, e: Entry): (r: Board)
    ensures q in r.panels && EntryOf(r, q) == e
    ensures r.panels.Keys == b.panels.Keys + {q}
    ensures forall k :: k in b.panels && k != q ==> EntryOf(r, k) == EntryOf(b, k)
  {
    Board(b.panels[q := e.panel],
          Times(Put(b.clocks.remaining, q, e.remaining), Put(b.clocks.start, q, e.start),
                Put(b.clocks.finished, q, e.finished)))
  }

  /** The timer loop counts `q` down: its panel is neither completed,
      claimed nor failed, the quest has a timer, and both a start and a
      remaining time are recorded. */
  predicate Counting(q: QuestData, e: Entry)
  {
    var f := e.panel.flags;
    !(f.completed || f.claimed || f.failed) && q.hasTimer && e.start.Some? && e.remaining.Some?
  }

  /** The count-down runs out this frame while the quest manager still
      tracks the quest: the quest fails. */
  predicate TimesOut(q: QuestData, e: Entry, dt: real, tracked: bool)
  {
    Counting(q, e) && e.remaining.value - dt <= 0.0 && tracked
  }

  /** One quest's turn in the timer loop of `Update`, with the
      `FailQuest` round trip: the quest manager calls back `MarkFailed`,
      which drops the remaining time and stamps the finished time once. */
  function StepEntry(q: QuestData, e: Entry, dt: real, now: real, tracked: bool): (r: Entry)
    ensures !Counting(q, e) ==> r == e
    ensures r.start == e.start && r.panel.progress == e.panel.progress
    ensures TimesOut(q, e, dt, tracked) ==>
              r.panel.flags == Apply(e.panel.flags, Fail) && r.panel.flags.failed && r.remaining == None
              && r.finished == (if e.finished.Some? then e.finished else Some(now))
    ensures Counting(q, e) && !TimesOut(q, e, dt, tracked) ==>
              r.panel == e.panel && r.finished == e.finished
              && r.remaining == Some(if e.remaining.value - dt <= 0.0 then 0.0 else e.remaining.value - dt)
  {
    if !Counting(q, e) then e
    else
      var left := e.remaining.value - dt;
      if left > 0.0 then e.(remaining := Some(left))
      else if !tracked then e.(remaining := Some(0.0))
      else Entry(StatusPanel(e.panel, Fail, q.requiredAmount), e.start, None,
                 if e.finished.Some? then e.finished else Some(now))
  }

  /** A quest the timer failed is not counted down again, so it fails only
      once. */
  lemma FailsOnce(q: QuestData, e: Entry, dt: real, now: real, tracked: bool, dt': real, now': real, tracked': bool)
    requires TimesOut(q, e, dt, tracked)
    ensures !Counting(q, StepEntry(q, e, dt, now, tracked))
    ensures StepEntry(q, StepEntry(q, e, dt, now, tracked), dt', now', tracked') == StepEntry(q, e, dt, now, tracked)
  {
  }

  /** One turn of the loop on the whole board. */
  function TickKey(q: QuestData, b: Board, dt: real, now: real, tracked: set<QuestData>): (r: (Board, seq<Call>))
    requires q in b.panels
    ensures r.0.panels.Keys == b.panels.Keys
    ensures forall k :: k in b.panels && k != q ==> EntryOf(r.0, k) == EntryOf(b, k)
    ensures r.1 != [] <==> TimesOut(q, EntryOf(b, q), dt, q in tracked)
    ensures r.1 != [] ==> r.1 == [FailQuest(q)]
  {
    var e := EntryOf(b, q);
    (SetEntry(b, q, StepEntry(q, e, dt, now, q in tracked)),
     if TimesOut(q, e, dt, q in tracked) then [FailQuest(q)] else [])
  }

  /** The timer loop over the panels in key order: the board it leaves and
      the `FailQuest` calls it makes. */
  function TickAll(ks: seq<QuestData>, b: Board, dt: real, now: real, tracked: set<QuestData>): (r: (Board, seq<Call>))
    requires forall k :: k in ks ==> k in b.panels
    ensures r.0.panels.Keys == b.panels.Keys
    decreases |ks|
  {
    if ks == [] then (b, [])
    else
      var last := ks[|ks| - 1];
      var before := TickAll(ks[..|ks| - 1], b, dt, now, tracked);
      var after := TickKey(last, before.0, dt, now, tracked);
      (after.0, before.1 + after.1)
  }

  /** Each listed quest gets exactly its own turn, computed from what it
      held before the loop; the other quests are untouched. */
  lemma {:induction false} TickAllEntry(ks: seq<QuestData>, b: Board, dt: real, now: real, tracked: set<QuestData>, q: QuestData)
    requires Distinct(ks) && (forall k :: k in ks ==> k in b.panels) && q in b.panels
    ensures EntryOf(TickAll(ks, b, dt, now, tracked).0, q)
            == if q in ks then StepEntry(q, EntryOf(b, q), dt, now, q in tracked) else EntryOf(b, q)
    decreases |ks|
  {
    if ks != [] {
      var init := ks[..|ks| - 1];
      var last := ks[|ks| - 1];
      assert ks == init + [last];
      assert last !in init;
      TickAllEntry(init, b, dt, now, tracked, q);
      if q == last {
        TickAllEntry(init, b, dt, now, tracked, last);
      }
    }
  }

  /** The calls of the timer loop are `FailQuest` for exactly the listed
      quests that time out, each once, in key order. */
  lemma {:induction false} TickAllCalls(ks: seq<QuestData>, b: Board, dt: real, now: real, tracked: set<QuestData>)
    requires Distinct(ks) && forall k :: k in ks ==> k in b.panels
    ensures forall c :: c in TickAll(ks, b, dt, now, tracked).1 ==> c.FailQuest? && c.timedOut in ks
    ensures forall q :: q in ks ==>
              (FailQuest(q) in TickAll(ks, b, dt, now, tracked).1 <==> TimesOut(q, EntryOf(b, q), dt, q in tracked))
    ensures |TickAll(ks, b, dt, now, tracked).1| <= |ks|
    decreases |ks|
  {
    if ks != [] {
      var init := ks[..|ks| - 1];
      var last := ks[|ks| - 1];
      assert ks == init + [last];
      assert last !in init;
      TickAllCalls(init, b, dt, now, tracked);
      TickAllEntry(init, b, dt, now, tracked, last);
    }
  }

  /** The loop over the first `i + 1` keys is the loop over the first `i`
      keys followed by the turn of key `i`. */
  lemma TickAllStep(ks: seq<QuestData>, i: nat, b: Board, dt: real, now: real, tracked: set<QuestData>)
    requires i < |ks| && forall k :: k in ks ==> k in b.panels
    ensures ks[i] in TickAll(ks[..i], b, dt, now, tracked).0.panels
    ensures var before := TickAll(ks[..i], b, dt, now, tracked);
            var turn := TickKey(ks[i], before.0, dt, now, tracked);
            TickAll(ks[..i + 1], b, dt, now, tracked) == (turn.0, before.1 + turn.1)
  {
    assert ks[..i + 1][..i] == ks[..i];
  }

  /** The timer loop after its first `i` turns: the board and calls of
      `TickAll` on those keys, the display untouched until something fails
      and band-ordered after. */
  ghost predicate Ticked(ks: seq<QuestData>, i: nat, b0: Board, dt: real, now: real, tracked: set<QuestData>,
                         done: set<QuestData>, b: Board, calls: seq<Call>, d: seq<QuestData>, d0: seq<QuestData>)
  {
    && i <= |ks|
    && (forall k :: k in ks ==> k in b0.panels)
    && (b, calls) == TickAll(ks[..i], b0, dt, now, tracked)
    && (calls == [] ==> d == d0)
    && (calls != [] ==> BandOrdered(d, FlagsOf(b.panels), done))
  }

  lemma TickedStep(ks: seq<QuestData>, i: nat, b0: Board, dt: real, now: real, tracked: set<QuestData>,
                   done: set<QuestData>, b: Board, calls: seq<Call>, d: seq<QuestData>, d0: seq<QuestData>,
                   b': Board, more: seq<Call>, d': seq<QuestData>)
    requires Ticked(ks, i, b0, dt, now, tracked, done, b, calls, d, d0) && i < |ks|
    requires ks[i] in b.panels && (b', more) == TickKey(ks[i], b, dt, now, tracked)
    requires more == [] ==> d' == d
    requires more != [] ==> BandOrdered(d', FlagsOf(b'.panels), done)
    ensures Ticked(ks, i + 1, b0, dt, now, tracked, done, b', calls + more, d', d0)
  {
    TickAllStep(ks, i, b0, dt, now, tracked);
    QuietTurn(ks[i], b, dt, now, tracked);
  }

  /** A turn that calls nothing leaves every panel as it was. */
  lemma QuietTurn(q: QuestData, b: Board, dt: real, now: real, tracked: set<QuestData>)
    requires q in b.panels
    ensures TickKey(q, b, dt, now, tracked).1 == [] ==> TickKey(q, b, dt, now, tracked).0.panels == b.panels
  {
    var e := EntryOf(b, q);
    if !TimesOut(q, e, dt, q in tracked) {
      assert StepEntry(q, e, dt, now, q in tracked).panel == b.panels[q];
    }
  }

  /** Removing a key forgets what was last written under it. */
  lemma RemoveOverride(m: map<QuestData, real>, q: QuestData, v: real)
    ensures m[q := v] - {q} == m - {q}
  {
  }

  /** Keeping a quest's own entry changes nothing. */
  lemma KeepEntry(b: Board, q: QuestData)
    requires q in b.panels
    ensures SetEntry(b, q, EntryOf(b, q)) == b
  {
    var r := SetEntry(b, q, EntryOf(b, q));
    assert r.clocks.remaining == b.clocks.remaining;
    assert r.clocks.start == b.clocks.start;
    assert r.clocks.finished == b.clocks.finished;
  }

  /** The turn of a quest that is not counted down. */
  lemma TickIdle(q: QuestData, b: Board, dt: real, now: real, tracked: set<QuestData>)
    requires q in b.panels && !Counting(q, EntryOf(b, q))
    ensures TickKey(q, b, dt, now, tracked) == (b, [])
  {
    KeepEntry(b, q);
  }

  /** The turn of a quest that is counted down and does not fail. */
  lemma TickCountDown(q: QuestData, b: Board, dt: real, now: real, tracked: set<QuestData>)
    requires q in b.panels && Counting(q, EntryOf(b, q))
    requires b.clocks.remaining[q] - dt > 0.0 || q !in tracked
    ensures var left := b.clocks.remaining[q] - dt;
            TickKey(q, b, dt, now, tracked)
            == (Board(b.panels, b.clocks.(remaining := b.clocks.remaining[q := if left <= 0.0 then 0.0 else left])), [])
  {
    KeepEntry(b, q);
  }

  /** The turn of a quest that times out. */
  lemma TickFail(q: QuestData, b: Board, dt: real, now: real, tracked: set<QuestData>)
    requires q in b.panels && Counting(q, EntryOf(b, q))
    requires b.clocks.remaining[q] - dt <= 0.0 && q in tracked
    ensures TickKey(q, b, dt, now, tracked)
            == (Board(b.panels[q := StatusPanel(b.panels[q], Fail, q.requiredAmount)],
                      Times(b.clocks.remaining - {q}, b.clocks.start,
                            if q in b.clocks.finished then b.clocks.finished else b.clocks.finished[q := now])),
                [FailQuest(q)])
  {
    KeepEntry(b, q);
  }

  /** What a restore call leaves in a clock dictionary: only a positive
      saved time is written back. */
  function Restored(m: map<QuestData, real>, q: QuestData, saved: real): (r: map<QuestData, real>)
    ensures saved > 0.0 ==> Lookup(r, q, -1.0) == saved
    ensures saved <= 0.0 ==> r == m
    ensures forall k :: k in r && k != q ==> k in m && r[k] == m[k]
    ensures forall k :: k in m ==> k in r
  {
    if saved > 0.0 then m[q := saved] else m
  }

  /** Saving a clock with its getter and restoring it into an empty
      dictionary brings back a positive time; a zero time (or none) comes
      back as no entry, which reads as -1 again. */
  lemma SaveRestoreClock(m: map<QuestData, real>, q: QuestData)
    requires forall k :: k in m ==> m[k] >= 0.0
    ensures Lookup(Restored(map[], q, Lookup(m, q, -1.0)), q, -1.0)
            == (if q in m && m[q] > 0.0 then m[q] else -1.0)
  {
  }

  /** The panel invariant of `QuestUIManager`, on values. */
  ghost predicate Shown(order: seq<QuestData>, slots: map<QuestData, Panel>, display: seq<QuestData>)
  {
    Distinct(order) && slots.Keys == (set k | k in order) && multiset(display) == multiset(order)
  }

  /** A new quest's panel appended to the order and the display keeps the
      invariant. */
  lemma ShownKeepsValid(order: seq<QuestData>, slots: map<QuestData, Panel>, display: seq<QuestData>,
                        q: QuestData, panel: Panel)
    requires Shown(order, slots, display) && q !in slots
    ensures Shown(order + [q], slots[q := panel], display + [q])
  {
    assert q !in order;
    assert (set k | k in order + [q]) == (set k | k in order) + {q};
  }

  /** The status flags of every panel. */
  function FlagsOf(ps: map<QuestData, Panel>): (fl: map<QuestData, ItemFlags>)
    ensures fl.Keys == ps.Keys
    ensures forall q :: q in ps ==> fl[q] == ps[q].flags
  {
    map q | q in ps :: ps[q].flags
  }

  // ------------------------------------------------------------ the panel

  /** `QuestUIManager`: one panel per shown quest, the three clock
      dictionaries, and the panels' sibling order under the panel parent.
      `Time.time` and `Time.deltaTime` are the parameters `now` and `dt`;
      the quest manager's answers (`IsCompleted`, `HasQuest`) are the sets
      `done` and `tracked`. Each panel is held as its value: the manager is
      the only one that changes it. */
  class QuestUIManager {
    /** The keys of `slots` in enumeration order (insertion order: keys are
        only added, and all are cleared together). */
    var order: seq<QuestData>
    var slots: map<QuestData, Panel>
    var startTime: map<QuestData, real>
    var remainingTime: map<QuestData, real>
    var finishedTime: map<QuestData, real>
    /** The panels' sibling order, top first. */
    var display: seq<QuestData>

    /** One key per shown quest, and every panel on display once. */
    ghost predicate Valid()
      reads this
    {
      Shown(order, slots, display)
    }

    function Clocks(): Times
      reads this
    {
      Times(remainingTime, startTime, finishedTime)
    }

    function State(): Board
      reads this
    {
      Board(slots, Clocks())
    }

    constructor ()
      ensures Valid() && order == [] && slots == map[] && display == []
      ensures startTime == map[] && remainingTime == map[] && finishedTime == map[]
    {
      order := [];
      slots := map[];
      startTime := map[];
      remainingTime := map[];
      finishedTime := map[];
      display := [];
    }

    /** `ReorderAll`: the panels regrouped and sorted for display. */
    method ReorderAll(done: set<QuestData>)
      requires Valid()
      modifies this`display
      ensures Valid()
      ensures Arranged(display, order, FlagsOf(slots), done, Clocks())
    {
      display := Arrange(order, FlagsOf(slots), done, Clocks());
    }

    /** `ForceReorder`. */
    method ForceReorder(done: set<QuestData>)
      requires Valid()
      modifies this`display
      ensures Valid()
      ensures Arranged(display, order, FlagsOf(slots), done, Clocks())
    {
      ReorderAll(done);
    }

    /** The timer loop of `Update`: every counting panel loses `dt`; one
        that runs out is pinned at zero and, when the quest manager still
        tracks the quest, failed (the panel first, then `FailQuest`, whose
        `MarkFailed` call back is made here). */
    method Tick(dt: real, now: real, tracked: set<QuestData>, done: set<QuestData>) returns (calls: seq<Call>)
      requires Valid()
      modifies this
      ensures Valid() && order == old(order)
      ensures State() == TickAll(order, old(State()), dt, now, tracked).0
      ensures calls == TickAll(order, old(State()), dt, now, tracked).1
      ensures calls == [] ==> display == old(display)
      ensures calls != [] ==> BandOrdered(display, FlagsOf(slots), done)
    {
      ghost var b0 := State();
      calls := [];
      var i := 0;
      while i < |order|
        invariant Valid() && order == old(order)
        invariant Ticked(order, i, b0, dt, now, tracked, done, State(), calls, display, old(display))
      {
        ghost var b, c, d := State(), calls, display;
        var more := TickOne(order[i], dt, now, tracked, done);
        calls := calls + more;
        TickedStep(order, i, b0, dt, now, tracked, done, b, c, d, old(display), State(), more, display);
        i := i + 1;
      }
      assert order[..i] == order;
    }

    /** One turn of the timer loop. */
    method TickOne(q: QuestData, dt: real, now: real, tracked: set<QuestData>, done: set<QuestData>) returns (calls: seq<Call>)
      requires Valid() && q in slots
      modifies this
      ensures Valid() && order == old(order)
      ensures (State(), calls) == TickKey(q, old(State()), dt, now, tracked)
      ensures calls == [] ==> display == old(display)
      ensures calls != [] ==> BandOrdered(display, FlagsOf(slots), done)
    {
      calls := [];
      var item := slots[q];
      if item.flags.completed || item.flags.claimed || item.flags.failed || !q.hasTimer
         || q !in startTime || q !in remainingTime {
        TickIdle(q, State(), dt, now, tracked);
        return;
      }
      ghost var before := State();
      var left := remainingTime[q] - dt;
      remainingTime := remainingTime[q := left];
      if left <= 0.0 {
        remainingTime := remainingTime[q := 0.0];
        assert remainingTime == before.clocks.remaining[q := 0.0];
        if q in tracked {
          TickFail(q, before, dt, now, tracked);
          calls := [FailQuest(q)];
          TimeOut(q, now, done);
          RemoveOverride(before.clocks.remaining, q, 0.0);
        } else {
          TickCountDown(q, before, dt, now, tracked);
        }
      } else {
        TickCountDown(q, before, dt, now, tracked);
      }
    }

    /** A timer that ran out on a tracked quest: the panel is failed, then
        `FailQuest` calls back `MarkFailed`. */
    method TimeOut(q: QuestData, now: real, done: set<QuestData>)
      requires Valid() && q in slots
      modifies this
      ensures Valid() && order == old(order) && startTime == old(startTime)
      ensures slots == old(slots)[q := StatusPanel(old(slots)[q], Fail, q.requiredAmount)]
      ensures remainingTime == old(remainingTime) - {q}
      ensures finishedTime == (if q in old(finishedTime) then old(finishedTime) else old(finishedTime)[q := now])
      ensures Arranged(display, order, FlagsOf(slots), done, Clocks())
    {
      var p := slots[q];
      slots := slots[q := StatusPanel(p, Fail, q.requiredAmount)];
      MarkFailed(q, now, done);
      StatusIdempotent(p, Fail, q.requiredAmount);
    }

    function GetRemainingTime(q: QuestData): (t: real)
      reads this
      ensures q in remainingTime ==> t == remainingTime[q]
      ensures q !in remainingTime ==> t == -1.0
    {
      Lookup(remainingTime, q, -1.0)
    }

    method RestoreRemainingTime(q: QuestData, time: real)
      modifies this`remainingTime
      ensures remainingTime == Restored(old(remainingTime), q, time)
      ensures time > 0.0 ==> GetRemainingTime(q) == time
    {
      if time > 0.0 {
        remainingTime := remainingTime[q := time];
      }
    }

    function GetStartTime(q: QuestData): (t: real)
      reads this
      ensures q in startTime ==> t == startTime[q]
      ensures q !in startTime ==> t == -1.0
    {
      Lookup(startTime, q, -1.0)
    }

    method RestoreStartTime(q: QuestData, savedTime: real)
      modifies this`startTime
      ensures startTime == Restored(old(startTime), q, savedTime)
      ensures savedTime > 0.0 ==> GetStartTime(q) == savedTime
    {
      if savedTime > 0.0 {
        startTime := startTime[q := savedTime];
      }
    }

    function GetFinishedTime(q: QuestData): (t: real)
      reads this
      ensures q in finishedTime ==> t == finishedTime[q]
      ensures q !in finishedTime ==> t == -1.0
    {
      Lookup(finishedTime, q, -1.0)
    }

    method RestoreFinishedTime(q: QuestData, time: real)
      modifies this`finishedTime
      ensures finishedTime == Restored(old(finishedTime), q, time)
      ensures time > 0.0 ==> GetFinishedTime(q) == time
    {
      if time > 0.0 {
        finishedTime := finishedTime[q := time];
      }
    }

    /** `ShowQuest`: a new panel for a quest not shown yet, with a full
        timer unless one was restored, and a start time unless restoring.
        The new panel is appended as the last sibling; outside a restore
        the panels are then reordered. */
    method ShowQuest(q: QuestData, isRestore: bool, now: real, done: set<QuestData>)
      requires Valid()
      modifies this`slots, this`order, this`display, this`remainingTime, this`startTime
      ensures Valid()
      ensures old(q in slots) ==> order == old(order) && display == old(display) && State() == old(State())
      ensures old(q !in slots) ==>
                && order == old(order) + [q]
                && slots == old(slots)[q := SetupPanel(Prefab, isRestore)]
                && remainingTime == (if q in old(remainingTime) then old(remainingTime) else old(remainingTime)[q := q.duration])
                && startTime == (if q in old(startTime) || isRestore then old(startTime) else old(startTime)[q := now])
                && finishedTime == old(finishedTime)
                && (isRestore ==> display == old(display) + [q])
                && (!isRestore ==> Arranged(display, order, FlagsOf(slots), done, Clocks()))
    {
      if q in slots {
        return;
      }
      AddPanel(q, isRestore, now);
      if !isRestore {
        ReorderAll(done);
      }
    }

    /** The part of `ShowQuest` that instantiates the panel for a quest
        not yet shown and starts its clocks. */
    method AddPanel(q: QuestData, isRestore: bool, now: real)
      requires Valid() && q !in slots
      modifies this`slots, this`order, this`display, this`remainingTime, this`startTime
      ensures Valid()
      ensures order == old(order) + [q] && display == old(display) + [q]
      ensures slots == old(slots)[q := SetupPanel(Prefab, isRestore)]
      ensures remainingTime == (if q in old(remainingTime) then old(remainingTime) else old(remainingTime)[q := q.duration])
      ensures startTime == (if q in old(startTime) || isRestore then old(startTime) else old(startTime)[q := now])
    {
      ShownKeepsValid(order, slots, display, q, SetupPanel(Prefab, isRestore));
      slots, order, display := slots[q := SetupPanel(Prefab, isRestore)], order + [q], display + [q];
      if q !in remainingTime {
        remainingTime := remainingTime[q := q.duration];
      }
      if q !in startTime && !isRestore {
        startTime := startTime[q := now];
      }
    }

    /** `MarkCompleted`: the panel's guarded completion, the finished time
        stamped once, and a reorder. Unknown quests are ignored. */
    method MarkCompleted(q: QuestData, now: real, done: set<QuestData>)
      requires Valid()
      modifies this
      ensures Valid() && order == old(order)
      ensures startTime == old(startTime) && remainingTime == old(remainingTime)
      ensures old(q !in slots) ==> State() == old(State()) && display == old(display)
      ensures old(q in slots) ==>
                && slots == old(slots)[q := StatusPanel(old(slots)[q], Complete, q.requiredAmount)]
                && finishedTime == (if q in old(finishedTime) then old(finishedTime) else old(finishedTime)[q := now])
                && Arranged(display, order, FlagsOf(slots), done, Clocks())
    {
      if q !in slots {
        return;
      }
      slots := slots[q := StatusPanel(slots[q], Complete, q.requiredAmount)];
      if q !in finishedTime {
        finishedTime := finishedTime[q := now];
      }
      ReorderAll(done);
    }

    /** `MarkFailed`: the remaining time is dropped, the panel's guarded
        failure applied, the finished time stamped once, and the panels
        reordered. Unknown quests are ignored. */
    method MarkFailed(q: QuestData, now: real, done: set<QuestData>)
      requires Valid()
      modifies this
      ensures Valid() && order == old(order) && startTime == old(startTime)
      ensures old(q !in slots) ==> State() == old(State()) && display == old(display)
      ensures old(q in slots) ==>
                && slots == old(slots)[q := StatusPanel(old(slots)[q], Fail, q.requiredAmount)]
                && remainingTime == old(remainingTime) - {q}
                && finishedTime == (if q in old(finishedTime) then old(finishedTime) else old(finishedTime)[q := now])
                && Arranged(display, order, FlagsOf(slots), done, Clocks())
    {
      if q !in slots {
        return;
      }
      remainingTime := remainingTime - {q};
      slots := slots[q := StatusPanel(slots[q], Fail, q.requiredAmount)];
      if q !in finishedTime {
        finishedTime := finishedTime[q := now];
      }
      ReorderAll(done);
    }

    /** `MarkClaimed`: the panel's guarded claim and a reorder; during the
        claim step of the tutorial the claim is reported to it. */
    method MarkClaimed(q: QuestData, step: Tutorial.TutorialStep, done: set<QuestData>) returns (calls: seq<Call>)
      requires Valid()
      modifies this
      ensures Valid() && order == old(order) && Clocks() == old(Clocks())
      ensures old(q !in slots) ==> slots == old(slots) && display == old(display) && calls == []
      ensures old(q in slots) ==>
                && slots == old(slots)[q := StatusPanel(old(slots)[q], Claim, q.requiredAmount)]
                && Arranged(display, order, FlagsOf(slots), done, Clocks())
                && calls == (if step == Tutorial.ClaimQuest then [TutorialClaim(q.questID)] else [])
    {
      calls := [];
      if q !in slots {
        return;
      }
      slots := slots[q := StatusPanel(slots[q], Claim, q.requiredAmount)];
      ReorderAll(done);
      if step == Tutorial.ClaimQuest {
        calls := [TutorialClaim(q.questID)];
      }
    }

    /** `UpdateProgress`: forwarded to the quest's panel, if shown. */
    method UpdateProgress(q: QuestData, now: int, max: int)
      requires Valid()
      modifies this`slots
      ensures Valid()
      ensures slots == (if q in old(slots) then old(slots)[q := ProgressPanel(old(slots)[q], now)] else old(slots))
    {
      if q !in slots {
        return;
      }
      slots := slots[q := ProgressPanel(slots[q], now)];
    }

    /** `IsClaimed`: false for a quest without a panel. */
    function IsClaimed(q: QuestData): (c: bool)
      reads this
      ensures c <==> q in slots && slots[q].flags.claimed
    {
      q in slots && slots[q].flags.claimed
    }

    /** `ResetAll`: every panel destroyed and the clocks cleared. */
    method ResetAll()
      modifies this
      ensures Valid() && order == [] && slots == map[] && display == []
      ensures startTime == map[] && remainingTime == map[] && finishedTime == map[]
    {
      order := [];
      slots := map[];
      display := [];
      startTime := map[];
      remainingTime := map[];
      finishedTime := map[];
    }
  }
}
