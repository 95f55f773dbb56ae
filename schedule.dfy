/** The spawn scheduler: how `startWave` (GameCanvas.tsx:702-717) flattens a
    manifest into a timed queue, and how the wave tick (GameCanvas.tsx:647-652)
    splits that queue into the entries released now and those still pending. */
module SpawnSchedule {
  import opened GameTypes
  import opened Seqs

  /** One enemy of a manifest, before it is given a time: its type and the delay
      its group puts between it and the next enemy. */
  datatype Slot = Slot(kind: EnemyType, delay: nat)

  /** The first `n` enemies of a group. */
  function Repeat(g: WaveGroup, n: nat): (r: seq<Slot>)
    ensures |r| == n
    ensures forall k :: 0 <= k < n ==> r[k] == Slot(g.kind, g.delay)
  {
    if n == 0 then [] else Repeat(g, n - 1) + [Slot(g.kind, g.delay)]
  }

  /** The total enemy count of a manifest. */
  function TotalCount(groups: seq<WaveGroup>): nat {
    if groups == [] then 0
    else TotalCount(groups[..|groups| - 1]) + groups[|groups| - 1].count
  }

  /** The manifest's enemies one by one, groups in manifest order. */
  function Slots(groups: seq<WaveGroup>): (r: seq<Slot>)
    ensures |r| == TotalCount(groups)
  {
    if groups == [] then []
    else
      var last := groups[|groups| - 1];
      Slots(groups[..|groups| - 1]) + Repeat(last, last.count)
  }

  /** The sum of the delays of a run of slots: the running `time` of startWave
      after it has pushed them. */
  function DelaySum(slots: seq<Slot>): nat {
    if slots == [] then 0
    else DelaySum(slots[..|slots| - 1]) + slots[|slots| - 1].delay
  }

  /** The queue startWave builds from a run of slots. */
  function Schedule(slots: seq<Slot>): (q: seq<SpawnEntry>)
    ensures |q| == |slots|
  {
    if slots == [] then []
    else
      var init := slots[..|slots| - 1];
      Schedule(init) + [SpawnEntry(slots[|slots| - 1].kind, DelaySum(init))]
  }

  /** The queue of a whole manifest. */
  function WaveQueue(groups: seq<WaveGroup>): (q: seq<SpawnEntry>)
    ensures |q| == TotalCount(groups)
    ensures Sorted(q)
  {
    ScheduleSorted(Slots(groups));
    Schedule(Slots(groups))
  }

  predicate Sorted(q: seq<SpawnEntry>) {
    forall i, j :: 0 <= i <= j < |q| ==> q[i].spawnAt <= q[j].spawnAt
  }

  /** Entry k of the queue has the type of slot k and enters when the delays of
      all earlier entries have elapsed. */
  lemma {:induction false} ScheduleEntry(slots: seq<Slot>, k: nat)
    requires k < |slots|
    ensures Schedule(slots)[k] == SpawnEntry(slots[k].kind, DelaySum(slots[..k]))
  {
    var init := slots[..|slots| - 1];
    if k < |slots| - 1 {
      ScheduleEntry(init, k);
      assert init[..k] == slots[..k];
    } else {
      assert init == slots[..k];
    }
  }

  /** Running time never goes backwards: a longer prefix has a larger delay sum. */
  lemma {:induction false} DelaySumGrows(slots: seq<Slot>, j: nat, k: nat)
    requires j <= k <= |slots|
    ensures DelaySum(slots[..j]) <= DelaySum(slots[..k])
  {
    if j < k {
      DelaySumGrows(slots, j, k - 1);
      assert slots[..k][..k - 1] == slots[..k - 1];
    }
  }

  /** The queue starts at time 0 and its times never decrease. */
  lemma ScheduleSorted(slots: seq<Slot>)
    ensures Sorted(Schedule(slots))
    ensures |slots| > 0 ==> Schedule(slots)[0].spawnAt == 0
  {
    var q := Schedule(slots);
    forall i, j | 0 <= i <= j < |q| ensures q[i].spawnAt <= q[j].spawnAt {
      ScheduleEntry(slots, i);
      ScheduleEntry(slots, j);
      DelaySumGrows(slots, i, j);
    }
    if |slots| > 0 {
      ScheduleEntry(slots, 0);
    }
  }

  /** The slots of the first m groups are a prefix of the slots of all groups. */
  lemma {:induction false} SlotsPrefix(groups: seq<WaveGroup>, m: nat)
    requires m <= |groups|
    ensures Slots(groups[..m]) <= Slots(groups)
  {
    if m < |groups| {
      var init := groups[..|groups| - 1];
      SlotsPrefix(init, m);
      assert init[..m] == groups[..m];
      assert groups[..|groups|] == groups;
    } else {
      assert groups[..m] == groups;
    }
  }

  /** The queue follows manifest order: the entries of group i occupy one
      contiguous block, right after the entries of all earlier groups. */
  lemma GroupBlock(groups: seq<WaveGroup>, i: nat, k: nat)
    requires i < |groups|
    requires TotalCount(groups[..i]) <= k < TotalCount(groups[..i + 1])
    ensures k < |WaveQueue(groups)|
    ensures WaveQueue(groups)[k].kind == groups[i].kind
  {
    SlotsPrefix(groups, i + 1);
    assert groups[..i + 1][..i] == groups[..i];
    var slots := Slots(groups);
    assert Slots(groups[..i + 1]) == Slots(groups[..i]) + Repeat(groups[i], groups[i].count);
    assert slots[k] == Repeat(groups[i], groups[i].count)[k - TotalCount(groups[..i])];
    ScheduleEntry(slots, k);
  }

  /** Pushing one more slot appends one entry, timed at the delays so far. */
  lemma ScheduleSnoc(run: seq<Slot>, s: Slot)
    ensures Schedule(run + [s]) == Schedule(run) + [SpawnEntry(s.kind, DelaySum(run))]
    ensures DelaySum(run + [s]) == DelaySum(run) + s.delay
  {
    assert (run + [s])[..|run|] == run;
  }

  /** One more enemy of the group being queued: the queue gains an entry at
      the running time, and the running time grows by the group's delay. */
  lemma RepeatSnoc(done: seq<Slot>, g: WaveGroup, i: nat)
    ensures Schedule(done + Repeat(g, i + 1)) == Schedule(done + Repeat(g, i)) + [SpawnEntry(g.kind, DelaySum(done + Repeat(g, i)))]
    ensures DelaySum(done + Repeat(g, i + 1)) == DelaySum(done + Repeat(g, i)) + g.delay
  {
    assert done + Repeat(g, i + 1) == done + Repeat(g, i) + [Slot(g.kind, g.delay)];
    ScheduleSnoc(done + Repeat(g, i), Slot(g.kind, g.delay));
  }

  /** Taking one more group appends that group's enemies. */
  lemma SlotsSnoc(groups: seq<WaveGroup>, g: nat)
    requires g < |groups|
    ensures Slots(groups[..g + 1]) == Slots(groups[..g]) + Repeat(groups[g], groups[g].count)
    ensures TotalCount(groups[..g + 1]) == TotalCount(groups[..g]) + groups[g].count
  {
    assert groups[..g + 1][..g] == groups[..g];
  }

  /** A group's first k enemies are the first k of any longer run of it. */
  lemma {:induction false} RepeatPrefix(g: WaveGroup, n: nat, k: nat)
    requires k <= n
    ensures Repeat(g, n)[..k] == Repeat(g, k)
  {
    if k < n {
      RepeatPrefix(g, n - 1, k);
      assert Repeat(g, n)[..n - 1] == Repeat(g, n - 1);
    } else {
      assert Repeat(g, n)[..k] == Repeat(g, n);
    }
  }

  /** A run of n enemies of one group takes n times the group's delay. */
  lemma {:induction false} DelaySumRepeat(g: WaveGroup, n: nat)
    ensures DelaySum(Repeat(g, n)) == n * g.delay
  {
    if n > 0 {
      DelaySumRepeat(g, n - 1);
      assert Repeat(g, n)[..n - 1] == Repeat(g, n - 1);
    }
  }

  /** Every queued enemy has the type of some group of the manifest. */
  lemma {:induction false} SlotsFromGroups(groups: seq<WaveGroup>)
    ensures forall s :: s in Slots(groups) ==> exists g :: g in groups && g.kind == s.kind
  {
    if groups != [] {
      var init, last := groups[..|groups| - 1], groups[|groups| - 1];
      SlotsFromGroups(init);
      forall s | s in Slots(groups) ensures exists g :: g in groups && g.kind == s.kind {
        if s in Slots(init) {
          var g :| g in init && g.kind == s.kind;
          assert g in groups;
        } else {
          assert s in Repeat(last, last.count);
          assert last in groups;
        }
      }
    }
  }

  /** A manifest that has a group queues at least as many enemies as its last
      group holds. */
  lemma {:induction false} CountAtLeastLast(groups: seq<WaveGroup>)
    requires groups != []
    ensures TotalCount(groups) >= groups[|groups| - 1].count
  {
  }

  // ===== releasing the queue =====

  predicate IsDue(e: SpawnEntry, waveTimer: real) {
    e.spawnAt as real <= waveTimer
  }

  function DueTest(waveTimer: real): SpawnEntry -> bool {
    e => IsDue(e, waveTimer)
  }

  function PendingTest(waveTimer: real): SpawnEntry -> bool {
    e => !IsDue(e, waveTimer)
  }

  /** The entries released at this wave time (`spawnAt <= waveTimer`). */
  function Due(q: seq<SpawnEntry>, waveTimer: real): (r: seq<SpawnEntry>)
    ensures |r| <= |q|
    ensures forall e :: e in r ==> e in q && e.spawnAt as real <= waveTimer
  {
    FilterMembers(q, DueTest(waveTimer));
    Filter(q, DueTest(waveTimer))
  }

  /** The entries kept for later frames (`spawnAt > waveTimer`). */
  function Pending(q: seq<SpawnEntry>, waveTimer: real): (r: seq<SpawnEntry>)
    ensures |r| <= |q|
    ensures forall e :: e in r ==> e in q && e.spawnAt as real > waveTimer
  {
    FilterMembers(q, PendingTest(waveTimer));
    Filter(q, PendingTest(waveTimer))
  }

  /** Every entry is either released or kept, never both, never lost. */
  lemma ReleasePartitions(q: seq<SpawnEntry>, waveTimer: real)
    ensures |Due(q, waveTimer)| + |Pending(q, waveTimer)| == |q|
    ensures multiset(Due(q, waveTimer)) + multiset(Pending(q, waveTimer)) == multiset(q)
    ensures forall e :: e in Due(q, waveTimer) <==> e in q && e.spawnAt as real <= waveTimer
    ensures forall e :: e in Pending(q, waveTimer) <==> e in q && e.spawnAt as real > waveTimer
  {
    FilterSplit(q, DueTest(waveTimer), PendingTest(waveTimer));
    FilterMembers(q, DueTest(waveTimer));
    FilterMembers(q, PendingTest(waveTimer));
  }

  /** On a sorted queue (every queue startWave builds is one) the release takes a
      prefix and leaves the rest, so queue order is kept across frames. */
  lemma {:induction false} SortedReleaseIsPrefix(q: seq<SpawnEntry>, waveTimer: real)
    requires Sorted(q)
    ensures q == Due(q, waveTimer) + Pending(q, waveTimer)
  {
    if q != [] {
      if IsDue(q[0], waveTimer) {
        var rest := q[1..];
        SortedTail(q);
        SortedReleaseIsPrefix(rest, waveTimer);
        DueHead(q, waveTimer);
      } else {
        NothingDueAfterLateHead(q, waveTimer);
      }
    }
  }

  lemma DueHead(q: seq<SpawnEntry>, waveTimer: real)
    requires q != [] && IsDue(q[0], waveTimer)
    requires q[1..] == Due(q[1..], waveTimer) + Pending(q[1..], waveTimer)
    ensures q == Due(q, waveTimer) + Pending(q, waveTimer)
  {
    var rest := q[1..];
    var due, pending := DueTest(waveTimer), PendingTest(waveTimer);
    FilterCons(q, due);
    FilterCons(q, pending);
    assert due(q[0]) && !pending(q[0]);
    calc {
      Due(q, waveTimer) + Pending(q, waveTimer);
      [q[0]] + Filter(rest, due) + Filter(rest, pending);
      [q[0]] + rest;
    }
  }

  lemma SortedTail(q: seq<SpawnEntry>)
    requires q != [] && Sorted(q)
    ensures Sorted(q[1..])
  {
    var rest := q[1..];
    forall i, j | 0 <= i <= j < |rest| ensures rest[i].spawnAt <= rest[j].spawnAt {
      assert rest[i] == q[i + 1] && rest[j] == q[j + 1];
    }
  }

  lemma NothingDueAfterLateHead(q: seq<SpawnEntry>, waveTimer: real)
    requires q != [] && Sorted(q) && !IsDue(q[0], waveTimer)
    ensures Due(q, waveTimer) == [] && Pending(q, waveTimer) == q
  {
    forall i | 0 <= i < |q| ensures !IsDue(q[i], waveTimer) {
      assert q[0].spawnAt <= q[i].spawnAt;
    }
    FilterKeepsNone(q, DueTest(waveTimer));
    FilterKeepsAll(q, PendingTest(waveTimer));
  }

  /** What is still pending from a sorted queue is again sorted. */
  lemma PendingSorted(q: seq<SpawnEntry>, waveTimer: real)
    requires Sorted(q)
    ensures Sorted(Pending(q, waveTimer))
  {
    SortedReleaseIsPrefix(q, waveTimer);
    var d, p := Due(q, waveTimer), Pending(q, waveTimer);
    forall i, j | 0 <= i <= j < |p| ensures p[i].spawnAt <= p[j].spawnAt {
      assert p[i] == q[|d| + i] && p[j] == q[|d| + j];
    }
  }
}
